/** The projector object of one response: it fills its maps while it checks, and accepts exactly what Projections
    describes (display/project.go). */
module Projectors {
  import opened Basics
  import opened Model
  import opened Sorting
  import opened Wire
  import opened Agreement
  import opened Projections
  import RadioModel

  // ----- References noted one after another -----

  lemma {:induction false} NoteStops(x: seq<Ref>, y: seq<Ref>)
    requires NoteAll(x).None?
    ensures NoteAll(x + y).None?
  {
    if y == [] {
      assert x + y == x;
    } else {
      NoteStops(x, y[..|y| - 1]);
      assert (x + y)[..|x + y| - 1] == x + y[..|y| - 1];
    }
  }

  lemma NoteOne(x: seq<Ref>, r: Ref)
    ensures NoteAll(x + [r]) == if NoteAll(x).None? then None else Note(NoteAll(x).value, r)
  {
    assert (x + [r])[..|x|] == x;
  }

  lemma NoteTwo(x: seq<Ref>, a: Ref, b: Ref)
    ensures x + [a, b] == x + [a] + [b]
    ensures NoteAll(x + [a]).None? ==> NoteAll(x + [a, b]).None?
  {
    assert x + [a, b] == x + [a] + [b];
    NoteOne(x + [a], b);
  }

  function Get(m: map<string, nat>, id: string): nat {
    if id in m then m[id] else 0
  }

  lemma CountNext(ps: seq<WireProvenance>, s: WireProvenance, id: string, lost: bool)
    ensures CountAt(ps + [s], id, lost)
         == CountAt(ps, id, lost) + if s.stationId == id && (s.status == "lost") == lost then 1 else 0
  {
    assert (ps + [s])[..|ps|] == ps;
  }

  class Projector {
    const decode: string -> Option<Report>
    const view: Option<Context>
    var decoded: map<string, Report>
    var sent: map<nat, Known>
    var received: map<(string, nat), nat>
    var current: map<string, nat>
    var lost: map<string, nat>
    /** Everything noted so far. */
    ghost var refs: seq<Ref>
    ghost var counted: seq<WireProvenance>

    ghost predicate Valid()
      reads this
    {
      && NoteAll(refs) == Some(Table(received, sent))
      && (forall s <- decoded :: decode(s) == Some(decoded[s]))
      && (forall id :: Get(current, id) == CountAt(counted, id, false) && Get(lost, id) == CountAt(counted, id, true))
    }

    constructor (decode: string -> Option<Report>, view: Option<Context>)
      ensures Valid() && refs == [] && counted == [] && this.decode == decode && this.view == view
    {
      this.decode, this.view := decode, view;
      decoded, sent, received, current, lost := map[], map[], map[], map[], map[];
      refs, counted := [], [];
    }

    lemma Noted()
      requires Valid()
      ensures NoteAll(refs).Some?
      ensures forall id :: Get(current, id) == CountAt(counted, id, false) && Get(lost, id) == CountAt(counted, id, true)
    {
    }

    /** A reception identity: known, selected and in bounds in a snapshot, and always of one transmission. */
    method Identity(id: string, sequence: nat, transmission: nat) returns (ok: bool)
      requires Valid()
      modifies this`received, this`refs
      ensures ok <==> IdentityAccepted(view, id, sequence, transmission) && NoteAll(old(refs) + [Names(id, sequence, transmission)]).Some?
      ensures ok ==> Valid() && refs == old(refs) + [Names(id, sequence, transmission)]
    {
      hide NoteAll, CountAt;
      if id == "" || sequence == 0 || transmission == 0 {
        return false;
      }
      if view.Some? {
        var c := view.value;
        if id !in c.stations || id !in c.selected {
          return false;
        }
        var latest := c.stations[id].latest;
        if latest.None? || sequence > latest.value || transmission > c.transmissions {
          return false;
        }
      }
      NoteOne(refs, Names(id, sequence, transmission));
      var key := (id, sequence);
      if key in received && received[key] != transmission {
        return false;
      }
      received := received[key := transmission];
      refs := refs + [Names(id, sequence, transmission)];
      ok := true;
    }

    /** What a transmission carried, against earlier references to it. */
    method Transmission(sequence: nat, t: Known) returns (ok: bool)
      requires Valid()
      modifies this`sent, this`refs
      ensures ok <==> NoteAll(old(refs) + [Carries(sequence, t)]).Some?
      ensures ok ==> Valid() && refs == old(refs) + [Carries(sequence, t)]
    {
      hide NoteAll, CountAt;
      NoteOne(refs, Carries(sequence, t));
      if sequence !in sent {
        sent := sent[sequence := t];
        refs := refs + [Carries(sequence, t)];
        return true;
      }
      var known := sent[sequence];
      if known.mmsi != t.mmsi || known.channel != t.channel || known.timestamp != t.timestamp
         || (known.sentence != "" && t.sentence != "" && known.sentence != t.sentence) {
        return false;
      }
      if known.sentence == "" {
        known := known.(sentence := t.sentence);
        sent := sent[sequence := known];
      }
      refs := refs + [Carries(sequence, t)];
      ok := true;
    }

    /** Decodes each distinct sentence once. */
    method Decode(sentence: string) returns (r: Option<Report>)
      requires Valid()
      modifies this`decoded
      ensures Valid() && r == decode(sentence)
    {
      hide NoteAll, CountAt;
      if sentence in decoded {
        return Some(decoded[sentence]);
      }
      r := decode(sentence);
      if r.Some? {
        decoded := decoded[sentence := r.value];
      }
    }

    method Reception(r: WireReception) returns (ok: bool)
      requires Valid()
      modifies this`decoded, this`sent, this`received, this`refs
      ensures ok <==> ReceptionAccepted(view, decode, r) && NoteAll(old(refs) + ReceptionRefs(r)).Some?
      ensures ok ==> Valid() && refs == old(refs) + ReceptionRefs(r)
    {
      hide NoteAll, CountAt, IdentityAccepted, ReceiverAccepted, RadioModel.LinkInRange, Valid;
      NoteTwo(refs, ReceptionRefs(r)[0], ReceptionRefs(r)[1]);
      var identified := Identity(r.stationId, r.sequence, r.transmission);
      if !identified {
        return false;
      }
      if !ChannelName(r.channel) || r.timestamp == 0 || r.configRevision == 0 || r.rfRevision == 0 || r.vesselType == ""
         || !r.receiver.channel.enabled {
        return false;
      }
      if !ReceiverAccepted(r.receiver) || !RadioModel.LinkInRange(r.link) {
        return false;
      }
      if view.Some? {
        KnownStation(view.value, r.stationId, r.sequence, r.transmission);
        var st := view.value.stations[r.stationId];
        if r.configRevision > st.configRevision || r.rfRevision > st.rfRevision || !InSnapshot(view.value, r.timestamp) {
          return false;
        }
      }
      var report := Decode(r.sentence);
      if !PayloadAccepted(report, r) {
        return false;
      }
      ok := Transmission(r.transmission, Known(r.mmsi, r.channel, r.timestamp, r.sentence));
    }

    /** Decides ProvenanceAccepted, and whether the references of s agree with all earlier ones. */
    method Provenance(t: WireTarget, s: WireProvenance) returns (ok: bool)
      requires Valid() && view.Some?
      modifies this`sent, this`received, this`refs, this`current, this`lost, this`counted
      ensures ok <==> ProvenanceAccepted(view.value, t, s) && NoteAll(old(refs) + ProvenanceRefs(t.mmsi, s)).Some?
      ensures ok ==> Valid() && refs == old(refs) + ProvenanceRefs(t.mmsi, s) && counted == old(counted) + [s]
    {
      hide NoteAll, CountAt, IdentityAccepted, AgeAccepted, Valid;
      var c := view.value;
      NoteTwo(refs, ProvenanceRefs(t.mmsi, s)[0], ProvenanceRefs(t.mmsi, s)[1]);
      var identified := Identity(s.stationId, s.sequence, s.transmission);
      if !identified {
        return false;
      }
      KnownStation(c, s.stationId, s.sequence, s.transmission);
      var station := c.stations[s.stationId];
      if !ChannelName(s.channel) || s.transmission > t.report.transmission
         || s.chosen != (s.transmission == t.report.transmission) || s.stationEnabled != station.definition.enabled
         || s.rfRevision == 0 || s.rfRevision > station.rfRevision {
        return false;
      }
      if !InSnapshot(c, s.timestamp) || !AgeAccepted(c, s.ageMs, s.status, s.timestamp) {
        return false;
      }
      var agreed := Transmission(s.transmission, Known(t.mmsi, s.channel, s.timestamp, ""));
      if !agreed {
        return false;
      }
      CountProvenance(s);
      ok := true;
    }

    method CountProvenance(s: WireProvenance)
      requires Valid()
      modifies this`current, this`lost, this`counted
      ensures Valid() && counted == old(counted) + [s]
    {
      hide NoteAll, CountAt;
      if s.status == "lost" {
        lost := lost[s.stationId := Get(lost, s.stationId) + 1];
      } else {
        current := current[s.stationId := Get(current, s.stationId) + 1];
      }
      forall id
        ensures CountAt(counted + [s], id, false) == CountAt(counted, id, false) + if s.stationId == id && s.status != "lost" then 1 else 0
        ensures CountAt(counted + [s], id, true) == CountAt(counted, id, true) + if s.stationId == id && s.status == "lost" then 1 else 0
      {
        CountNext(counted, s, id, false);
        CountNext(counted, s, id, true);
      }
      counted := counted + [s];
    }

    /** The provenance of one target. */
    method TargetStations(t: WireTarget) returns (ok: bool)
      requires Valid() && view.Some?
      modifies this`sent, this`received, this`refs, this`current, this`lost, this`counted
      ensures ok <==> && AcceptedUpTo(view.value, t, |t.stations|) && t.report.stationId in IdsUpTo(t, |t.stations|)
                      && NoteAll(old(refs) + StationsRefs(t.mmsi, t.stations)).Some?
      ensures ok ==> Valid() && refs == old(refs) + StationsRefs(t.mmsi, t.stations) && counted == old(counted) + t.stations
    {
      hide NoteAll, CountAt, Valid, ProvenanceAccepted, ProvenanceRefs, AcceptedUpTo, IdsUpTo;
      ghost var before := refs;
      var seen: set<string>, reporter := {}, false;
      assert before + [] == before;
      NothingUpTo(view.value, t);
      for i := 0 to |t.stations|
        invariant Valid() && refs == before + StationsRefs(t.mmsi, t.stations[..i])
        invariant counted == old(counted) + t.stations[..i]
        invariant seen == IdsUpTo(t, i) && AcceptedUpTo(view.value, t, i) && reporter == (t.report.stationId in seen)
      {
        var s := t.stations[i];
        NextUpTo(view.value, t, i);
        StationRefs(before, t.mmsi, t.stations, i);
        if s.stationId in seen {
          return false;
        }
        seen := seen + {s.stationId};
        var accepted := Provenance(t, s);
        if !accepted {
          return false;
        }
        if s.stationId == t.report.stationId {
          if s.sequence != t.report.sequence {
            return false;
          }
          reporter := true;
        }
      }
      assert t.stations[..|t.stations|] == t.stations;
      Noted();
      ok := reporter;
    }

    /** Decides TargetAccepted, and whether the references of t agree with all earlier ones. */
    method Target(t: WireTarget) returns (ok: bool)
      requires Valid() && view.Some?
      modifies this
      ensures ok <==> TargetAccepted(view.value, decode, t) && NoteAll(old(refs) + TargetRefs(t)).Some?
      ensures ok ==> Valid() && refs == old(refs) + TargetRefs(t) && counted == old(counted) + t.stations
    {
      hide NoteAll, Valid, AcceptedUpTo, IdsUpTo, TargetAccepted, ReceptionAccepted, AgeAccepted, ReceptionRefs, StationsRefs,
           TargetRefs;
      AllRefs(refs, t);
      AcceptedTarget(view.value, decode, t);
      var reported := Reception(t.report);
      if !reported {
        return false;
      }
      if t.mmsi != t.report.mmsi || !AgeAccepted(view.value, t.ageMs, t.status, t.report.timestamp) || t.stations == [] {
        return false;
      }
      ok := TargetStations(t);
    }
  }

  // ----- Provenance, station by station -----

  /** The first k stations are distinct and accepted. */
  ghost predicate AcceptedUpTo(c: Context, t: WireTarget, k: nat)
    requires k <= |t.stations|
  {
    && (forall i, j :: 0 <= i < j < k ==> t.stations[i].stationId != t.stations[j].stationId)
    && (forall i :: 0 <= i < k ==>
          ProvenanceAccepted(c, t, t.stations[i])
          && (t.stations[i].stationId == t.report.stationId ==> t.stations[i].sequence == t.report.sequence))
  }

  function IdsUpTo(t: WireTarget, k: nat): set<string>
    requires k <= |t.stations|
  {
    if k == 0 then {} else IdsUpTo(t, k - 1) + {t.stations[k - 1].stationId}
  }

  lemma {:induction false} IdsUpToAre(t: WireTarget, k: nat, id: string)
    requires k <= |t.stations|
    ensures id in IdsUpTo(t, k) <==> exists i :: 0 <= i < k && t.stations[i].stationId == id
  {
    if k > 0 {
      IdsUpToAre(t, k - 1, id);
      assert t.stations[k - 1].stationId == id || (id in IdsUpTo(t, k) <==> id in IdsUpTo(t, k - 1));
    }
  }

  lemma NothingUpTo(c: Context, t: WireTarget)
    ensures AcceptedUpTo(c, t, 0) && IdsUpTo(t, 0) == {}
  {
  }

  lemma {:induction false} EarlierUpTo(c: Context, t: WireTarget, k: nat, n: nat)
    requires k <= n <= |t.stations| && AcceptedUpTo(c, t, n)
    ensures AcceptedUpTo(c, t, k)
  {
  }

  lemma NextUpTo(c: Context, t: WireTarget, k: nat)
    requires k < |t.stations|
    ensures var s := t.stations[k];
            && (AcceptedUpTo(c, t, k + 1) <==>
                  && AcceptedUpTo(c, t, k) && s.stationId !in IdsUpTo(t, k)
                  && ProvenanceAccepted(c, t, s) && (s.stationId == t.report.stationId ==> s.sequence == t.report.sequence))
            && IdsUpTo(t, k + 1) == IdsUpTo(t, k) + {s.stationId}
            && (AcceptedUpTo(c, t, |t.stations|) ==> AcceptedUpTo(c, t, k + 1))
  {
    hide ProvenanceAccepted;
    IdsUpToAre(t, k, t.stations[k].stationId);
    if AcceptedUpTo(c, t, |t.stations|) {
      EarlierUpTo(c, t, k + 1, |t.stations|);
    }
  }

  lemma AcceptedTarget(c: Context, decode: string -> Option<Report>, t: WireTarget)
    ensures TargetAccepted(c, decode, t) <==>
              && ReceptionAccepted(Some(c), decode, t.report) && t.mmsi == t.report.mmsi
              && AgeAccepted(c, t.ageMs, t.status, t.report.timestamp)
              && AcceptedUpTo(c, t, |t.stations|) && t.report.stationId in IdsUpTo(t, |t.stations|)
    ensures t.stations == [] ==> !TargetAccepted(c, decode, t)
  {
    hide ProvenanceAccepted, ReceptionAccepted, AgeAccepted;
    IdsUpToAre(t, |t.stations|, t.report.stationId);
  }

  /** The references of a target, in the order they are noted; a rejected prefix rejects the target. */
  lemma AllRefs(before: seq<Ref>, t: WireTarget)
    ensures before + TargetRefs(t) == before + ReceptionRefs(t.report) + StationsRefs(t.mmsi, t.stations)
    ensures NoteAll(before + ReceptionRefs(t.report)).None? ==> NoteAll(before + TargetRefs(t)).None?
  {
    hide NoteAll;
    assert before + TargetRefs(t) == before + ReceptionRefs(t.report) + StationsRefs(t.mmsi, t.stations);
    if NoteAll(before + ReceptionRefs(t.report)).None? {
      NoteStops(before + ReceptionRefs(t.report), StationsRefs(t.mmsi, t.stations));
    }
  }

  lemma StationRefs(before: seq<Ref>, mmsi: nat, stations: seq<WireProvenance>, i: nat)
    requires i < |stations|
    ensures before + StationsRefs(mmsi, stations[..i + 1])
         == before + StationsRefs(mmsi, stations[..i]) + ProvenanceRefs(mmsi, stations[i])
    ensures NoteAll(before + StationsRefs(mmsi, stations[..i]) + ProvenanceRefs(mmsi, stations[i])).None? ==>
              NoteAll(before + StationsRefs(mmsi, stations)).None?
    ensures stations[..i] + [stations[i]] == stations[..i + 1]
  {
    hide NoteAll, ProvenanceRefs;
    assert stations[..i + 1][..i] == stations[..i];
    assert before + StationsRefs(mmsi, stations[..i + 1])
        == before + StationsRefs(mmsi, stations[..i]) + ProvenanceRefs(mmsi, stations[i]);
    StationsRefsPrefix(before, mmsi, stations, i + 1);
  }

  lemma {:induction false} StationsRefsPrefix(before: seq<Ref>, mmsi: nat, stations: seq<WireProvenance>, k: nat)
    requires k <= |stations|
    ensures NoteAll(before + StationsRefs(mmsi, stations[..k])).None? ==> NoteAll(before + StationsRefs(mmsi, stations)).None?
    decreases |stations|
  {
    hide NoteAll, ProvenanceRefs;
    if k == |stations| {
      assert stations[..k] == stations;
    } else {
      var n := |stations| - 1;
      StationsRefsPrefix(before, mmsi, stations[..n], k);
      assert stations[..n][..k] == stations[..k];
      if NoteAll(before + StationsRefs(mmsi, stations[..n])).None? {
        NoteStops(before + StationsRefs(mmsi, stations[..n]), ProvenanceRefs(mmsi, stations[n]));
        assert before + StationsRefs(mmsi, stations[..n]) + ProvenanceRefs(mmsi, stations[n]) == before + StationsRefs(mmsi, stations);
      }
    }
  }

  // ----- The snapshot -----

  lemma StationsByIdAre(stations: seq<WireStation>, k: nat)
    requires k < |stations|
    ensures StationsById(stations[..k + 1]) == StationsById(stations[..k])[stations[k].id := stations[k]]
  {
    assert stations[..k + 1][..k] == stations[..k];
  }

  ghost predicate StationsAcceptedUpTo(o: WireSnapshot, k: nat)
    requires k <= |o.stations|
  {
    && (forall i :: 0 <= i < k ==> StationAccepted(o.stations[i], o.limits, o.startedAt, o.clock.now))
    && (forall i :: 1 <= i < k ==> StringLess(o.stations[i - 1].id, o.stations[i].id))
  }

  /** The station loop: each station valid, in strictly increasing ID order, indexed by ID. */
  method ProjectStations(o: WireSnapshot) returns (ok: bool, stations: map<string, WireStation>, ids: seq<string>)
    ensures ok <==> StationsAccepted(o)
    ensures ok ==> stations == StationsById(o.stations) && ids == StationIds(o.stations)
  {
    hide StationAccepted, StringLess, StationsById;
    stations, ids := map[], [];
    NoStations();
    for i := 0 to |o.stations|
      invariant StationsAcceptedUpTo(o, i)
      invariant stations == StationsById(o.stations[..i]) && ids == StationIds(o.stations)[..i]
    {
      var s := o.stations[i];
      assert s in o.stations;
      var valid := ValidateStation(s, o.limits, o.startedAt, o.clock.now);
      if !valid {
        return false, stations, ids;
      }
      if i > 0 && !StringLess(ids[i - 1], s.id) {
        return false, stations, ids;
      }
      StationsByIdAre(o.stations, i);
      stations := stations[s.id := s];
      ids := ids + [s.id];
    }
    assert o.stations[..|o.stations|] == o.stations;
    ok := true;
  }

  lemma NoStations()
    ensures StationsById([]) == map[]
  {
  }

  lemma {:induction false} TargetsRefsPrefix(targets: seq<WireTarget>, k: nat, more: seq<Ref>)
    requires k <= |targets|
    ensures NoteAll(TargetsRefs(targets[..k])).None? ==> NoteAll(TargetsRefs(targets) + more).None?
    decreases |targets| - k
  {
    hide NoteAll, TargetRefs;
    if k == |targets| {
      assert targets[..k] == targets;
      if NoteAll(TargetsRefs(targets)).None? {
        NoteStops(TargetsRefs(targets), more);
      }
    } else {
      TargetsRefsPrefix(targets, k + 1, more);
      assert targets[..k + 1][..k] == targets[..k];
      if NoteAll(TargetsRefs(targets[..k])).None? {
        NoteStops(TargetsRefs(targets[..k]), TargetRefs(targets[k]));
      }
    }
  }

  lemma {:induction false} ReceptionsRefsPrefix(before: seq<Ref>, receptions: seq<WireReception>, k: nat)
    requires k <= |receptions|
    ensures NoteAll(before + ReceptionsRefs(receptions[..k])).None? ==> NoteAll(before + ReceptionsRefs(receptions)).None?
    decreases |receptions| - k
  {
    hide NoteAll, ReceptionRefs;
    if k == |receptions| {
      assert receptions[..k] == receptions;
    } else {
      ReceptionsRefsPrefix(before, receptions, k + 1);
      assert receptions[..k + 1][..k] == receptions[..k];
      assert before + ReceptionsRefs(receptions[..k + 1]) == before + ReceptionsRefs(receptions[..k]) + ReceptionRefs(receptions[k]);
      if NoteAll(before + ReceptionsRefs(receptions[..k])).None? {
        NoteStops(before + ReceptionsRefs(receptions[..k]), ReceptionRefs(receptions[k]));
      }
    }
  }

  ghost predicate TargetsAcceptedUpTo(c: Context, decode: string -> Option<Report>, targets: seq<WireTarget>, k: nat)
    requires k <= |targets|
  {
    && (forall i :: 0 <= i < k ==> TargetAccepted(c, decode, targets[i]))
    && (forall i, j :: 0 <= i < j < k ==> targets[i].mmsi != targets[j].mmsi)
  }

  function MmsisUpTo(targets: seq<WireTarget>, k: nat): set<nat>
    requires k <= |targets|
  {
    if k == 0 then {} else MmsisUpTo(targets, k - 1) + {targets[k - 1].mmsi}
  }

  lemma {:induction false} MmsisUpToAre(targets: seq<WireTarget>, k: nat, mmsi: nat)
    requires k <= |targets|
    ensures mmsi in MmsisUpTo(targets, k) <==> exists i :: 0 <= i < k && targets[i].mmsi == mmsi
  {
    if k > 0 {
      MmsisUpToAre(targets, k - 1, mmsi);
      assert targets[k - 1].mmsi == mmsi || (mmsi in MmsisUpTo(targets, k) <==> mmsi in MmsisUpTo(targets, k - 1));
    }
  }

  lemma NextTarget(c: Context, decode: string -> Option<Report>, targets: seq<WireTarget>, k: nat)
    requires k < |targets|
    ensures && (TargetsAcceptedUpTo(c, decode, targets, k + 1) <==>
                  && TargetsAcceptedUpTo(c, decode, targets, k) && targets[k].mmsi !in MmsisUpTo(targets, k)
                  && TargetAccepted(c, decode, targets[k]))
            && (TargetsAcceptedUpTo(c, decode, targets, |targets|) ==> TargetsAcceptedUpTo(c, decode, targets, k + 1))
  {
    hide TargetAccepted;
    MmsisUpToAre(targets, k, targets[k].mmsi);
  }

  lemma TargetSums(targets: seq<WireTarget>, k: nat)
    requires k < |targets|
    ensures TargetsRefs(targets[..k + 1]) == TargetsRefs(targets[..k]) + TargetRefs(targets[k])
    ensures Provenances(targets[..k + 1]) == Provenances(targets[..k]) + targets[k].stations
    ensures CountTargets(targets[..k + 1], true)
         == CountTargets(targets[..k], true) + if targets[k].status == "lost" then 1 else 0
    ensures CountTargets(targets[..k + 1], false)
         == CountTargets(targets[..k], false) + if targets[k].status == "lost" then 0 else 1
  {
    hide TargetRefs;
    assert targets[..k + 1][..k] == targets[..k];
  }

  lemma NothingCounted()
    ensures MmsisUpTo([], 0) == {} && TargetsRefs([]) == [] && Provenances([]) == []
    ensures CountTargets([], false) == 0 && CountTargets([], true) == 0
  {
  }

  /** The target loop: every target accepted and new, counted by status. */
  method ProjectTargets(p: Projector, targets: seq<WireTarget>, ghost more: seq<Ref>) returns (ok: bool, current: int, lost: int)
    requires p.Valid() && p.view.Some? && p.refs == [] && p.counted == []
    modifies p
    ensures ok ==> p.Valid() && p.refs == TargetsRefs(targets) && p.counted == Provenances(targets)
    ensures ok ==> TargetsAcceptedUpTo(p.view.value, p.decode, targets, |targets|)
    ensures ok ==> current == CountTargets(targets, false) && lost == CountTargets(targets, true)
    ensures !ok ==> !TargetsAcceptedUpTo(p.view.value, p.decode, targets, |targets|) || NoteAll(TargetsRefs(targets) + more).None?
  {
    hide NoteAll, TargetRefs, TargetAccepted, TargetsAcceptedUpTo, MmsisUpTo, Projector.Valid, CountTargets, Provenances, TargetsRefs;
    var seen: set<nat> := {};
    current, lost := 0, 0;
    NothingCounted();
    NoTargets(p.view.value, p.decode, targets);
    assert targets[..0] == [];
    for i := 0 to |targets|
      invariant p.Valid() && p.refs == TargetsRefs(targets[..i]) && p.counted == Provenances(targets[..i])
      invariant TargetsAcceptedUpTo(p.view.value, p.decode, targets, i) && seen == MmsisUpTo(targets, i)
      invariant current == CountTargets(targets[..i], false) && lost == CountTargets(targets[..i], true)
    {
      var t := targets[i];
      NextTarget(p.view.value, p.decode, targets, i);
      TargetSums(targets, i);
      TargetsRefsPrefix(targets, i + 1, more);
      NextMmsi(targets, i);
      if t.mmsi in seen {
        return false, current, lost;
      }
      seen := seen + {t.mmsi};
      var accepted := p.Target(t);
      if !accepted {
        return false, current, lost;
      }
      if t.status == "lost" {
        lost := lost + 1;
      } else {
        current := current + 1;
      }
    }
    assert targets[..|targets|] == targets;
    ok := true;
  }

  lemma NoTargets(c: Context, decode: string -> Option<Report>, targets: seq<WireTarget>)
    ensures TargetsAcceptedUpTo(c, decode, targets, 0) && MmsisUpTo(targets, 0) == {}
  {
  }

  lemma NextMmsi(targets: seq<WireTarget>, k: nat)
    requires k < |targets|
    ensures MmsisUpTo(targets, k + 1) == MmsisUpTo(targets, k) + {targets[k].mmsi}
  {
  }

  // ----- Recent receptions -----

  ghost predicate RecentsAcceptedUpTo(c: Context, decode: string -> Option<Report>, recent: seq<WireReception>, k: nat)
    requires k <= |recent|
  {
    && (forall i :: 0 <= i < k ==> ReceptionAccepted(Some(c), decode, recent[i]))
    && (forall i, j :: 0 <= i < j < k ==> (recent[i].stationId, recent[i].sequence) != (recent[j].stationId, recent[j].sequence))
    && (forall i :: 1 <= i < k ==> !EarlierReception(recent[i], recent[i - 1]))
  }

  function KeysUpTo(recent: seq<WireReception>, k: nat): set<(string, nat)>
    requires k <= |recent|
  {
    if k == 0 then {} else KeysUpTo(recent, k - 1) + {(recent[k - 1].stationId, recent[k - 1].sequence)}
  }

  lemma {:induction false} KeysUpToAre(recent: seq<WireReception>, k: nat, key: (string, nat))
    requires k <= |recent|
    ensures key in KeysUpTo(recent, k) <==> exists i :: 0 <= i < k && (recent[i].stationId, recent[i].sequence) == key
  {
    if k > 0 {
      KeysUpToAre(recent, k - 1, key);
      assert (recent[k - 1].stationId, recent[k - 1].sequence) == key || (key in KeysUpTo(recent, k) <==> key in KeysUpTo(recent, k - 1));
    }
  }

  lemma NextRecent(c: Context, decode: string -> Option<Report>, recent: seq<WireReception>, k: nat)
    requires k < |recent|
    ensures var key := (recent[k].stationId, recent[k].sequence);
            && (RecentsAcceptedUpTo(c, decode, recent, k + 1) <==>
                  && RecentsAcceptedUpTo(c, decode, recent, k) && key !in KeysUpTo(recent, k)
                  && (k > 0 ==> !EarlierReception(recent[k], recent[k - 1]))
                  && ReceptionAccepted(Some(c), decode, recent[k]))
            && KeysUpTo(recent, k + 1) == KeysUpTo(recent, k) + {key}
    ensures RecentsAccepted(c, decode, recent) ==> RecentsAcceptedUpTo(c, decode, recent, k + 1)
    ensures ReceptionsRefs(recent[..k + 1]) == ReceptionsRefs(recent[..k]) + ReceptionRefs(recent[k])
  {
    hide ReceptionAccepted, EarlierReception, ReceptionRefs;
    KeysUpToAre(recent, k, (recent[k].stationId, recent[k].sequence));
    assert recent[..k + 1][..k] == recent[..k];
  }

  lemma AllRecents(c: Context, decode: string -> Option<Report>, recent: seq<WireReception>)
    ensures RecentsAcceptedUpTo(c, decode, recent, |recent|) <==> RecentsAccepted(c, decode, recent)
    ensures RecentsAcceptedUpTo(c, decode, recent, 0) && KeysUpTo(recent, 0) == {} && ReceptionsRefs([]) == []
  {
    hide ReceptionAccepted, EarlierReception;
  }

  /** The recent receptions: distinct, in order, and each accepted. */
  method ProjectRecents(p: Projector, recent: seq<WireReception>) returns (ok: bool)
    requires p.Valid() && p.view.Some?
    modifies p
    ensures ok <==> RecentsAccepted(p.view.value, p.decode, recent) && NoteAll(old(p.refs) + ReceptionsRefs(recent)).Some?
  {
    hide NoteAll, ReceptionRefs, ReceptionsRefs, ReceptionAccepted, RecentsAcceptedUpTo, RecentsAccepted, KeysUpTo,
         Projector.Valid, EarlierReception;
    ghost var before := p.refs;
    var seen: set<(string, nat)> := {};
    AllRecents(p.view.value, p.decode, recent);
    assert recent[..0] == [] && before + [] == before;
    for i := 0 to |recent|
      invariant p.Valid() && p.refs == before + ReceptionsRefs(recent[..i])
      invariant RecentsAcceptedUpTo(p.view.value, p.decode, recent, i) && seen == KeysUpTo(recent, i)
    {
      var r := recent[i];
      NextRecent(p.view.value, p.decode, recent, i);
      ReceptionsRefsPrefix(before, recent, i + 1);
      assert before + ReceptionsRefs(recent[..i + 1]) == before + ReceptionsRefs(recent[..i]) + ReceptionRefs(r);
      var key := (r.stationId, r.sequence);
      if key in seen {
        return false;
      }
      seen := seen + {key};
      if i > 0 && EarlierReception(r, recent[i - 1]) {
        return false;
      }
      var accepted := p.Reception(r);
      if !accepted {
        return false;
      }
    }
    assert recent[..|recent|] == recent;
    p.Noted();
    ok := true;
  }

  lemma AllTargets(c: Context, decode: string -> Option<Report>, o: WireSnapshot)
    ensures TargetsAccepted(c, decode, o) <==>
              && TargetsAcceptedUpTo(c, decode, o.targets, |o.targets|)
              && o.currentTargets == CountTargets(o.targets, false) && o.lostTargets == CountTargets(o.targets, true)
              && StationCountsAccepted(c, o)
  {
    hide TargetAccepted, CountTargets, CountAt, Provenances;
  }

  ghost predicate StationCountsAccepted(c: Context, o: WireSnapshot) {
    forall s <- o.stations :: s.id in c.selected ==>
      s.currentTargets == CountAt(Provenances(o.targets), s.id, false)
      && s.lostTargets == CountAt(Provenances(o.targets), s.id, true)
  }

  /** The counts of selected stations against the provenance of all targets. */
  method ProjectCounts(p: Projector, c: Context, o: WireSnapshot) returns (ok: bool)
    requires p.Valid() && p.counted == Provenances(o.targets)
    ensures ok <==> StationCountsAccepted(c, o)
  {
    hide CountAt, Provenances, Projector.Valid;
    p.Noted();
    for i := 0 to |o.stations|
      invariant forall k :: 0 <= k < i && o.stations[k].id in c.selected ==>
                  && o.stations[k].currentTargets == CountAt(Provenances(o.targets), o.stations[k].id, false)
                  && o.stations[k].lostTargets == CountAt(Provenances(o.targets), o.stations[k].id, true)
    {
      var s := o.stations[i];
      assert s in o.stations;
      if s.id in c.selected && (s.currentTargets != Get(p.current, s.id) || s.lostTargets != Get(p.lost, s.id)) {
        return false;
      }
    }
    ok := true;
  }

  /** projectObservations: accepts exactly the snapshots whose parts are valid and whose references one assignment
      explains. */
  method ProjectObservations(decode: string -> Option<Report>, requested: Option<seq<string>>, o: WireSnapshot)
    returns (ok: bool)
    ensures ok <==> SnapshotAccepted(decode, requested, o)
  {
    hide HeaderAccepted, StationsAccepted, TargetsAccepted, TargetsAcceptedUpTo, RecentsAccepted, NoteAll, Explained, TargetsRefs,
         ReceptionsRefs, StationsById, StationIds, SortIds, CountTargets, StationCountsAccepted, Projector.Valid, Provenances;
    if !HeaderAccepted(o) {
      return false;
    }
    var stationsOk, stations, ids := ProjectStations(o);
    if !stationsOk {
      return false;
    }
    var want := SortIds(if requested.None? then ids else requested.value);
    if o.selection != want {
      return false;
    }
    var c := Context(o.limits, o.startedAt, o.clock.now, o.transmissions, stations, set id <- o.selection);
    AcceptedIffExplained(TargetsRefs(o.targets) + ReceptionsRefs(o.recent));
    AllTargets(c, decode, o);
    var p := new Projector(decode, Some(c));
    var targetsOk, current, lost := ProjectTargets(p, o.targets, ReceptionsRefs(o.recent));
    if !targetsOk || current != o.currentTargets || lost != o.lostTargets {
      return false;
    }
    var countsOk := ProjectCounts(p, c, o);
    if !countsOk {
      return false;
    }
    ok := ProjectRecents(p, o.recent);
  }

  // ----- The page -----

  ghost predicate OneOfPage(decode: string -> Option<Report>, stationId: string, p: WirePage, r: WireReception) {
    r.stationId == stationId && p.oldest.Some? && p.latest.Some? && p.oldest.value <= r.sequence <= p.latest.value
    && ReceptionAccepted(None, decode, r)
  }

  ghost predicate PageAcceptedUpTo(decode: string -> Option<Report>, stationId: string, p: WirePage, k: nat)
    requires k <= |p.receptions|
  {
    && (forall i :: 0 <= i < k ==> OneOfPage(decode, stationId, p, p.receptions[i]))
    && (forall i :: 1 <= i < k ==> Follows(p.receptions[i - 1], p.receptions[i]))
  }

  lemma AllOfPage(decode: string -> Option<Report>, stationId: string, p: WirePage)
    ensures PageAcceptedUpTo(decode, stationId, p, |p.receptions|) <==> PageReceptionsAccepted(decode, stationId, p)
  {
    hide ReceptionAccepted, Follows;
    if PageAcceptedUpTo(decode, stationId, p, |p.receptions|) {
      assert forall r <- p.receptions :: OneOfPage(decode, stationId, p, r);
    }
    if PageReceptionsAccepted(decode, stationId, p) {
      forall i | 0 <= i < |p.receptions|
        ensures OneOfPage(decode, stationId, p, p.receptions[i])
      {
        assert p.receptions[i] in p.receptions;
      }
    }
  }

  /** projectReceptionPage: run and station identity, bounds, a contiguous ascending block, cursor, gap and every
      reception. */
  method ProjectReceptionPage(decode: string -> Option<Report>, stationId: string, req: HistoryRequest, page: WirePage)
    returns (ok: bool)
    ensures ok <==> PageAccepted(decode, stationId, req, page)
  {
    hide PageHeaderAccepted, PageCursorAccepted, ReceptionAccepted, NoteAll, Explained, ReceptionsRefs, ReceptionRefs, Projector.Valid;
    if !PageHeaderAccepted(stationId, req, page) {
      return false;
    }
    AcceptedIffExplained(ReceptionsRefs(page.receptions));
    AllOfPage(decode, stationId, page);
    var p := new Projector(decode, None);
    NoReceptions();
    assert page.receptions[..0] == [];
    for i := 0 to |page.receptions|
      invariant p.Valid() && p.view == None && p.decode == decode && p.refs == ReceptionsRefs(page.receptions[..i]) && fresh(p)
      invariant PageAcceptedUpTo(decode, stationId, page, i)
    {
      var r := page.receptions[i];
      PageBounds(stationId, req, page);
      NextOfPage(page.receptions, i);
      ReceptionsRefsPrefix([], page.receptions, i + 1);
      if r.stationId != stationId || r.sequence < page.oldest.value || r.sequence > page.latest.value {
        return false;
      }
      if i > 0 && !Follows(page.receptions[i - 1], r) {
        return false;
      }
      var accepted := p.Reception(r);
      if !accepted {
        return false;
      }
    }
    assert page.receptions[..|page.receptions|] == page.receptions;
    p.Noted();
    ok := PageCursorAccepted(req, page);
  }

  lemma NoReceptions()
    ensures ReceptionsRefs([]) == []
  {
  }

  lemma NextOfPage(receptions: seq<WireReception>, k: nat)
    requires k < |receptions|
    ensures ReceptionsRefs(receptions[..k + 1]) == ReceptionsRefs(receptions[..k]) + ReceptionRefs(receptions[k])
    ensures [] + ReceptionsRefs(receptions[..k + 1]) == ReceptionsRefs(receptions[..k + 1])
    ensures [] + ReceptionsRefs(receptions) == ReceptionsRefs(receptions)
  {
    hide ReceptionRefs;
    assert receptions[..k + 1][..k] == receptions[..k];
  }

  lemma PageBounds(stationId: string, req: HistoryRequest, page: WirePage)
    requires PageHeaderAccepted(stationId, req, page) && page.receptions != []
    ensures page.oldest.Some? && page.latest.Some?
  {
  }

  lemma KnownStation(c: Context, id: string, sequence: nat, transmission: nat)
    requires IdentityAccepted(Some(c), id, sequence, transmission)
    ensures id in c.stations
  {
  }
}
