/** Every reception and target an engine shows passes the display's checks (simulation/observation.go against
    display/project.go). */
module HonestTargets {
  import opened Basics
  import opened Model
  import opened Sorting
  import opened Worlds
  import opened Engine
  import opened Emission
  import opened HistoryRing
  import opened Receiving
  import opened Targets
  import opened Listening
  import opened Runs
  import opened Wire
  import opened Agreement
  import opened Projections
  import opened Snapshots
  import opened HonestStations
  import RadioModel
  import Station

  /** The context of a snapshot shows each configured station and the selection. */
  ghost predicate Shown(w: World, e: Engine, tr: Trace, mmsis: seq<nat>, selected: seq<bool>, c: Context)
    requires |selected| == |e.state.stations| && Tracks(e.store, e.state.stations)
    requires forall m <- mmsis :: m in e.store.targets.targets
  {
    && c.limits == PublishedLimits() && c.startedAt == w.start && c.now == Now(w, e.state) && c.transmissions == |tr.sent|
    && forall i :: 0 <= i < |selected| ==> ShownAt(e, mmsis, selected, c, i)
  }

  ghost predicate ShownAt(e: Engine, mmsis: seq<nat>, selected: seq<bool>, c: Context, i: nat)
    requires |selected| == |e.state.stations| && Tracks(e.store, e.state.stations) && i < |selected|
    requires forall m <- mmsis :: m in e.store.targets.targets
  {
    var st := e.state.stations[i];
    && st.id in c.stations && c.stations[st.id] == StationToWire(e, mmsis, st, e.store.receivers[st.id], c.now)
    && (selected[i] <==> st.id in c.selected)
  }

  // ----- Receptions -----

  /** What a genuine reception carries. */
  lemma GenuineFacts(w: World, sent: seq<Transmission>, r: Reception)
    requires SentOk(w, sent) && Genuine(sent, r) && 0 < w.start
    ensures w.start <= r.timestamp && r.vesselType == "cargo" && PayloadAccepted(w.decode(r.sentence), ToWire(r))
    ensures exists t <- sent :: t.message.timestamp == r.timestamp
  {
    assert ReportOk(w, sent, r.transmission - 1);
    assert sent[r.transmission - 1] in sent;
  }

  lemma SnapshotAcceptedAsReceiver(s: ReceiverSnapshot)
    requires SnapshotOk(s)
    ensures ReceiverAccepted(s)
  {
    hide Station.NameValid;
  }

  /** The record of station i under its sequence. */
  lemma LoggedFacts(w: World, e: Engine, tr: Trace, i: nat, r: Reception)
    requires WorldSound(w) && Inv(w, e, tr) && i < |e.state.stations|
    requires Logged(tr.witnesses, r) && r.stationId == e.state.stations[i].id
    ensures var st := e.state.stations[i];
            && Genuine(tr.sent, r) && FromSite(st, r)
            && st.id in e.store.receivers && e.store.receivers[st.id].history != []
            && 1 <= r.sequence <= e.store.receivers[st.id].stats.last
  {
    hide SentOk, FleetOk, TargetsOk, Young, TargetsLogged, HeardOk, SiteOk, Allocated, Genuine, FromSite, RateWindow.BucketsOk,
         WorldSound, HistoryRing.At, Retains;
    var st := e.state.stations[i];
    assert st.id in Ids(e.state.stations);
    var wit := tr.witnesses[st.id];
    assert Listens(w, tr.sent, |tr.sent|, st, e.store.receivers[st.id], wit);
    assert r in wit.log;
    RetainedSize(e.store.receivers[st.id], wit.log);
  }

  lemma RetainedSize(rc: Receiver, log: seq<Reception>)
    requires Retains(rc, log)
    ensures |rc.history| == Min(HISTORY_LIMIT, |log|)
  {
    assert |Retained(rc)| == |Newest(HISTORY_LIMIT, log)|;
  }

  lemma ReceptionHonest(w: World, e: Engine, tr: Trace, mmsis: seq<nat>, selected: seq<bool>, c: Context, i: nat, r: Reception)
    requires WorldSound(w) && Inv(w, e, tr) && |selected| == |e.state.stations| && Tracks(e.store, e.state.stations)
    requires forall m <- mmsis :: m in e.store.targets.targets
    requires Shown(w, e, tr, mmsis, selected, c) && i < |selected| && selected[i]
    requires Logged(tr.witnesses, r) && r.stationId == e.state.stations[i].id
    ensures ReceptionAccepted(Some(c), w.decode, ToWire(r))
    ensures IdentityAccepted(Some(c), r.stationId, r.sequence, r.transmission) && InSnapshot(c, r.timestamp)
    ensures r.rfRevision <= c.stations[r.stationId].rfRevision && 1 <= r.rfRevision
    ensures c.stations[r.stationId].definition == e.state.stations[i].definition
  {
    hide Inv, WorldSound, SentOk, PayloadAccepted, ReceiverAccepted, RadioModel.LinkInRange, RecentOf, StationCount,
         HistoryRing.At;
    LoggedFacts(w, e, tr, i, r);
    InvSent(w, e, tr);
    GenuineFacts(w, tr.sent, r);
    SnapshotAcceptedAsReceiver(r.receiver);
    assert ShownAt(e, mmsis, selected, c, i);
    InvId(w, e, tr, i);
  }

  lemma InvSent(w: World, e: Engine, tr: Trace)
    requires WorldSound(w) && Inv(w, e, tr)
    ensures SentOk(w, tr.sent) && 0 < w.start && |tr.sent| <= MAX_UINT64
    ensures forall t <- tr.sent :: t.message.timestamp <= Now(w, e.state)
  {
  }

  lemma InvId(w: World, e: Engine, tr: Trace, i: nat)
    requires Inv(w, e, tr) && i < |e.state.stations|
    ensures e.state.stations[i].id != ""
  {
    hide SentOk, FleetOk, WitnessesOk, TargetsOk, Young, TargetsLogged, HeardOk, SiteOk;
    assert Allocated(e.state.stations[i].id, e.state.lastStationId);
    IdNotEmpty(e.state.stations[i].id, e.state.lastStationId);
  }

  // ----- Sightings -----

  lemma ObservationAtIs(t: Target, id: string)
    ensures ObservationAt(t, id).Some? ==> ObservationAt(t, id).value in t.observations && ObservationAt(t, id).value.stationId == id
  {
  }

  /** r is what selected station j < k observes. */
  ghost predicate SeenBy(stations: seq<Site>, selected: seq<bool>, t: Target, k: nat, r: Reception, enabled: bool)
    requires k <= |stations| == |selected|
  {
    exists j :: 0 <= j < k && selected[j] && ObservationAt(t, stations[j].id) == Some(r) && enabled == stations[j].definition.enabled
  }

  /** What the loop over the stations has gathered. */
  ghost predicate SightingOk(stations: seq<Site>, selected: seq<bool>, t: Target, k: nat, s: Sighting)
    requires k <= |stations| == |selected|
  {
    && |s.provenance| == |s.enabled|
    && (forall i :: 0 <= i < |s.provenance| ==> SeenBy(stations, selected, t, k, s.provenance[i], s.enabled[i]))
    && (forall i, j :: 0 <= i < j < |s.provenance| ==> s.provenance[i].stationId != s.provenance[j].stationId)
    && (s.chosen.None? <==> s.provenance == [])
    && (s.chosen.Some? ==> s.chosen.value in s.provenance && forall r <- s.provenance :: r.transmission <= s.chosen.value.transmission)
    && (forall j :: 0 <= j < k && selected[j] && ObservationAt(t, stations[j].id).Some? ==>
          ObservationAt(t, stations[j].id).value in s.provenance)
  }

  lemma SeenLater(stations: seq<Site>, selected: seq<bool>, t: Target, k: nat, r: Reception, enabled: bool)
    requires k < |stations| == |selected| && SeenBy(stations, selected, t, k, r, enabled)
    ensures SeenBy(stations, selected, t, k + 1, r, enabled)
    ensures DistinctIds(stations) ==> r.stationId != stations[k].id
  {
    var j :| 0 <= j < k && selected[j] && ObservationAt(t, stations[j].id) == Some(r) && enabled == stations[j].definition.enabled;
    ObservationAtIs(t, stations[j].id);
  }

  lemma SightNext(stations: seq<Site>, selected: seq<bool>, t: Target, k: nat, s: Sighting, r: Reception)
    requires k < |stations| == |selected| && DistinctIds(stations) && SightingOk(stations, selected, t, k, s)
    requires selected[k] && ObservationAt(t, stations[k].id) == Some(r)
    ensures SightingOk(stations, selected, t, k + 1,
              Sighting(if s.chosen.None? || r.transmission > s.chosen.value.transmission then Some(r) else s.chosen,
                       s.provenance + [r], s.enabled + [stations[k].definition.enabled]))
  {
    hide SeenBy, ObservationAt, DistinctIds;
    ObservationAtIs(t, stations[k].id);
    var p, en := s.provenance + [r], s.enabled + [stations[k].definition.enabled];
    forall i | 0 <= i < |s.provenance|
      ensures SeenBy(stations, selected, t, k + 1, s.provenance[i], s.enabled[i]) && s.provenance[i].stationId != r.stationId
    {
      SeenLater(stations, selected, t, k, s.provenance[i], s.enabled[i]);
    }
    SeenHere(stations, selected, t, k, r);
    assert p[|s.provenance|] == r;
  }

  lemma SeenHere(stations: seq<Site>, selected: seq<bool>, t: Target, k: nat, r: Reception)
    requires k < |stations| == |selected| && selected[k] && ObservationAt(t, stations[k].id) == Some(r)
    ensures SeenBy(stations, selected, t, k + 1, r, stations[k].definition.enabled)
  {
    assert k < k + 1;
  }

  lemma SightSkips(stations: seq<Site>, selected: seq<bool>, t: Target, k: nat, s: Sighting)
    requires k < |stations| == |selected| && DistinctIds(stations) && SightingOk(stations, selected, t, k, s)
    requires !selected[k] || ObservationAt(t, stations[k].id).None?
    ensures SightingOk(stations, selected, t, k + 1, s)
  {
    hide SeenBy, ObservationAt, DistinctIds;
    forall i | 0 <= i < |s.provenance|
      ensures SeenBy(stations, selected, t, k + 1, s.provenance[i], s.enabled[i])
    {
      SeenLater(stations, selected, t, k, s.provenance[i], s.enabled[i]);
    }
  }

  lemma {:induction false} SightingIsOk(stations: seq<Site>, selected: seq<bool>, t: Target, k: nat)
    requires k <= |stations| == |selected| && DistinctIds(stations)
    ensures SightingOk(stations, selected, t, k, SightUpTo(stations, selected, t, k))
  {
    hide SightingOk, ObservationAt, DistinctIds;
    if k == 0 {
      NothingSighted(stations, selected, t);
    } else {
      SightingIsOk(stations, selected, t, k - 1);
      var s := SightUpTo(stations, selected, t, k - 1);
      var r := ObservationAt(t, stations[k - 1].id);
      if r.Some? && selected[k - 1] {
        SightNext(stations, selected, t, k - 1, s, r.value);
      } else {
        SightSkips(stations, selected, t, k - 1, s);
      }
    }
  }

  lemma NothingSighted(stations: seq<Site>, selected: seq<bool>, t: Target)
    requires |stations| == |selected|
    ensures SightingOk(stations, selected, t, 0, Sighting(None, [], []))
  {
  }

  // ----- One target -----

  lemma ProvenanceOrder()
    ensures TotalOrder(ProvenanceAtMost)
  {
    StringOrder();
    hide StringAtMost;
    assert forall a, b :: ProvenanceAtMost(a, b) || ProvenanceAtMost(b, a);
    forall a, b, c | ProvenanceAtMost(a, b) && ProvenanceAtMost(b, c)
      ensures ProvenanceAtMost(a, c)
    {
      assert StringAtMost(a.stationId, b.stationId) && StringAtMost(b.stationId, c.stationId);
    }
  }

  lemma StatusMatches(age: int)
    requires age >= 0
    ensures StatusText(TargetStatus(age)) == StatusName(PublishedLimits(), age)
    ensures StatusText(TargetStatus(age)) == "lost" <==> TargetStatus(age) == Lost
  {
  }

  lemma AgeHonest(c: Context, at: int)
    requires c.limits == PublishedLimits() && at <= c.now && c.now - at < EXPIRY_AGE
    ensures AgeAccepted(c, Millis(c.now - at), StatusText(TargetStatus(c.now - at)), at)
  {
    StatusMatches(c.now - at);
  }

  /** What a stored observation at a selected station is. */
  lemma ObservationFacts(w: World, e: Engine, tr: Trace, m: nat, r: Reception)
    requires Inv(w, e, tr) && m in e.store.targets.targets && r in e.store.targets.targets[m].observations
    ensures Logged(tr.witnesses, r) && r.mmsi == m
    ensures r.timestamp <= Now(w, e.state) && Now(w, e.state) - r.timestamp < EXPIRY_AGE
    ensures DistinctStations(e.store.targets.targets[m].observations)
  {
    hide SentOk, FleetOk, SitesOk, WitnessesOk, HeardOk, Logged;
    assert TargetOk(m, e.store.targets.targets[m]) && YoungTarget(e.store.targets.targets[m], Now(w, e.state));
  }

  lemma ProvenanceHonest(w: World, e: Engine, tr: Trace, mmsis: seq<nat>, selected: seq<bool>, c: Context, m: nat,
                         t: WireTarget, chosen: Reception, r: Reception, enabled: bool)
    requires WorldSound(w) && Inv(w, e, tr) && |selected| == |e.state.stations| && Tracks(e.store, e.state.stations)
    requires forall x <- mmsis :: x in e.store.targets.targets
    requires Shown(w, e, tr, mmsis, selected, c) && m in e.store.targets.targets
    requires SeenBy(e.state.stations, selected, e.store.targets.targets[m], |selected|, r, enabled)
    requires t.report == ToWire(chosen) && r.transmission <= chosen.transmission
    ensures ProvenanceAccepted(c, t, ProvenanceToWire(r, enabled, c.now, chosen))
  {
    hide Inv, WorldSound, Shown, IdentityAccepted, AgeAccepted, StationToWire, TargetStatus, StatusText;
    var j: nat :| 0 <= j < |selected| && selected[j] && ObservationAt(e.store.targets.targets[m], e.state.stations[j].id) == Some(r)
           && enabled == e.state.stations[j].definition.enabled;
    ObservationAtIs(e.store.targets.targets[m], e.state.stations[j].id);
    ObservationFacts(w, e, tr, m, r);
    ReceptionHonest(w, e, tr, mmsis, selected, c, j, r);
    ShownClock(w, e, tr, mmsis, selected, c);
    AgeHonest(c, r.timestamp);
  }

  lemma ShownClock(w: World, e: Engine, tr: Trace, mmsis: seq<nat>, selected: seq<bool>, c: Context)
    requires |selected| == |e.state.stations| && Tracks(e.store, e.state.stations)
    requires forall x <- mmsis :: x in e.store.targets.targets
    requires Shown(w, e, tr, mmsis, selected, c)
    ensures c.now == Now(w, e.state) && c.limits == PublishedLimits()
  {
  }

  lemma InvDistinctIds(w: World, e: Engine, tr: Trace)
    requires Inv(w, e, tr)
    ensures DistinctIds(e.state.stations)
  {
  }

  function ProvenanceKey(p: WireProvenance): string {
    p.stationId
  }

  lemma ProvenancesDistinct(s: Sighting, now: int, chosen: Reception)
    requires |s.provenance| == |s.enabled|
    requires forall i, j :: 0 <= i < j < |s.provenance| ==> s.provenance[i].stationId != s.provenance[j].stationId
    ensures var ps := Sort(ProvenancesToWire(s, now, chosen), ProvenanceAtMost);
            && (forall i, j :: 0 <= i < j < |ps| ==> ps[i].stationId != ps[j].stationId)
            && (forall p :: p in ps <==> p in ProvenancesToWire(s, now, chosen))
  {
    hide Sort, ProvenanceAtMost, TargetStatus;
    var all := ProvenancesToWire(s, now, chosen);
    ProvenanceOrder();
    SortCorrect(all, ProvenanceAtMost);
    forall i, j | 0 <= i < j < |all|
      ensures ProvenanceKey(all[i]) != ProvenanceKey(all[j])
    {
    }
    SortKeepsDistinct(all, ProvenanceAtMost, ProvenanceKey);
    var ps := Sort(all, ProvenanceAtMost);
    forall i, j | 0 <= i < j < |ps|
      ensures ps[i].stationId != ps[j].stationId
    {
      assert ProvenanceKey(ps[i]) != ProvenanceKey(ps[j]);
    }
  }

  lemma TargetHonest(w: World, e: Engine, tr: Trace, mmsis: seq<nat>, selected: seq<bool>, c: Context, m: nat)
    requires WorldSound(w) && Inv(w, e, tr) && |selected| == |e.state.stations| && Tracks(e.store, e.state.stations)
    requires forall x <- mmsis :: x in e.store.targets.targets
    requires Shown(w, e, tr, mmsis, selected, c) && m in e.store.targets.targets
    requires TargetToWire(e.state.stations, selected, m, e.store.targets.targets[m], c.now).Some?
    ensures TargetAccepted(c, w.decode, TargetToWire(e.state.stations, selected, m, e.store.targets.targets[m], c.now).value)
  {
    hide Inv, WorldSound, Shown, SightUpTo, ObservationAt, ProvenanceAccepted, ReceptionAccepted, AgeAccepted, Sort,
         TargetStatus, StatusText, SeenBy, ProvenanceToWire;
    var t := e.store.targets.targets[m];
    var s := SightUpTo(e.state.stations, selected, t, |e.state.stations|);
    InvDistinctIds(w, e, tr);
    SightingIsOk(e.state.stations, selected, t, |e.state.stations|);
    var chosen := s.chosen.value;
    var wire := TargetToWire(e.state.stations, selected, m, t, c.now).value;
    var all := ProvenancesToWire(s, c.now, chosen);
    assert wire.stations == Sort(all, ProvenanceAtMost);
    ProvenancesDistinct(s, c.now, chosen);
    ShownClock(w, e, tr, mmsis, selected, c);
    forall p | p in wire.stations
      ensures ProvenanceAccepted(c, wire, p) && (p.stationId == wire.report.stationId ==> p.sequence == wire.report.sequence)
    {
      assert p in all;
      var i :| 0 <= i < |all| && all[i] == p;
      ProvenanceHonest(w, e, tr, mmsis, selected, c, m, wire, chosen, s.provenance[i], s.enabled[i]);
      ProvenanceIs(s.provenance[i], s.enabled[i], c.now, chosen);
      if s.provenance[i].stationId == chosen.stationId {
        SameStationSame(s.provenance, s.provenance[i], chosen);
      }
    }
    var k :| 0 <= k < |s.provenance| && s.provenance[k] == chosen;
    ProvenanceIs(s.provenance[k], s.enabled[k], c.now, chosen);
    assert all[k] in all;
    assert all[k] in wire.stations && all[k].stationId == chosen.stationId;
    ChosenHonest(w, e, tr, mmsis, selected, c, m, chosen, s.enabled[k]);
  }

  lemma ProvenanceIs(r: Reception, enabled: bool, now: int, chosen: Reception)
    ensures ProvenanceToWire(r, enabled, now, chosen).stationId == r.stationId
    ensures ProvenanceToWire(r, enabled, now, chosen).sequence == r.sequence
    ensures ProvenanceToWire(r, enabled, now, chosen).transmission == r.transmission
    ensures ProvenanceToWire(r, enabled, now, chosen).status == StatusText(TargetStatus(now - r.timestamp))
  {
  }

  lemma SameStationSame(s: seq<Reception>, a: Reception, b: Reception)
    requires forall i, j :: 0 <= i < j < |s| ==> s[i].stationId != s[j].stationId
    requires a in s && b in s && a.stationId == b.stationId
    ensures a == b
  {
    var i :| 0 <= i < |s| && s[i] == a;
    var j :| 0 <= j < |s| && s[j] == b;
    assert i < j || j < i || i == j;
  }

  lemma ChosenHonest(w: World, e: Engine, tr: Trace, mmsis: seq<nat>, selected: seq<bool>, c: Context, m: nat,
                     chosen: Reception, enabled: bool)
    requires WorldSound(w) && Inv(w, e, tr) && |selected| == |e.state.stations| && Tracks(e.store, e.state.stations)
    requires forall x <- mmsis :: x in e.store.targets.targets
    requires Shown(w, e, tr, mmsis, selected, c) && m in e.store.targets.targets
    requires SeenBy(e.state.stations, selected, e.store.targets.targets[m], |selected|, chosen, enabled)
    ensures ReceptionAccepted(Some(c), w.decode, ToWire(chosen)) && chosen.mmsi == m
    ensures AgeAccepted(c, Millis(c.now - chosen.timestamp), StatusText(TargetStatus(c.now - chosen.timestamp)), chosen.timestamp)
  {
    hide Inv, WorldSound, Shown, ReceptionAccepted, AgeAccepted, StationToWire, TargetStatus, StatusText, IdentityAccepted;
    var j: nat :| 0 <= j < |selected| && selected[j]
           && ObservationAt(e.store.targets.targets[m], e.state.stations[j].id) == Some(chosen)
           && enabled == e.state.stations[j].definition.enabled;
    ObservationAtIs(e.store.targets.targets[m], e.state.stations[j].id);
    ObservationFacts(w, e, tr, m, chosen);
    ReceptionHonest(w, e, tr, mmsis, selected, c, j, chosen);
    ShownClock(w, e, tr, mmsis, selected, c);
    AgeHonest(c, chosen.timestamp);
  }

  // ----- Target counts -----

  /** p counts for station id. */
  predicate CountsFor(p: WireProvenance, id: string, lost: bool) {
    p.stationId == id && (p.status == "lost") == lost
  }

  lemma {:induction false} CountNone(ps: seq<WireProvenance>, id: string, lost: bool)
    requires forall p <- ps :: !CountsFor(p, id, lost)
    ensures CountAt(ps, id, lost) == 0
  {
    if ps != [] {
      CountNone(ps[..|ps| - 1], id, lost);
      assert CountsFor(ps[|ps| - 1], id, lost) == false;
    }
  }

  lemma {:induction false} CountOne(ps: seq<WireProvenance>, id: string, lost: bool, k: nat)
    requires forall i, j :: 0 <= i < j < |ps| ==> ps[i].stationId != ps[j].stationId
    requires k < |ps| && CountsFor(ps[k], id, lost)
    ensures CountAt(ps, id, lost) == 1
  {
    var n := |ps| - 1;
    if k < n {
      CountOne(ps[..n], id, lost, k);
      assert ps[k].stationId != ps[n].stationId;
    } else {
      forall p | p in ps[..n]
        ensures !CountsFor(p, id, lost)
      {
        var i :| 0 <= i < n && ps[i] == p;
        assert ps[i].stationId != ps[n].stationId;
      }
      CountNone(ps[..n], id, lost);
    }
  }

  lemma {:induction false} CountConcat(a: seq<WireProvenance>, b: seq<WireProvenance>, id: string, lost: bool)
    ensures CountAt(a + b, id, lost) == CountAt(a, id, lost) + CountAt(b, id, lost)
  {
    if b == [] {
      assert a + b == a;
    } else {
      CountConcat(a, b[..|b| - 1], id, lost);
      assert (a + b)[..|a + b| - 1] == a + b[..|b| - 1];
    }
  }

  /** What a target adds to the count of selected station i. */
  lemma TargetCounts(stations: seq<Site>, selected: seq<bool>, m: nat, t: Target, now: int, i: nat, lost: bool)
    requires |stations| == |selected| && DistinctIds(stations) && i < |stations| && selected[i]
    requires forall r <- t.observations :: r.timestamp <= now
    ensures var seen, wire := SeenAs(t, stations[i].id, now, lost), TargetToWire(stations, selected, m, t, now);
            && (wire.None? ==> !seen)
            && (wire.Some? ==> CountAt(wire.value.stations, stations[i].id, lost) == if seen then 1 else 0)
  {
    hide SightUpTo, ObservationAt, Sort, TargetStatus, StatusText, SeenBy, ProvenanceToWire, DistinctIds, CountAt;
    var s, id := SightUpTo(stations, selected, t, |stations|), stations[i].id;
    SightingIsOk(stations, selected, t, |stations|);
    var wire := TargetToWire(stations, selected, m, t, now);
    if wire.Some? {
      var chosen := s.chosen.value;
      var all := ProvenancesToWire(s, now, chosen);
      var ps := Sort(all, ProvenanceAtMost);
      ProvenancesDistinct(s, now, chosen);
      if SeenAs(t, id, now, lost) {
        var r := ObservationAt(t, id).value;
        var k :| 0 <= k < |s.provenance| && s.provenance[k] == r;
        ProvenanceIs(r, s.enabled[k], now, chosen);
        ObservationAtIs(t, id);
        StatusMatches(now - r.timestamp);
        assert all[k] in all && all[k] in ps;
        var x :| 0 <= x < |ps| && ps[x] == all[k];
        CountOne(ps, id, lost, x);
      } else {
        forall p | p in ps
          ensures !CountsFor(p, id, lost)
        {
          assert p in all;
          var k :| 0 <= k < |all| && all[k] == p;
          NotCounted(stations, selected, t, now, chosen, i, lost, s.provenance[k], s.enabled[k]);
        }
        CountNone(ps, id, lost);
      }
    }
  }

  lemma NotCounted(stations: seq<Site>, selected: seq<bool>, t: Target, now: int, chosen: Reception, i: nat, lost: bool,
                   r: Reception, enabled: bool)
    requires |stations| == |selected| && DistinctIds(stations) && i < |stations|
    requires SeenBy(stations, selected, t, |stations|, r, enabled) && !SeenAs(t, stations[i].id, now, lost)
    requires forall x <- t.observations :: x.timestamp <= now
    ensures !CountsFor(ProvenanceToWire(r, enabled, now, chosen), stations[i].id, lost)
  {
    hide TargetStatus, StatusText, ObservationAt;
    var j: nat :| 0 <= j < |stations| && selected[j] && ObservationAt(t, stations[j].id) == Some(r)
           && enabled == stations[j].definition.enabled;
    ObservationAtIs(t, stations[j].id);
    StatusMatches(now - r.timestamp);
  }

  /** The display's count of a selected station over all targets is the engine's. */
  lemma {:induction false} CountsAgree(w: World, e: Engine, tr: Trace, selected: seq<bool>, mmsis: seq<nat>, i: nat, lost: bool)
    requires Inv(w, e, tr) && |selected| == |e.state.stations| && i < |selected| && selected[i]
    requires forall m <- mmsis :: m in e.store.targets.targets
    ensures CountAt(Provenances(TargetsToWire(e, selected, mmsis, Now(w, e.state))), e.state.stations[i].id, lost)
         == StationCount(e.store.targets.targets, mmsis, e.state.stations[i].id, Now(w, e.state), lost)
  {
    hide Inv, TargetToWire, SeenAs, CountAt;
    var now, id := Now(w, e.state), e.state.stations[i].id;
    if mmsis == [] {
      CountNone([], id, lost);
    } else {
      var n := |mmsis| - 1;
      var m, front := mmsis[n], TargetsToWire(e, selected, mmsis[..n], now);
      CountsAgree(w, e, tr, selected, mmsis[..n], i, lost);
      InvDistinctIds(w, e, tr);
      var t := e.store.targets.targets[m];
      forall r | r in t.observations
        ensures r.timestamp <= now
      {
        ObservationFacts(w, e, tr, m, r);
      }
      TargetCounts(e.state.stations, selected, m, t, now, i, lost);
      var wire := TargetToWire(e.state.stations, selected, m, t, now);
      if wire.Some? {
        CountConcat(Provenances(front), wire.value.stations, id, lost);
        assert (front + [wire.value])[..|front|] == front;
      }
    }
  }
}
