/** What the reports of a run have in common: contiguous sequences, strictly increasing (time, MMSI), sentences that
    decode to their identity, and channels that alternate per vessel (simulation/simulator.go). */
module Emission {
  import opened Basics
  import opened Model
  import opened Worlds
  import opened Engine

  /** Emission order within a run: by time, and by MMSI within one instant. */
  predicate Earlier(a: Message, b: Message) {
    a.timestamp < b.timestamp || (a.timestamp == b.timestamp && a.mmsi < b.mmsi)
  }

  function ReportsOf(sent: seq<Transmission>, mmsi: nat): nat {
    if sent == [] then 0
    else ReportsOf(sent[..|sent| - 1], mmsi) + if sent[|sent| - 1].message.mmsi == mmsi then 1 else 0
  }

  function ParityChannel(n: nat): Channel {
    if n % 2 == 0 then ChannelA else ChannelB
  }

  /** The sentence carries the report's identity, channel and UTC second. */
  ghost predicate SentenceOk(w: World, t: Transmission) {
    var r := w.decode(t.message.sentence);
    r.Some? && r.value.mmsi == t.message.mmsi && r.value.channel == t.channel
    && r.value.second == Some(UtcSecond(t.message.timestamp))
  }

  ghost predicate ReportOk(w: World, sent: seq<Transmission>, i: nat)
    requires i < |sent|
  {
    var t := sent[i];
    && t.message.sequence == i + 1
    && w.start <= t.message.timestamp
    && t.typeId == "cargo"
    && t.channel == ParityChannel(t.message.mmsi + ReportsOf(sent[..i], t.message.mmsi))
    && SentenceOk(w, t)
  }

  /** Every report emitted in a run so far. */
  ghost predicate SentOk(w: World, sent: seq<Transmission>) {
    && (forall i :: 0 <= i < |sent| ==> ReportOk(w, sent, i))
    && (forall i, j :: 0 <= i < j < |sent| ==> Earlier(sent[i].message, sent[j].message))
  }

  /** Every report precedes a report of mmsi at the instant at. */
  ghost predicate Precedes(sent: seq<Transmission>, at: int, mmsi: nat) {
    forall t <- sent :: t.message.timestamp < at || (t.message.timestamp == at && t.message.mmsi < mmsi)
  }

  ghost predicate VesselOk(sent: seq<Transmission>, v: Vessel) {
    && v.typeId == "cargo"
    && v.reports == ReportsOf(sent, v.position.mmsi)
    && 1 <= v.report.sequence <= |sent| && v.report == sent[v.report.sequence - 1].message
    && v.report.mmsi == v.position.mmsi && v.report.timestamp == v.position.updatedAt
  }

  /** Vessels have strictly increasing MMSIs in creation order; each one's latest report is the last it sent. */
  ghost predicate FleetOk(sent: seq<Transmission>, vessels: seq<Vessel>, nextMMSI: nat) {
    && (forall i, j :: 0 <= i < j < |vessels| ==> vessels[i].position.mmsi < vessels[j].position.mmsi)
    && (forall v <- vessels :: v.position.mmsi < nextMMSI && VesselOk(sent, v))
    && (forall t <- sent :: t.message.mmsi < nextMMSI)
  }

  /** The staged emission, given the reports sent before it. */
  ghost predicate EmissionOk(w: World, before: seq<Transmission>, p: Emitted) {
    && SentOk(w, before + p.sent)
    && p.state.sequence == |before| + |p.sent|
    && FleetOk(before + p.sent, p.state.vessels, p.state.nextMMSI)
  }

  lemma ReportsOfAppend(sent: seq<Transmission>, t: Transmission, mmsi: nat)
    ensures ReportsOf(sent + [t], mmsi) == ReportsOf(sent, mmsi) + if t.message.mmsi == mmsi then 1 else 0
  {
    assert (sent + [t])[..|sent|] == sent;
  }

  lemma {:induction false} NoReportsYet(sent: seq<Transmission>, mmsi: nat)
    requires forall t <- sent :: t.message.mmsi < mmsi
    ensures ReportsOf(sent, mmsi) == 0
  {
    if sent != [] {
      NoReportsYet(sent[..|sent| - 1], mmsi);
    }
  }

  /** Appending the next report of a vessel keeps the order of the whole run. */
  lemma ReportsAppend(w: World, sent: seq<Transmission>, t: Transmission)
    requires forall i :: 0 <= i < |sent| ==> ReportOk(w, sent, i)
    requires ReportOk(w, sent + [t], |sent|)
    ensures forall i :: 0 <= i < |sent + [t]| ==> ReportOk(w, sent + [t], i)
  {
    hide SentenceOk, ReportsOf;
    forall i | 0 <= i < |sent|
      ensures ReportOk(w, sent + [t], i)
    {
      assert ReportOk(w, sent, i) && (sent + [t])[..i] == sent[..i];
    }
  }

  lemma OrderAppend(sent: seq<Transmission>, t: Transmission)
    requires forall i, j :: 0 <= i < j < |sent| ==> Earlier(sent[i].message, sent[j].message)
    requires forall x <- sent :: Earlier(x.message, t.message)
    ensures var all := sent + [t]; forall i, j :: 0 <= i < j < |all| ==> Earlier(all[i].message, all[j].message)
  {
    var all := sent + [t];
    forall i, j | 0 <= i < j < |all|
      ensures Earlier(all[i].message, all[j].message)
    {
      if j == |sent| {
        assert all[i] in sent;
      }
    }
  }

  lemma NewReportOk(w: World, sent: seq<Transmission>, st: State, v: Vessel)
    requires CodecSound(w) && EmitReport(w, st, v).Some?
    requires st.sequence == |sent| && w.start <= v.position.updatedAt && v.typeId == "cargo"
    requires v.reports == ReportsOf(sent, v.position.mmsi)
    ensures ReportOk(w, sent + [EmitReport(w, st, v).value.2], |sent|)
  {
    hide ReportsOf;
    var t := EmitReport(w, st, v).value.2;
    assert w.encode(v.position, NextChannel(v)).Some?;
    assert SentenceOk(w, t);
    assert (sent + [t])[..|sent|] == sent;
  }

  lemma NewReportLast(w: World, sent: seq<Transmission>, st: State, v: Vessel)
    requires EmitReport(w, st, v).Some? && Precedes(sent, v.position.updatedAt, v.position.mmsi)
    ensures forall x <- sent :: Earlier(x.message, EmitReport(w, st, v).value.2.message)
  {
  }

  lemma SentAppend(w: World, sent: seq<Transmission>, st: State, v: Vessel)
    requires CodecSound(w) && SentOk(w, sent) && EmitReport(w, st, v).Some?
    requires st.sequence == |sent| && w.start <= v.position.updatedAt && v.typeId == "cargo"
    requires v.reports == ReportsOf(sent, v.position.mmsi)
    requires Precedes(sent, v.position.updatedAt, v.position.mmsi)
    ensures SentOk(w, sent + [EmitReport(w, st, v).value.2])
  {
    hide ReportsOf, ReportOk, EmitReport, Earlier, CodecSound, Precedes;
    var t := EmitReport(w, st, v).value.2;
    NewReportOk(w, sent, st, v);
    NewReportLast(w, sent, st, v);
    ReportsAppend(w, sent, t);
    OrderAppend(sent, t);
  }

  /** A vessel that did not send t keeps its record. */
  lemma VesselKept(sent: seq<Transmission>, t: Transmission, v: Vessel)
    requires VesselOk(sent, v) && t.message.mmsi != v.position.mmsi
    ensures VesselOk(sent + [t], v)
  {
    ReportsOfAppend(sent, t, v.position.mmsi);
  }

  lemma VesselReported(w: World, sent: seq<Transmission>, st: State, v: Vessel)
    requires EmitReport(w, st, v).Some? && st.sequence == |sent| && v.typeId == "cargo"
    requires v.reports == ReportsOf(sent, v.position.mmsi)
    ensures var e := EmitReport(w, st, v).value;
            VesselOk(sent + [e.2], e.1) && e.1.position == v.position && e.0 == st.(sequence := st.sequence + 1)
  {
    ReportsOfAppend(sent, EmitReport(w, st, v).value.2, v.position.mmsi);
  }

  lemma FleetReported(sent: seq<Transmission>, t: Transmission, vessels: seq<Vessel>, i: nat, v: Vessel, next: nat)
    requires FleetOk(sent, vessels, next) && i < |vessels| && VesselOk(sent + [t], v)
    requires t.message.mmsi == v.position.mmsi == vessels[i].position.mmsi
    ensures FleetOk(sent + [t], vessels[i := v], next)
  {
    hide VesselOk;
    assert vessels[i] in vessels;
    forall u | u in vessels[i := v]
      ensures u.position.mmsi < next && VesselOk(sent + [t], u)
    {
      if u != v {
        var j :| 0 <= j < |vessels| && vessels[i := v][j] == u;
        assert vessels[j] in vessels && (j < i || i < j);
        VesselKept(sent, t, u);
      }
    }
  }

  lemma FleetGrows(sent: seq<Transmission>, t: Transmission, vessels: seq<Vessel>, v: Vessel, next: nat)
    requires FleetOk(sent, vessels, next) && VesselOk(sent + [t], v) && t.message.mmsi == v.position.mmsi == next
    ensures FleetOk(sent + [t], vessels + [v], next + 1)
  {
    hide VesselOk;
    forall u | u in vessels
      ensures VesselOk(sent + [t], u)
    {
      VesselKept(sent, t, u);
    }
  }

  /** State fields a tick does not touch. */
  predicate SameButFleet(a: State, b: State) {
    a.(vessels := [], sequence := 0, updatedAt := 0) == b.(vessels := [], sequence := 0, updatedAt := 0)
  }

  /** q extends p by reports of the instants from through to. */
  ghost predicate Extends(p: Emitted, q: Emitted, from: int, to: int) {
    && p.sent <= q.sent
    && forall i :: |p.sent| <= i < |q.sent| ==> from <= q.sent[i].message.timestamp <= to
  }

  function MMSIs(vessels: seq<Vessel>): seq<nat> {
    seq(|vessels|, i requires 0 <= i < |vessels| => vessels[i].position.mmsi)
  }

  /** The MMSI reported next within a tick; past the last vessel, the next unused one. */
  function NextReporter(st: State, k: nat): nat {
    if k < |st.vessels| then st.vessels[k].position.mmsi else st.nextMMSI
  }

  lemma VesselEmits(w: World, before: seq<Transmission>, q: Emitted, at: int, i: nat)
    requires CodecSound(w) && EmissionOk(w, before, q) && w.start <= at && i < |q.state.vessels|
    requires Precedes(before + q.sent, at, NextReporter(q.state, i))
    ensures var r := EmitVessel(w, q, at, i);
            && EmissionOk(w, before, r)
            && SameButFleet(r.state, q.state) && r.state.updatedAt == q.state.updatedAt
            && MMSIs(r.state.vessels) == MMSIs(q.state.vessels)
            && Precedes(before + r.sent, at, NextReporter(q.state, i + 1))
            && Extends(q, r, at, at) && |r.sent| <= |q.sent| + 1
  {
    hide EmitReport, Move, VesselOk, ReportOk, CodecSound;
    var v := q.state.vessels[i];
    assert v in q.state.vessels;
    var moved := v.(position := Move(w, v.position, at));
    MovedOk(w, before + q.sent, q.state, i, at);
    if EmitReport(w, q.state, moved).Some? {
      var e := EmitReport(w, q.state, moved).value;
      var sent := before + q.sent;
      assert before + (q.sent + [e.2]) == sent + [e.2];
      SentAppend(w, sent, q.state, moved);
      VesselReported(w, sent, q.state, moved);
      ReportedMessage(w, q.state, moved);
      FleetReported(sent, e.2, q.state.vessels, i, e.1, q.state.nextMMSI);
    }
  }

  lemma MovedOk(w: World, sent: seq<Transmission>, st: State, i: nat, at: int)
    requires FleetOk(sent, st.vessels, st.nextMMSI) && i < |st.vessels|
    ensures var v := st.vessels[i];
            var moved := v.(position := Move(w, v.position, at));
            && moved.position.mmsi == v.position.mmsi && moved.position.updatedAt == at && moved.typeId == "cargo"
            && moved.reports == ReportsOf(sent, moved.position.mmsi)
            && v.position.mmsi < NextReporter(st, i + 1)
  {
    assert st.vessels[i] in st.vessels;
  }

  lemma ReportedMessage(w: World, st: State, v: Vessel)
    requires EmitReport(w, st, v).Some?
    ensures var e := EmitReport(w, st, v).value;
            e.2.message.mmsi == v.position.mmsi && e.2.message.timestamp == v.position.updatedAt
  {
  }

  /** A tick keeps emission in order: after k vessels, everything sent precedes vessel k at that instant. */
  lemma {:induction false} VesselsEmitInOrder(w: World, before: seq<Transmission>, p: Emitted, at: int, k: nat)
    requires CodecSound(w) && EmissionOk(w, before, p) && Precedes(before + p.sent, at, 0) && w.start <= at
    requires k <= |p.state.vessels|
    ensures var q := EmitVessels(w, p, at, k);
            && EmissionOk(w, before, q)
            && SameButFleet(q.state, p.state) && q.state.updatedAt == p.state.updatedAt
            && MMSIs(q.state.vessels) == MMSIs(p.state.vessels)
            && Precedes(before + q.sent, at, NextReporter(p.state, k))
            && Extends(p, q, at, at) && |q.sent| <= |p.sent| + k
  {
    hide EmissionOk, EmitVessel, CodecSound;
    if k > 0 {
      VesselsEmitInOrder(w, before, p, at, k - 1);
      var q := EmitVessels(w, p, at, k - 1);
      assert MMSIs(q.state.vessels)[k - 1] == MMSIs(p.state.vessels)[k - 1];
      assert k < |p.state.vessels| ==> MMSIs(q.state.vessels)[k] == MMSIs(p.state.vessels)[k];
      var i, j := NextReporter(p.state, k - 1), NextReporter(p.state, k);
      if q.stop.None? {
        VesselEmits(w, before, q, at, k - 1);
      } else {
        FleetIncreases(w, before, p, k - 1);
      }
    }
  }

  lemma FleetIncreases(w: World, before: seq<Transmission>, p: Emitted, k: nat)
    requires EmissionOk(w, before, p) && k < |p.state.vessels|
    ensures NextReporter(p.state, k) < NextReporter(p.state, k + 1)
  {
    assert p.state.vessels[k] in p.state.vessels;
  }

  lemma TickEmits(w: World, before: seq<Transmission>, q: Emitted, at: int)
    requires CodecSound(w) && EmissionOk(w, before, q) && Precedes(before + q.sent, at, 0) && w.start <= at
    ensures var r := EmitTick(w, q, at);
            && EmissionOk(w, before, r) && SameButFleet(r.state, q.state)
            && (r.state.updatedAt == q.state.updatedAt || r.state.updatedAt == at)
            && MMSIs(r.state.vessels) == MMSIs(q.state.vessels)
            && Extends(q, r, at, at) && |r.sent| <= |q.sent| + |q.state.vessels|
            && forall t <- before + r.sent :: t.message.timestamp <= at
  {
    hide FleetOk, SentOk, CodecSound, EmitVessels, MMSIs;
    VesselsEmitInOrder(w, before, q, at, |q.state.vessels|);
    SameSize(EmitVessels(w, q, at, |q.state.vessels|).state, q.state);
  }

  lemma SameSize(a: State, b: State)
    ensures MMSIs(a.vessels) == MMSIs(b.vessels) ==> |a.vessels| == |b.vessels|
  {
    assert |MMSIs(a.vessels)| == |a.vessels| && |MMSIs(b.vessels)| == |b.vessels|;
  }

  /** Ticks emit in order and leave everything but vessels, sequence and the update time alone. */
  lemma {:induction false} TicksEmitInOrder(w: World, before: seq<Transmission>, p: Emitted, first: int, n: nat, budget: nat)
    requires CodecSound(w) && EmissionOk(w, before, p) && 0 <= first
    requires Precedes(before + p.sent, TickAt(w, first), 0)
    ensures var q := EmitTicks(w, p, first, n, budget);
            && EmissionOk(w, before, q) && SameButFleet(q.state, p.state)
            && (q.state.updatedAt == p.state.updatedAt || TickAt(w, first) <= q.state.updatedAt <= TickAt(w, first + n - 1))
            && MMSIs(q.state.vessels) == MMSIs(p.state.vessels)
            && Precedes(before + q.sent, TickAt(w, first + n), 0)
            && Extends(p, q, TickAt(w, first), TickAt(w, first + n - 1)) && |q.sent| <= |p.sent| + n * |p.state.vessels|
  {
    hide EmissionOk, EmitTick, CodecSound, MMSIs;
    if n > 0 {
      TicksEmitInOrder(w, before, p, first, n - 1, budget);
      var q := EmitTicks(w, p, first, n - 1, budget);
      SameSize(q.state, p.state);
      assert n * |p.state.vessels| == (n - 1) * |p.state.vessels| + |p.state.vessels|;
      if q.stop.None? && !(n > 1 && budget <= n - 1) {
        TickEmits(w, before, q, TickAt(w, first + n - 1));
      } else {
        EmissionIgnoresStop(w, before, q, Some(Cancelled));
      }
    }
  }

  lemma EmissionIgnoresStop(w: World, before: seq<Transmission>, q: Emitted, stop: Option<Error>)
    requires EmissionOk(w, before, q)
    ensures EmissionOk(w, before, q.(stop := stop))
  {
  }

  /** State fields vessel creation does not touch. */
  predicate SameButSpawn(a: State, b: State) {
    a.(vessels := [], sequence := 0, source := 0, nextMMSI := 0) == b.(vessels := [], sequence := 0, source := 0, nextMMSI := 0)
  }

  lemma SpawnEmits(w: World, before: seq<Transmission>, q: Emitted, now: int)
    requires CodecSound(w) && EmissionOk(w, before, q) && w.start <= now
    requires forall t <- before + q.sent :: t.message.timestamp <= now
    ensures var r := EmitSpawn(w, q, now);
            && EmissionOk(w, before, r) && SameButSpawn(r.state, q.state)
            && q.state.nextMMSI <= r.state.nextMMSI
            && (r.stop.None? ==> |r.state.vessels| == |q.state.vessels| + 1)
            && Extends(q, r, now, now) && |r.sent| <= |q.sent| + 1
            && forall t <- before + r.sent :: t.message.timestamp <= now
  {
    var sent := before + q.sent;
    var drawn := q.state.(source := w.spawn(q.state.source).source);
    var v := SpawnVessel(w, q.state, now);
    if EmitReport(w, drawn, v).Some? {
      var e := EmitReport(w, drawn, v).value;
      assert before + (q.sent + [e.2]) == sent + [e.2];
      NoReportsYet(sent, v.position.mmsi);
      SentAppend(w, sent, drawn, v);
      VesselReported(w, sent, drawn, v);
      FleetGrows(sent, e.2, q.state.vessels, e.1, q.state.nextMMSI);
    }
  }

  /** New vessels report in creation order at the current instant. */
  lemma {:induction false} NewVesselsEmitInOrder(w: World, before: seq<Transmission>, p: Emitted, now: int, k: nat)
    requires CodecSound(w) && EmissionOk(w, before, p) && w.start <= now
    requires forall t <- before + p.sent :: t.message.timestamp <= now
    ensures var q := EmitNew(w, p, now, k);
            && EmissionOk(w, before, q) && SameButSpawn(q.state, p.state)
            && p.state.nextMMSI <= q.state.nextMMSI
            && (p.stop.None? && q.stop.None? ==> |q.state.vessels| == |p.state.vessels| + k)
            && Extends(p, q, now, now) && |q.sent| <= |p.sent| + k
            && (forall t <- before + q.sent :: t.message.timestamp <= now)
  {
    hide EmissionOk, EmitSpawn, CodecSound;
    if k > 0 {
      NewVesselsEmitInOrder(w, before, p, now, k - 1);
      var q := EmitNew(w, p, now, k - 1);
      if q.stop.None? {
        SpawnEmits(w, before, q, now);
      }
    }
  }
}
