/** Every command keeps the run invariant, so every reachable engine satisfies it. */
module Reachable {
  import opened Basics
  import opened Model
  import opened Worlds
  import opened Engine
  import opened Emission
  import opened RateWindow
  import opened HistoryRing
  import opened Receiving
  import opened Targets
  import opened Listening
  import opened Runs
  import Decimal
  import Station

  // ----- Settling an emission -----

  lemma SettleKeepsInv(w: World, e: Engine, tr: Trace, out: Emitted, next: State, cancelled: bool)
    requires WorldSound(w) && Inv(w, e, tr) && Tracks(e.store, next.stations)
    requires NextOk(w, e, tr, out.sent, next)
    ensures Tracks(e.store, e.state.stations)
    ensures var r := Settle(w, e, out, next, cancelled);
            r.Committed? ==> r.sent == out.sent && Inv(w, r.engine, TraceSent(w, e, tr, out.sent))
  {
    hide Inv, NextOk, ReceiveAll, Commit, StageReceptions, WorldSound;
    InvReady(w, e, tr);
    assert next.stations == e.state.stations by {
      NextStations(w, e, tr, out.sent, next);
    }
    var b := ReceiveAll(w, next.stations, StageReceptions(e.store, next.stations), out.sent);
    if b.Some? {
      CommitKeepsInv(w, e, tr, out.sent, b.value, next);
    }
  }

  lemma NextStations(w: World, e: Engine, tr: Trace, sent: seq<Transmission>, next: State)
    requires NextOk(w, e, tr, sent, next)
    ensures next.stations == e.state.stations
  {
  }

  /** An engine with the same stations and reports ready to emit. */
  lemma StartEmission(w: World, e: Engine, tr: Trace, next: State)
    requires Inv(w, e, tr) && next.vessels == e.state.vessels && next.sequence == e.state.sequence
    requires next.nextMMSI == e.state.nextMMSI
    ensures EmissionOk(w, tr.sent, Emitted(next, [], None))
  {
    hide SitesOk, WitnessesOk, TargetsOk, Young, TargetsLogged, HeardOk, TotalsOk, ReportOk;
    assert tr.sent + [] == tr.sent;
  }

  lemma TickBounds(elapsed: int, target: int)
    requires 0 <= elapsed <= target
    ensures var a, b := elapsed / TICK_INTERVAL, target / TICK_INTERVAL;
            0 <= a <= b && elapsed < (a + 1) * TICK_INTERVAL && b * TICK_INTERVAL <= target
  {
  }

  lemma EmissionFacts(w: World, e: Engine, tr: Trace)
    requires WorldSound(w) && Inv(w, e, tr)
    ensures CodecSound(w) && 0 < w.start && ClockOk(w, e.state)
    ensures SentWithin(w, e.state, tr.sent)
  {
  }

  lemma EmissionParts(w: World, before: seq<Transmission>, p: Emitted)
    requires EmissionOk(w, before, p)
    ensures SentOk(w, before + p.sent) && FleetOk(before + p.sent, p.state.vessels, p.state.nextMMSI)
    ensures p.state.sequence == |before| + |p.sent|
  {
  }

  lemma ExtendedTimes(p: Emitted, q: Emitted, from: int, to: int, now: int)
    requires Extends(p, q, from, to) && p.sent == [] && now <= from
    ensures forall t <- q.sent :: now <= t.message.timestamp <= to
  {
    forall t | t in q.sent
      ensures now <= t.message.timestamp <= to
    {
      var i :| 0 <= i < |q.sent| && q.sent[i] == t;
    }
  }

  /** The state an advance commits. */
  lemma AdvanceNext(w: World, e: Engine, tr: Trace, next: State, target: int, budget: nat)
    requires WorldSound(w) && Inv(w, e, tr) && next == e.state.(revision := next.revision, remainder := next.remainder)
    requires e.state.elapsed <= target <= MAX_INT64 && w.start + target < YEAR_10000
    requires 0 <= next.remainder < SPEED_SCALE
    requires var ticks := target / TICK_INTERVAL - e.state.elapsed / TICK_INTERVAL;
             ticks * |e.state.vessels| <= MAX_UINT64 - e.state.sequence
    ensures var first, ticks := e.state.elapsed / TICK_INTERVAL + 1, target / TICK_INTERVAL - e.state.elapsed / TICK_INTERVAL;
            var out := EmitTicks(w, Emitted(next, [], None), first, Max(ticks, 0), budget);
            && NextOk(w, e, tr, out.sent, out.state.(elapsed := target, stations := next.stations))
            && out.state.stations == next.stations
  {
    hide Inv, WorldSound, SentOk, FleetOk, EmitTicks, CodecSound, EmissionOk, Extends, MMSIs;
    var s := e.state;
    EmissionFacts(w, e, tr);
    TickBounds(s.elapsed, target);
    var first, ticks := s.elapsed / TICK_INTERVAL + 1, target / TICK_INTERVAL - s.elapsed / TICK_INTERVAL;
    var p := Emitted(next, [], None);
    var out := EmitTicks(w, p, first, ticks, budget);
    StartEmission(w, e, tr, next);
    assert tr.sent + p.sent == tr.sent;
    SentBefore(w, e, tr, TickAt(w, first));
    TicksEmitInOrder(w, tr.sent, p, first, ticks, budget);
    EmissionParts(w, tr.sent, out);
    SameSize(out.state, next);
    assert TickAt(w, first + ticks - 1) <= w.start + target && Now(w, s) <= TickAt(w, first);
    ExtendedTimes(p, out, TickAt(w, first), TickAt(w, first + ticks - 1), Now(w, s));
  }

  lemma InvClock(w: World, e: Engine, tr: Trace)
    requires Inv(w, e, tr)
    ensures ClockOk(w, e.state) && |e.state.vessels| <= MAX_VESSELS && e.state.sequence == |tr.sent| <= MAX_UINT64
    ensures forall t <- tr.sent :: t.message.timestamp <= Now(w, e.state)
  {
  }

  lemma SentBefore(w: World, e: Engine, tr: Trace, at: int)
    requires Inv(w, e, tr) && Now(w, e.state) < at
    ensures Precedes(tr.sent, at, 0)
  {
    InvClock(w, e, tr);
  }

  lemma AdvanceKeepsInv(w: World, e: Engine, tr: Trace, next: State, delta: int, budget: nat)
    requires WorldSound(w) && Inv(w, e, tr) && next == e.state.(remainder := next.remainder)
    requires delta >= 0 && 0 <= next.remainder < SPEED_SCALE
    ensures Ready(e) && next.elapsed >= 0
    ensures var r := AdvanceFrom(w, e, next, delta, budget);
            r.Committed? ==> Inv(w, r.engine, TraceSent(w, e, tr, r.sent))
  {
    hide Inv, WorldSound, EmitTicks, Settle, NextOk, TraceSent;
    InvReady(w, e, tr);
    InvClock(w, e, tr);
    var r := AdvanceFrom(w, e, next, delta, budget);
    if r.Committed? {
      var target := next.elapsed + delta;
      var first, ticks := next.elapsed / TICK_INTERVAL + 1, target / TICK_INTERVAL - next.elapsed / TICK_INTERVAL;
      var revised := if delta > 0 then next.(revision := next.revision + 1) else next;
      var out := EmitTicks(w, Emitted(revised, [], None), first, Max(ticks, 0), budget);
      AdvanceNext(w, e, tr, revised, target, budget);
      SettleKeepsInv(w, e, tr, out, out.state.(elapsed := target, stations := next.stations), budget <= Max(ticks, 1));
    }
  }

  lemma ElapseKeepsInv(w: World, e: Engine, tr: Trace, delta: int, budget: nat)
    requires WorldSound(w) && Inv(w, e, tr)
    ensures Ready(e)
    ensures var r := Elapse(w, e, delta, budget);
            r.Committed? ==> Inv(w, r.engine, TraceSent(w, e, tr, r.sent))
  {
    hide Inv, WorldSound, AdvanceFrom, TraceSent;
    InvReady(w, e, tr);
    InvClock(w, e, tr);
    var s := e.state;
    if delta >= 0 {
      var scaled := delta * s.speed + s.remainder;
      assert delta * s.speed >= 0;
      AdvanceKeepsInv(w, e, tr, s.(remainder := scaled % SPEED_SCALE), scaled / SPEED_SCALE, budget);
    }
  }

  // ----- The fleet -----

  lemma PrefixFleet(sent: seq<Transmission>, vessels: seq<Vessel>, nextMMSI: nat, k: nat)
    requires FleetOk(sent, vessels, nextMMSI) && k <= |vessels|
    ensures FleetOk(sent, vessels[..k], nextMMSI)
  {
    hide VesselOk;
  }

  lemma ShrinkNext(w: World, e: Engine, tr: Trace, count: nat, revision: nat)
    requires WorldSound(w) && Inv(w, e, tr) && count <= |e.state.vessels|
    ensures NextOk(w, e, tr, [], e.state.(revision := revision, vessels := e.state.vessels[..count],
                                         updatedAt := Now(w, e.state)))
  {
    hide SentOk, SitesOk, WitnessesOk, TargetsOk, Young, TargetsLogged, HeardOk, TotalsOk, FleetOk;
    PrefixFleet(tr.sent, e.state.vessels, e.state.nextMMSI, count);
    assert tr.sent + [] == tr.sent;
  }

  lemma GrowNext(w: World, e: Engine, tr: Trace, next: State, added: nat)
    requires WorldSound(w) && Inv(w, e, tr) && next == e.state.(revision := next.revision)
    requires |e.state.vessels| + added <= MAX_VESSELS && added <= MAX_UINT64 - e.state.sequence
    ensures var now := Now(w, e.state);
            var out := EmitNew(w, Emitted(next, [], None), now, added);
            && (out.stop.None? ==> NextOk(w, e, tr, out.sent, out.state.(updatedAt := now, stations := e.state.stations)))
            && out.state.stations == next.stations
  {
    hide Inv, WorldSound, SentOk, FleetOk, CodecSound, EmitNew, EmissionOk, Extends;
    var now, p := Now(w, e.state), Emitted(next, [], None);
    EmissionFacts(w, e, tr);
    StartEmission(w, e, tr, next);
    var out := EmitNew(w, p, now, added);
    assert tr.sent + p.sent == tr.sent;
    NewVesselsEmitInOrder(w, tr.sent, p, now, added);
    EmissionParts(w, tr.sent, out);
    ExtendedTimes(p, out, now, now, now);
  }

  /** Nothing sent, nothing traced. */
  lemma EmptyTrace(w: World, e: Engine, tr: Trace)
    requires Inv(w, e, tr)
    ensures Ready(e) && TraceSent(w, e, tr, []) == tr
  {
    hide Listens, SentOk, SitesOk, TargetsOk, Young, TargetsLogged, HeardOk, TotalsOk, FleetOk;
    InvReady(w, e, tr);
    forall id | id in tr.witnesses
      ensures HearAllStations(w, e, tr, [])[id] == tr.witnesses[id]
    {
      var i := FindStation(e.state.stations, id);
      if i < |e.state.stations| {
        var st, wit := e.state.stations[i], tr.witnesses[id];
        assert HearAll(w, st, Ear(e.store.receivers[id].stats, []), []).records == [];
        assert Hearings(w, st, []) == [];
        assert wit.events + [] == wit.events && wit.log + [] == wit.log;
      }
    }
    assert HearAllStations(w, e, tr, []) == tr.witnesses;
    assert tr.sent + [] == tr.sent && tr.heard + [] == tr.heard;
  }

  lemma SetCountKeepsInv(w: World, e: Engine, tr: Trace, count: int)
    requires WorldSound(w) && Inv(w, e, tr)
    ensures Ready(e)
    ensures var r := SetCount(w, e, count);
            r.Committed? ==> Inv(w, r.engine, TraceSent(w, e, tr, r.sent))
  {
    hide Inv, WorldSound, EmitNew, Settle, NextOk, TraceSent, ReceiveAll;
    InvReady(w, e, tr);
    InvClock(w, e, tr);
    var s, r := e.state, SetCount(w, e, count);
    var added := count - |s.vessels|;
    if r.Committed? {
      var revised := s.(revision := s.revision + 1);
      if added == 0 {
        EmptyTrace(w, e, tr);
      } else if added < 0 {
        ShrinkNext(w, e, tr, count, s.revision + 1);
        SettleKeepsInv(w, e, tr, Emitted(revised, [], None), revised.(vessels := s.vessels[..count], updatedAt := Now(w, s)), false);
      } else {
        var out := EmitNew(w, Emitted(revised, [], None), Now(w, s), added);
        GrowNext(w, e, tr, revised, added);
        SettleStop(w, e, out, out.state.(updatedAt := Now(w, s), stations := s.stations), false);
        SettleKeepsInv(w, e, tr, out, out.state.(updatedAt := Now(w, s), stations := s.stations), false);
      }
    }
  }

  lemma SettleStop(w: World, e: Engine, out: Emitted, next: State, cancelled: bool)
    requires Tracks(e.store, next.stations)
    ensures Settle(w, e, out, next, cancelled).Committed? ==> out.stop.None? && !cancelled
  {
    hide ReceiveAll, Commit;
  }

  // ----- Speed and stations -----

  lemma SpeedInRange(speed: real)
    ensures NormalizeSpeed(speed).Some? ==> 0 <= NormalizeSpeed(speed).value <= MAX_SPEED
  {
    RoundError(speed * 100.0);
  }

  /** Replacing speed and revision keeps the invariant. */
  lemma SpeedKeepsInv(w: World, e: Engine, tr: Trace, speed: int, revision: nat)
    requires Inv(w, e, tr) && 0 <= speed <= MAX_SPEED
    ensures Inv(w, e.(state := e.state.(speed := speed, revision := revision)), tr)
  {
    hide SentOk, SiteOk, Allocated, SiteTimesOk, FleetOk, Listens, TargetOk, YoungTarget, TargetsLogged, HeardOk;
  }

  lemma StationIdInjective(m: nat, n: nat)
    requires StationId(m) == StationId(n)
    ensures m == n
  {
    assert StationId(m)[8..] == Decimal.Format(m) && StationId(n)[8..] == Decimal.Format(n);
    Decimal.FormatInjective(m, n);
  }

  /** A newly allocated ID was never used. */
  lemma NewIdIsNew(w: World, s: State)
    requires SitesOk(w, s)
    ensures StationId(s.lastStationId + 1) !in Ids(s.stations)
  {
    if st :| st in s.stations && st.id == StationId(s.lastStationId + 1) {
      var n: nat :| 1 <= n <= s.lastStationId && st.id == StationId(n);
      StationIdInjective(n, s.lastStationId + 1);
    }
  }

  ghost predicate NewSiteOk(w: World, s: State, st: Site) {
    && SiteOk(w, st) && st.id == StationId(s.lastStationId + 1)
    && st.createdAt == st.rfUpdatedAt == Now(w, s)
  }

  lemma AddedSites(w: World, s: State, st: Site, revision: nat)
    requires SitesOk(w, s) && ClockOk(w, s) && NewSiteOk(w, s, st) && |s.stations| < MAX_STATIONS
    ensures SitesOk(w, s.(stations := s.stations + [st], lastStationId := s.lastStationId + 1,
                          stationRevision := s.stationRevision + 1, revision := revision))
  {
    hide SiteOk;
    NewIdIsNew(w, s);
    var stations := s.stations + [st];
    forall x | x in stations
      ensures Allocated(x.id, s.lastStationId + 1)
    {
      if x in s.stations {
        var n: nat :| 1 <= n <= s.lastStationId && x.id == StationId(n);
      }
    }
    forall i, j | 0 <= i < j < |stations|
      ensures stations[i].id != stations[j].id
    {
      assert stations[i] in s.stations && stations[i].id in Ids(s.stations);
    }
  }

  lemma AddedWitness(w: World, s: State, receivers: map<string, Receiver>, tr: Trace, st: Site)
    requires SitesOk(w, s) && WitnessesOk(w, s.stations, receivers, tr) && SentOk(w, tr.sent)
    requires st.id !in Ids(s.stations)
    ensures WitnessesOk(w, s.stations + [st], receivers[st.id := NewReceiver()],
                        tr.(witnesses := tr.witnesses[st.id := Witness([], [])]))
  {
    hide Listens, SiteOk, Allocated, SiteTimesOk, SentOk;
    NewStationListens(w, tr.sent, st);
    forall x | x in s.stations
      ensures x.id != st.id
    {
      assert x.id in Ids(s.stations);
    }
    assert Ids(s.stations + [st]) == Ids(s.stations) + {st.id};
  }

  /** What stays when only stations change. */
  lemma StationsKeepRest(w: World, e: Engine, tr: Trace, next: State)
    requires Inv(w, e, tr)
    requires next == e.state.(stations := next.stations, lastStationId := next.lastStationId,
                              stationRevision := next.stationRevision, revision := next.revision)
    ensures ClockOk(w, next) && SentWithin(w, next, tr.sent) && Now(w, next) == Now(w, e.state)
  {
    hide SentOk, FleetOk, SitesOk, WitnessesOk, TargetsOk, Young, TargetsLogged, HeardOk, TotalsOk;
  }

  function TraceAdded(e: Engine, tr: Trace): Trace {
    tr.(witnesses := tr.witnesses[StationId(e.state.lastStationId + 1) := Witness([], [])])
  }

  lemma StillLogged(ts: TargetStore, a: map<string, Witness>, id: string, wit: Witness)
    requires TargetsLogged(ts, a) && id !in a
    ensures TargetsLogged(ts, a[id := wit])
  {
  }

  lemma AddKeepsInv(w: World, e: Engine, tr: Trace, expected: nat, d: Definition)
    requires WorldSound(w) && Inv(w, e, tr)
    ensures var r := AddStation(w, e, expected, d);
            r.Committed? ==> Inv(w, r.engine, TraceAdded(e, tr))
  {
    hide SentOk, FleetOk, Listens, TargetOk, YoungTarget, TargetsLogged, HeardOk, WorldSound, Station.DefinitionValid,
         Station.CanonicalForm, Station.Canonical, StationId, SiteTimesOk;
    var s, r := e.state, AddStation(w, e, expected, d);
    if r.Committed? {
      var c := Station.CanonicalForm(d);
      Station.CanonicalFormIsCanonical(d);
      var st := Site(StationId(s.lastStationId + 1), c, 1, 1, Now(w, s), Now(w, s), w.coverage(c));
      AddedSites(w, s, st, s.revision + 1);
      NewIdIsNew(w, s);
      AddedWitness(w, s, e.store.receivers, tr, st);
      StationsKeepRest(w, e, tr, r.engine.state);
      StillLogged(e.store.targets, tr.witnesses, st.id, Witness([], []));
    }
  }

  lemma UpdatedLog(sent: seq<Transmission>, n: nat, a: Site, b: Site, log: seq<Reception>)
    requires LogOk(sent, n, a, log) && b.id == a.id && a.configRevision < b.configRevision && a.rfRevision <= b.rfRevision
    requires a.rfRevision == b.rfRevision ==> b.definition == a.definition.(name := b.definition.name)
    ensures LogOk(sent, n, b, log)
  {
    hide Genuine;
    forall r | r in log
      ensures FromSite(b, r)
    {
      assert FromSite(a, r);
    }
  }

  lemma UpdatedListens(w: World, sent: seq<Transmission>, a: Site, b: Site, rc: Receiver, wit: Witness)
    requires Listens(w, sent, |sent|, a, rc, wit) && b.id == a.id
    requires a.configRevision < b.configRevision && a.rfRevision <= b.rfRevision
    requires a.rfRevision == b.rfRevision ==> b.definition == a.definition.(name := b.definition.name)
    ensures Listens(w, sent, |sent|, b, rc, wit)
  {
    hide LogOk, Retains, BucketsOk, InOrder;
    UpdatedLog(sent, |sent|, a, b, wit.log);
  }

  lemma Replaced(stations: seq<Site>, i: nat, b: Site)
    requires i < |stations| && b.id == stations[i].id
    ensures forall st <- stations[i := b] :: st == b || st in stations
    ensures Ids(stations[i := b]) == Ids(stations)
    ensures DistinctIds(stations) ==> DistinctIds(stations[i := b])
  {
    forall st | st in stations[i := b]
      ensures st == b || st in stations
    {
      var k :| 0 <= k < |stations| && stations[i := b][k] == st;
      assert k != i ==> st == stations[k];
    }
    SameIds(stations, stations[i := b]);
  }

  lemma ReplacedSites(w: World, s: State, i: nat, b: Site, receivers: map<string, Receiver>, tr: Trace)
    requires SitesOk(w, s) && WitnessesOk(w, s.stations, receivers, tr) && i < |s.stations|
    requires SiteOk(w, b) && b.id == s.stations[i].id && SiteTimesOk(w, Now(w, s), b)
    requires b.id in receivers && b.id in tr.witnesses
    requires Listens(w, tr.sent, |tr.sent|, b, receivers[b.id], tr.witnesses[b.id])
    ensures SitesOk(w, s.(stations := s.stations[i := b], stationRevision := s.stationRevision + 1))
    ensures WitnessesOk(w, s.stations[i := b], receivers, tr)
  {
    hide Listens, SiteOk, Allocated, SiteTimesOk, DistinctIds, Ids;
    assert s.stations[i] in s.stations;
    Replaced(s.stations, i, b);
  }

  lemma SameIds(a: seq<Site>, b: seq<Site>)
    requires |a| == |b| && forall k :: 0 <= k < |a| ==> a[k].id == b[k].id
    ensures Ids(a) == Ids(b)
  {
    forall id
      ensures id in Ids(a) <==> id in Ids(b)
    {
      if id in Ids(a) {
        var k :| 0 <= k < |a| && a[k].id == id;
        assert b[k] in b;
      }
      if id in Ids(b) {
        var k :| 0 <= k < |b| && b[k].id == id;
        assert a[k] in a;
      }
    }
  }

  lemma UpdateKeepsInv(w: World, e: Engine, tr: Trace, expected: nat, id: string, d: Definition)
    requires WorldSound(w) && Inv(w, e, tr)
    ensures var r := UpdateStation(w, e, expected, id, d);
            r.Committed? ==> Inv(w, r.engine, tr)
  {
    hide SentOk, FleetOk, Listens, TargetOk, YoungTarget, TargetsLogged, HeardOk, WorldSound, Station.DefinitionValid,
         Station.CanonicalForm, Station.Canonical, FindStation, Allocated, DistinctIds;
    var s, r := e.state, UpdateStation(w, e, expected, id, d);
    if r.Committed? && r.engine != e {
      var i, c := FindStation(s.stations, id), Station.CanonicalForm(d);
      var a, b := s.stations[i], r.engine.state.stations[i];
      Station.CanonicalFormIsCanonical(d);
      assert a in s.stations && a.id in Ids(s.stations);
      assert b.rfRevision == a.rfRevision ==> b.definition == a.definition.(name := b.definition.name);
      UpdatedListens(w, tr.sent, a, b, e.store.receivers[a.id], tr.witnesses[a.id]);
      CoverageStays(w, a.definition, c);
      UpdatedSite(w, a, b, c);
      ReplacedSites(w, s, i, b, e.store.receivers, tr);
      StationsKeepRest(w, e, tr, r.engine.state);
      RevisionIrrelevant(w, s.(stations := s.stations[i := b], stationRevision := s.stationRevision + 1), r.engine.state);
    }
  }

  lemma CoverageStays(w: World, a: Definition, c: Definition)
    requires WorldSound(w)
    ensures a.(name := c.name) == c ==> w.coverage(a) == w.coverage(c)
  {
    var x, y := w.coverage(a), w.coverage(c);
  }

  lemma UpdatedSite(w: World, a: Site, b: Site, c: Definition)
    requires SiteOk(w, a) && Station.Canonical(c) && b.definition == c && 1 <= b.configRevision && 1 <= b.rfRevision
    requires b.coverage == w.coverage(c)
    ensures SiteOk(w, b)
  {
  }

  lemma RevisionIrrelevant(w: World, a: State, b: State)
    requires SitesOk(w, a) && b == a.(revision := b.revision)
    ensures SitesOk(w, b)
  {
  }

  lemma RemovedSites(stations: seq<Site>, i: nat)
    requires DistinctIds(stations) && i < |stations|
    ensures var rest := stations[..i] + stations[i + 1..];
            && DistinctIds(rest) && (forall st <- rest :: st in stations && st.id != stations[i].id)
            && Ids(rest) == Ids(stations) - {stations[i].id}
  {
    var rest, id := stations[..i] + stations[i + 1..], stations[i].id;
    forall k | 0 <= k < |rest|
      ensures rest[k] == (if k < i then stations[k] else stations[k + 1]) && rest[k].id != id
    {
    }
    forall x
      ensures x in Ids(rest) <==> x in Ids(stations) && x != id
    {
      if x in Ids(stations) && x != id {
        var k :| 0 <= k < |stations| && stations[k].id == x;
        assert rest[if k < i then k else k - 1] in rest;
      }
    }
  }

  lemma RemovedTargets(ts: TargetStore, witnesses: map<string, Witness>, id: string, now: int)
    requires TargetsOk(ts) && Young(ts, now) && TargetsLogged(ts, witnesses)
    ensures var next := RemoveObservations(ts, Of(id));
            TargetsOk(next) && Young(next, now) && TargetsLogged(next, witnesses - {id}) && next.evictions == ts.evictions
  {
    hide TargetOk, Drop;
    var next := RemoveObservations(ts, Of(id));
    RemovalKeepsTargets(ts, Of(id));
    forall m | m in next.targets
      ensures YoungTarget(next.targets[m], now)
      ensures forall r <- next.targets[m].observations :: Logged(witnesses - {id}, r)
    {
      DropMembers(ts.targets[m].observations, Of(id));
      assert YoungTarget(ts.targets[m], now);
    }
  }

  function TraceRemoved(tr: Trace, id: string): Trace {
    tr.(witnesses := tr.witnesses - {id})
  }

  lemma RemoveKeepsInv(w: World, e: Engine, tr: Trace, expected: nat, id: string)
    requires Inv(w, e, tr)
    ensures var r := RemoveStation(e, expected, id);
            r.Committed? ==> Inv(w, r.engine, TraceRemoved(tr, id))
  {
    hide SentOk, FleetOk, Listens, TargetsOk, Young, TargetsLogged, HeardOk, FindStation, Allocated, DistinctIds, SiteOk,
         SiteTimesOk, RemoveObservations, Ids;
    var s, r := e.state, RemoveStation(e, expected, id);
    if r.Committed? {
      var i := FindStation(s.stations, id);
      RemovedSites(s.stations, i);
      RemovedTargets(e.store.targets, tr.witnesses, id, Now(w, s));
      StationsKeepRest(w, e, tr, r.engine.state);
      RemovedWitnesses(w, s.stations, i, e.store.receivers, tr);
    }
  }

  lemma RemovedWitnesses(w: World, stations: seq<Site>, i: nat, receivers: map<string, Receiver>, tr: Trace)
    requires WitnessesOk(w, stations, receivers, tr) && DistinctIds(stations) && i < |stations|
    ensures WitnessesOk(w, stations[..i] + stations[i + 1..], receivers - {stations[i].id},
                        TraceRemoved(tr, stations[i].id))
  {
    hide Listens, DistinctIds;
    RemovedSites(stations, i);
    var rest, id := stations[..i] + stations[i + 1..], stations[i].id;
    assert (receivers - {id}).Keys == receivers.Keys - {id};
    assert (tr.witnesses - {id}).Keys == tr.witnesses.Keys - {id};
    forall st | st in rest
      ensures st.id in receivers && st.id != id
    {
      assert st.id in Ids(stations);
    }
  }

  // ----- Runs -----

  /** The unbounded record after a command. */
  ghost function TraceAfter(w: World, e: Engine, tr: Trace, c: Command): Trace
    requires Ready(e) && e.store.receivers.Keys == tr.witnesses.Keys == Ids(e.state.stations)
  {
    match Execute(w, e, c)
    case Failed(_) => tr
    case Committed(next, sent) =>
      match c
      case SetCountTo(_) => TraceSent(w, e, tr, sent)
      case AdvanceBy(_, _) => TraceSent(w, e, tr, sent)
      case ElapseBy(_, _) => TraceSent(w, e, tr, sent)
      case SetSpeedTo(_) => tr
      case Add(_, _) => TraceAdded(e, tr)
      case Update(_, _, _) => tr
      case Remove(_, id) => TraceRemoved(tr, id)
  }

  /** Every command, failed or not, keeps the invariant. */
  lemma CommandKeepsInv(w: World, e: Engine, tr: Trace, c: Command)
    requires WorldSound(w) && Inv(w, e, tr)
    ensures Ready(e) && e.store.receivers.Keys == tr.witnesses.Keys == Ids(e.state.stations)
    ensures Inv(w, After(w, e, c), TraceAfter(w, e, tr, c))
  {
    hide Inv, WorldSound, SetCount, Elapse, AdvanceFrom, AddStation, UpdateStation, RemoveStation, TraceSent, TraceAdded,
         TraceRemoved, NormalizeSpeed;
    InvReady(w, e, tr);
    InvKeys(w, e, tr);
    match c
    case SetCountTo(count) => SetCountKeepsInv(w, e, tr, count);
    case AdvanceBy(delta, budget) =>
      InvClock(w, e, tr);
      if delta >= 0 {
        AdvanceKeepsInv(w, e, tr, e.state, delta, budget);
      }
    case ElapseBy(delta, budget) => ElapseKeepsInv(w, e, tr, delta, budget);
    case SetSpeedTo(speed) =>
      SpeedInRange(speed);
      if NormalizeSpeed(speed).Some? {
        SpeedKeepsInv(w, e, tr, NormalizeSpeed(speed).value, e.state.revision + 1);
      }
    case Add(expected, d) => AddKeepsInv(w, e, tr, expected, d);
    case Update(expected, id, d) => UpdateKeepsInv(w, e, tr, expected, id, d);
    case Remove(expected, id) => RemoveKeepsInv(w, e, tr, expected, id);
  }

  lemma InvKeys(w: World, e: Engine, tr: Trace)
    requires Inv(w, e, tr)
    ensures e.store.receivers.Keys == tr.witnesses.Keys == Ids(e.state.stations)
  {
  }

  lemma {:induction false} NewSitesOk(w: World, definitions: seq<Definition>)
    requires WorldSound(w) && forall d <- definitions :: Station.DefinitionValid(d)
    ensures forall i :: 0 <= i < |definitions| ==>
              var st := NewSites(w, definitions)[i];
              st.id == StationId(i + 1) && SiteOk(w, st) && st.createdAt == st.rfUpdatedAt == w.start
  {
    if definitions != [] {
      hide Station.DefinitionValid, Station.CanonicalForm, WorldSound, StationId;
      var n := |definitions| - 1;
      assert definitions[n] in definitions;
      NewSitesOk(w, definitions[..n]);
      Station.CanonicalFormIsCanonical(definitions[n]);
    }
  }

  lemma BlankSites(w: World, source: nat, speed: int, definitions: seq<Definition>)
    requires WorldSound(w) && |definitions| <= MAX_STATIONS && forall d <- definitions :: Station.DefinitionValid(d)
    ensures SitesOk(w, Blank(w, source, speed, definitions).state)
  {
    hide SiteOk, StationId, NewSites, Station.DefinitionValid, WorldSound;
    NewSitesOk(w, definitions);
    var stations := NewSites(w, definitions);
    forall i, j | 0 <= i < j < |stations|
      ensures stations[i].id != stations[j].id
    {
      if StationId(i + 1) == StationId(j + 1) {
        StationIdInjective(i + 1, j + 1);
      }
    }
    forall st | st in stations
      ensures SiteOk(w, st) && Allocated(st.id, |stations|) && SiteTimesOk(w, w.start, st)
    {
      var i :| 0 <= i < |stations| && stations[i] == st;
    }
  }

  function BlankTrace(w: World, definitions: seq<Definition>): Trace {
    Trace([], [], map st <- NewSites(w, definitions) :: st.id := Witness([], []))
  }

  lemma BlankInv(w: World, source: nat, speed: int, definitions: seq<Definition>)
    requires WorldSound(w) && 0 <= speed <= MAX_SPEED
    requires |definitions| <= MAX_STATIONS && forall d <- definitions :: Station.DefinitionValid(d)
    ensures Inv(w, Blank(w, source, speed, definitions), BlankTrace(w, definitions))
  {
    hide Listens, SitesOk, NewSites, Station.DefinitionValid;
    var e, tr := Blank(w, source, speed, definitions), BlankTrace(w, definitions);
    BlankSites(w, source, speed, definitions);
    assert SentOk(w, []);
    forall st | st in e.state.stations
      ensures Listens(w, tr.sent, |tr.sent|, st, e.store.receivers[st.id], tr.witnesses[st.id])
    {
      NewStationListens(w, [], st);
    }
    assert e.store.receivers.Keys == Ids(e.state.stations) == tr.witnesses.Keys;
  }

  /** New starts every run with the invariant. */
  ghost function NewTrace(w: World, source: nat, count: int, speed: real, definitions: seq<Definition>): Trace
    requires New(w, source, count, speed, definitions).Committed?
  {
    var blank := Blank(w, source, NormalizeSpeed(speed).value, definitions);
    var tr := BlankTrace(w, definitions);
    if Ready(blank) && blank.store.receivers.Keys == tr.witnesses.Keys == Ids(blank.state.stations)
    then TraceSent(w, blank, tr, New(w, source, count, speed, definitions).sent)
    else tr
  }

  lemma NewInv(w: World, source: nat, count: int, speed: real, definitions: seq<Definition>)
    requires WorldSound(w) && New(w, source, count, speed, definitions).Committed?
    ensures Inv(w, New(w, source, count, speed, definitions).engine, NewTrace(w, source, count, speed, definitions))
  {
    hide Inv, WorldSound, SetCount, TraceSent, BlankTrace, Blank, Station.DefinitionValid, NormalizeSpeed, Ids;
    var h := NormalizeSpeed(speed).value;
    SpeedInRange(speed);
    BlankInv(w, source, h, definitions);
    var blank, tr := Blank(w, source, h, definitions), BlankTrace(w, definitions);
    InvReady(w, blank, tr);
    InvKeys(w, blank, tr);
    SetCountKeepsInv(w, blank, tr, count);
    var e := SetCount(w, blank, count).engine;
    InvClock(w, e, TraceSent(w, blank, tr, SetCount(w, blank, count).sent));
    SpeedKeepsInv(w, e, TraceSent(w, blank, tr, SetCount(w, blank, count).sent), e.state.speed, 1);
  }

  /** A run: the engine and its trace after a list of commands. */
  ghost function Run(w: World, e: Engine, tr: Trace, commands: seq<Command>): (r: (Engine, Trace))
    requires WorldSound(w) && Inv(w, e, tr)
    ensures Inv(w, r.0, r.1)
  {
    if commands == [] then (e, tr)
    else
      var (f, ft) := Run(w, e, tr, commands[..|commands| - 1]);
      CommandKeepsInv(w, f, ft, commands[|commands| - 1]);
      (After(w, f, commands[|commands| - 1]), TraceAfter(w, f, ft, commands[|commands| - 1]))
  }
}
