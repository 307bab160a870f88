/** Revisions as version keys over whole runs: what equal state, station-set, configuration and RF revisions promise
    about two moments of one run (simulation/station.go, types.go). */
module Versions {
  import opened Basics
  import opened Model
  import opened Worlds
  import opened Engine
  import opened Emission
  import opened HistoryRing
  import opened Receiving
  import opened Targets
  import opened Listening
  import opened Runs
  import opened Reachable
  import opened TargetRuns
  import opened Split
  import Station

  // ----- The station set between an earlier and a later moment -----

  /** One station earlier and later: equal configuration revisions mean an identical station, equal RF revisions mean
      identity up to the name, with the same coverage. */
  ghost predicate SameVersions(a: Site, b: Site) {
    && a.configRevision <= b.configRevision && a.rfRevision <= b.rfRevision && a.createdAt == b.createdAt
    && (a.configRevision == b.configRevision ==> a == b)
    && (a.rfRevision == b.rfRevision ==>
          && b.definition == a.definition.(name := b.definition.name) && b.coverage == a.coverage
          && b.rfUpdatedAt == a.rfUpdatedAt)
  }

  /** From e to f: station IDs are never reused, and the set revision determines the stations. */
  ghost predicate Evolves(e: State, f: State) {
    && e.lastStationId <= f.lastStationId && e.stationRevision <= f.stationRevision
    && (e.stationRevision == f.stationRevision ==> e.stations == f.stations && e.lastStationId == f.lastStationId)
    && (forall a <- e.stations, b <- f.stations :: a.id == b.id ==> SameVersions(a, b))
    && (forall b <- f.stations :: b.id in Ids(e.stations) || !Allocated(b.id, e.lastStationId))
  }

  lemma SameVersionsTransitive(a: Site, b: Site, c: Site)
    requires SameVersions(a, b) && SameVersions(b, c)
    ensures SameVersions(a, c)
  {
  }

  /** SitesOk without its sites' own conditions. */
  ghost predicate SitesAllocated(s: State) {
    DistinctIds(s.stations) && forall st <- s.stations :: Allocated(st.id, s.lastStationId)
  }

  lemma {:induction false} AllocatedMonotone(id: string, m: nat, n: nat)
    requires m <= n
    ensures Allocated(id, m) ==> Allocated(id, n)
  {
    if Allocated(id, m) {
      var k: nat :| 1 <= k <= m && id == StationId(k);
      assert 1 <= k <= n;
    }
  }

  lemma EvolvesTransitive(e: State, f: State, g: State)
    requires SitesAllocated(e) && Evolves(e, f) && Evolves(f, g)
    ensures Evolves(e, g)
  {
    hide SameVersions, Allocated;
    forall c | c in g.stations
      ensures c.id in Ids(e.stations) || !Allocated(c.id, e.lastStationId)
      ensures forall a <- e.stations :: a.id == c.id ==> SameVersions(a, c)
    {
      if c.id in Ids(f.stations) {
        var b :| b in f.stations && b.id == c.id;
        forall a | a in e.stations && a.id == c.id
          ensures SameVersions(a, c)
        {
          SameVersionsTransitive(a, b, c);
        }
      } else {
        AllocatedMonotone(c.id, e.lastStationId, f.lastStationId);
      }
    }
  }

  lemma EvolvesStays(e: State, f: State)
    requires SitesAllocated(e) && f.stations == e.stations && f.lastStationId == e.lastStationId
    requires f.stationRevision == e.stationRevision
    ensures Evolves(e, f)
  {
    hide Allocated;
    forall a, b | a in e.stations && b in f.stations && a.id == b.id
      ensures a == b
    {
      DistinctSites(e.stations, a, b);
    }
  }

  lemma DistinctSites(stations: seq<Site>, a: Site, b: Site)
    requires DistinctIds(stations) && a in stations && b in stations && a.id == b.id
    ensures a == b
  {
    var i :| 0 <= i < |stations| && stations[i] == a;
    var j :| 0 <= j < |stations| && stations[j] == b;
    assert i < j || j < i || i == j;
  }

  lemma AddEvolves(w: World, e: Engine, expected: nat, d: Definition)
    requires SitesAllocated(e.state) && AddStation(w, e, expected, d).Committed?
    ensures Evolves(e.state, AddStation(w, e, expected, d).engine.state)
  {
    hide Station.DefinitionValid, Station.CanonicalForm, StationId;
    var s, f := e.state, AddStation(w, e, expected, d).engine.state;
    var id := StationId(s.lastStationId + 1);
    NotYetAllocated(s.lastStationId);
    forall a, b | a in s.stations && b in f.stations && a.id == b.id
      ensures a == b
    {
      assert Allocated(a.id, s.lastStationId);
      if b in s.stations {
        DistinctSites(s.stations, a, b);
      }
    }
    hide Allocated;
  }

  lemma NotYetAllocated(last: nat)
    ensures !Allocated(StationId(last + 1), last)
  {
    hide StationId;
    if n: nat :| 1 <= n <= last && StationId(last + 1) == StationId(n) {
      StationIdInjective(last + 1, n);
    }
  }

  lemma UpdateEvolves(w: World, e: Engine, tr: Trace, expected: nat, id: string, d: Definition)
    requires WorldSound(w) && Inv(w, e, tr) && UpdateStation(w, e, expected, id, d).Committed?
    ensures Evolves(e.state, UpdateStation(w, e, expected, id, d).engine.state)
  {
    hide Inv, WorldSound, Station.DefinitionValid, Station.CanonicalForm, FindStation, Allocated, SitesOk, SiteOk;
    InvAllocated(w, e, tr);
    var s, f := e.state, UpdateStation(w, e, expected, id, d).engine.state;
    if s.stationRevision == f.stationRevision {
      EvolvesStays(s, f);
    } else {
      var i := FindStation(s.stations, id);
      Replaced(s.stations, i, f.stations[i]);
      InvSites(w, e, tr);
      SiteCoverage(w, s, i);
      CoverageStays(w, s.stations[i].definition, Station.CanonicalForm(d));
      assert s.stations[i] in s.stations;
      forall a, b | a in s.stations && b in f.stations && a.id == b.id
        ensures SameVersions(a, b)
      {
        if b in s.stations {
          DistinctSites(s.stations, a, b);
        } else {
          DistinctSites(s.stations, a, s.stations[i]);
        }
      }
    }
  }

  lemma SiteCoverage(w: World, s: State, i: nat)
    requires SitesOk(w, s) && i < |s.stations|
    ensures s.stations[i].coverage == w.coverage(s.stations[i].definition)
  {
    assert SiteOk(w, s.stations[i]);
  }

  lemma InvAllocated(w: World, e: Engine, tr: Trace)
    requires Inv(w, e, tr)
    ensures SitesAllocated(e.state)
  {
    hide Allocated;
  }

  lemma RemoveEvolves(e: Engine, expected: nat, id: string)
    requires SitesAllocated(e.state) && RemoveStation(e, expected, id).Committed?
    ensures Evolves(e.state, RemoveStation(e, expected, id).engine.state)
  {
    hide Allocated, RemoveObservations, FindStation;
    var s, f := e.state, RemoveStation(e, expected, id).engine.state;
    RemovedSites(s.stations, FindStation(s.stations, id));
    forall a, b | a in s.stations && b in f.stations && a.id == b.id
      ensures a == b
    {
      DistinctSites(s.stations, a, b);
    }
  }

  /** Emissions leave the station set alone. */
  lemma EmissionKeepsSites(w: World, e: Engine, c: Command)
    requires Ready(e) && (c.SetCountTo? || c.AdvanceBy? || c.ElapseBy? || c.SetSpeedTo?)
    ensures var f := After(w, e, c).state;
            f.stations == e.state.stations && f.lastStationId == e.state.lastStationId
            && f.stationRevision == e.state.stationRevision
  {
    hide AdvanceFrom, NormalizeSpeed, EmitNew, ReceiveAll, StageReceptions, ApplyReceptions;
    match c
    case SetCountTo(count) =>
      var s := e.state.(revision := e.state.revision + 1);
      if count > |e.state.vessels| {
        NewKeepsSites(w, Emitted(s, [], None), Now(w, s), count - |e.state.vessels|);
      }
    case AdvanceBy(delta, budget) =>
      if delta >= 0 {
        AdvanceKeepsReady(w, e, e.state, delta, budget);
      }
    case ElapseBy(delta, budget) =>
      if delta >= 0 {
        assert delta * e.state.speed >= 0;
        var scaled := delta * e.state.speed + e.state.remainder;
        AdvanceKeepsReady(w, e, e.state.(remainder := scaled % SPEED_SCALE), scaled / SPEED_SCALE, budget);
      }
    case SetSpeedTo(_) =>
  }

  lemma {:induction false} NewKeepsSites(w: World, p: Emitted, now: int, k: nat)
    ensures var s := EmitNew(w, p, now, k).state;
            s.lastStationId == p.state.lastStationId && s.stationRevision == p.state.stationRevision
            && s.stations == p.state.stations
  {
    hide SpawnVessel;
    if k > 0 {
      NewKeepsSites(w, p, now, k - 1);
    }
  }

  lemma CommandEvolves(w: World, e: Engine, tr: Trace, c: Command)
    requires WorldSound(w) && Inv(w, e, tr)
    ensures Ready(e) && Evolves(e.state, After(w, e, c).state)
  {
    hide Inv, WorldSound, Evolves, SitesAllocated, SetCount, Advance, Elapse, SetSpeed, AddStation, UpdateStation,
         RemoveStation;
    InvReady(w, e, tr);
    InvAllocated(w, e, tr);
    if c.SetCountTo? || c.AdvanceBy? || c.ElapseBy? || c.SetSpeedTo? {
      EmissionKeepsSites(w, e, c);
      EvolvesStays(e.state, After(w, e, c).state);
    } else if Execute(w, e, c).Failed? {
      EvolvesStays(e.state, e.state);
    } else {
      match c
      case Add(expected, d) => AddEvolves(w, e, expected, d);
      case Update(expected, id, d) => UpdateEvolves(w, e, tr, expected, id, d);
      case Remove(expected, id) => RemoveEvolves(e, expected, id);
      case _ =>
    }
  }

  /** Between any two moments of a run, however many commands apart. */
  lemma {:induction false} RunsEvolve(w: World, e: Engine, tr: Trace, commands: seq<Command>, k: nat)
    requires WorldSound(w) && Inv(w, e, tr) && k <= |commands|
    ensures Evolves(Run(w, e, tr, commands[..k]).0.state, Run(w, e, tr, commands).0.state)
    decreases |commands|
  {
    hide Inv, WorldSound, Evolves, SitesAllocated, After, TraceAfter;
    var (a, at) := Run(w, e, tr, commands[..k]);
    InvAllocated(w, a, at);
    if k == |commands| {
      assert commands[..k] == commands;
      EvolvesStays(a.state, a.state);
    } else {
      var n := |commands| - 1;
      RunsEvolve(w, e, tr, commands[..n], k);
      assert commands[..n][..k] == commands[..k];
      var (f, ft) := Run(w, e, tr, commands[..n]);
      CommandEvolves(w, f, ft, commands[n]);
      EvolvesTransitive(a.state, f.state, After(w, f, commands[n]).state);
    }
  }

  // ----- The state revision -----

  /** Engines equal up to the part of a nanosecond carried by Elapse. */
  predicate SameMoment(a: Engine, b: Engine) {
    a == b.(state := b.state.(remainder := a.state.remainder))
  }

  lemma {:induction false} RestagedStats(receivers: map<string, Receiver>, stations: seq<Site>, stats: seq<Stats>, k: nat)
    requires k <= |stations| == |stats| && forall st <- stations :: st.id in receivers
    requires forall i :: 0 <= i < |stations| ==> stats[i] == receivers[stations[i].id].stats
    ensures SetStats(receivers, stations, stats, k) == receivers
  {
    if k > 0 {
      RestagedStats(receivers, stations, stats, k - 1);
      var id := stations[k - 1].id;
      assert receivers[id := receivers[id]] == receivers;
    }
  }

  /** Committing nothing new changes nothing. */
  lemma NothingCommitted(w: World, e: Engine, tr: Trace, next: State)
    requires Inv(w, e, tr) && next == e.state.(remainder := next.remainder) && Tracks(e.store, next.stations)
    ensures Commit(w, e, next, [], StageReceptions(e.store, next.stations)) == e.(state := next)
  {
    hide SentOk, FleetOk, SitesOk, WitnessesOk, TargetsOk, Young, TargetsLogged, HeardOk, Expire, SetStats;
    var b := StageReceptions(e.store, next.stations);
    RestagedStats(e.store.receivers, next.stations, b.stats, |next.stations|);
    ExpireYoung(e.store.targets, Now(w, e.state));
    assert Messages([]) == [] && e.messages + [] == e.messages;
  }

  lemma ZeroAdvance(w: World, e: Engine, tr: Trace, next: State, budget: nat)
    requires Inv(w, e, tr) && next == e.state.(remainder := next.remainder)
    ensures Ready(e) && next.elapsed >= 0
    ensures var r := AdvanceFrom(w, e, next, 0, budget);
            r.Committed? ==> r.engine == e.(state := next)
  {
    hide Inv, Commit, StageReceptions;
    InvReady(w, e, tr);
    NothingCommitted(w, e, tr, next);
  }

  /** A command keeps the state revision exactly if it keeps everything but the carried remainder. */
  lemma CommandRevision(w: World, e: Engine, tr: Trace, c: Command)
    requires WorldSound(w) && Inv(w, e, tr)
    ensures Ready(e)
    ensures var f := After(w, e, c);
            e.state.revision <= f.state.revision && (f.state.revision == e.state.revision <==> SameMoment(f, e))
  {
    hide Inv, WorldSound, AdvanceFrom, NormalizeSpeed, EmitNew, Settle, FindStation, Station.DefinitionValid,
         Station.CanonicalForm, RemoveObservations, StationId;
    InvReady(w, e, tr);
    match c
    case SetCountTo(count) => CountRevision(w, e, count);
    case AdvanceBy(delta, budget) =>
      if delta >= 0 {
        AdvanceKeepsReady(w, e, e.state, delta, budget);
        ZeroAdvance(w, e, tr, e.state, budget);
      }
    case ElapseBy(delta, budget) =>
      if delta >= 0 {
        assert delta * e.state.speed >= 0;
        var scaled := delta * e.state.speed + e.state.remainder;
        var next := e.state.(remainder := scaled % SPEED_SCALE);
        AdvanceKeepsReady(w, e, next, scaled / SPEED_SCALE, budget);
        ZeroAdvance(w, e, tr, next, budget);
      }
    case SetSpeedTo(_) =>
    case Add(_, _) =>
    case Update(_, _, _) =>
    case Remove(_, _) =>
  }

  lemma CountRevision(w: World, e: Engine, count: int)
    requires Ready(e)
    ensures var r := SetCount(w, e, count);
            r.Committed? ==> r.engine == e || r.engine.state.revision == e.state.revision + 1
  {
    hide ReceiveAll, StageReceptions, ApplyReceptions, EmitNew;
    var s := e.state.(revision := e.state.revision + 1);
    if count > |e.state.vessels| {
      NewKeepsRevision(w, Emitted(s, [], None), Now(w, s), count - |e.state.vessels|);
    }
  }

  /** Two moments of a run with one state revision are one state. */
  lemma {:induction false} RunsRevision(w: World, e: Engine, tr: Trace, commands: seq<Command>, k: nat)
    requires WorldSound(w) && Inv(w, e, tr) && k <= |commands|
    ensures var (a, b) := (Run(w, e, tr, commands[..k]).0, Run(w, e, tr, commands).0);
            a.state.revision <= b.state.revision && (a.state.revision == b.state.revision ==> SameMoment(b, a))
    decreases |commands|
  {
    hide Inv, WorldSound, After, TraceAfter;
    if k == |commands| {
      assert commands[..k] == commands;
    } else {
      var n := |commands| - 1;
      RunsRevision(w, e, tr, commands[..n], k);
      assert commands[..n][..k] == commands[..k];
      var (f, ft) := Run(w, e, tr, commands[..n]);
      CommandRevision(w, f, ft, commands[n]);
    }
  }

  // ----- Receptions -----

  /** Two receptions of one station: equal revisions mean equal receiver snapshots. */
  ghost predicate SameReceiver(r: Reception, s: Reception) {
    r.stationId == s.stationId && r.channel == s.channel ==>
      && (r.configRevision == s.configRevision ==> r.receiver == s.receiver)
      && (r.rfRevision == s.rfRevision ==> r.receiver.(name := "") == s.receiver.(name := ""))
  }

  /** Every reception of the run, including those of removed stations, names versions that existed. */
  ghost predicate HeardVersions(s: State, heard: seq<Reception>) {
    && (forall r <- heard :: Allocated(r.stationId, s.lastStationId))
    && (forall st <- s.stations, r <- heard :: r.stationId == st.id ==> FromSite(st, r))
    && (forall r <- heard, s <- heard :: SameReceiver(r, s))
  }

  /** A reception under the current configuration of st. */
  ghost predicate CurrentAt(st: Site, r: Reception) {
    r.stationId == st.id && r.configRevision == st.configRevision && r.rfRevision == st.rfRevision
    && r.receiver == Snapshot(st.definition, r.channel)
  }

  ghost predicate CurrentOne(stations: seq<Site>, r: Reception) {
    exists st <- stations :: CurrentAt(st, r)
  }

  lemma {:induction false} UpToIsCurrent(w: World, stations: seq<Site>, b: Batch, t: Transmission, k: nat)
    requires k <= |stations| == |b.stats| && forall r <- b.records :: CurrentOne(stations, r)
    ensures ReceiveUpTo(w, stations, b, t, k).Some? ==>
              forall r <- ReceiveUpTo(w, stations, b, t, k).value.batch.records :: CurrentOne(stations, r)
  {
    hide Count, OutcomeOf, LinkOf;
    if k > 0 {
      UpToIsCurrent(w, stations, b, t, k - 1);
      var p := ReceiveUpTo(w, stations, b, t, k - 1);
      var st := stations[k - 1];
      if p.Some? {
        var n := Count(p.value.batch.stats[k - 1], OutcomeOf(w, st, t), t.channel, SecondOf(w, t)).last + 1;
        assert CurrentAt(st, NewReception(st, n, t, LinkOf(w, st, t))) && st in stations;
      }
    }
  }

  lemma {:induction false} RecordsAreCurrent(w: World, stations: seq<Site>, b: Batch, sent: seq<Transmission>)
    requires |stations| == |b.stats| && b.records == []
    ensures ReceiveAll(w, stations, b, sent).Some? ==>
              forall r <- ReceiveAll(w, stations, b, sent).value.records :: CurrentOne(stations, r)
  {
    hide ReceiveUpTo, CurrentOne;
    if sent != [] {
      var n := |sent| - 1;
      RecordsAreCurrent(w, stations, b, sent[..n]);
      var p := ReceiveAll(w, stations, b, sent[..n]);
      if p.Some? {
        UpToIsCurrent(w, stations, p.value, sent[n], |stations|);
      }
    }
  }

  /** Receptions under current configurations agree with everything heard before. */
  lemma HearingKeepsVersions(s: State, heard: seq<Reception>, records: seq<Reception>)
    requires SitesAllocated(s) && HeardVersions(s, heard) && forall r <- records :: CurrentOne(s.stations, r)
    requires forall st <- s.stations :: 1 <= st.configRevision && 1 <= st.rfRevision
    ensures HeardVersions(s, heard + records)
  {
    hide Allocated, DistinctIds;
    forall st, r | st in s.stations && r in heard + records && r.stationId == st.id
      ensures FromSite(st, r)
    {
      if r in records {
        CurrentIsFrom(s.stations, st, r);
      }
    }
    forall r | r in records
      ensures forall x <- heard + records :: SameReceiver(r, x) && SameReceiver(x, r)
    {
      var st :| st in s.stations && CurrentAt(st, r);
      forall x | x in heard + records
        ensures SameReceiver(r, x) && SameReceiver(x, r)
      {
        assert x.stationId == st.id ==> FromSite(st, x);
      }
    }
  }

  lemma CurrentIsFrom(stations: seq<Site>, st: Site, r: Reception)
    requires DistinctIds(stations) && st in stations && CurrentOne(stations, r) && r.stationId == st.id
    requires 1 <= st.configRevision && 1 <= st.rfRevision
    ensures FromSite(st, r)
  {
    var other :| other in stations && CurrentAt(other, r);
    DistinctSites(stations, st, other);
  }

  /** Configuration changes keep what was heard before. */
  lemma EvolvingKeepsVersions(e: State, f: State, heard: seq<Reception>)
    requires HeardVersions(e, heard) && Evolves(e, f)
    ensures HeardVersions(f, heard)
  {
    forall st, r | st in f.stations && r in heard && r.stationId == st.id
      ensures FromSite(st, r)
    {
      assert st.id in Ids(e.stations);
      var a :| a in e.stations && a.id == st.id;
      assert FromSite(a, r) && SameVersions(a, st);
    }
    forall r | r in heard
      ensures Allocated(r.stationId, f.lastStationId)
    {
      AllocatedMonotone(r.stationId, e.lastStationId, f.lastStationId);
    }
  }

  lemma NewRecordsAreCurrent(w: World, e: Engine, sent: seq<Transmission>)
    requires Tracks(e.store, e.state.stations)
    ensures forall r <- NewRecords(w, e, e.state.stations, sent) :: CurrentOne(e.state.stations, r)
  {
    hide ReceiveAll, CurrentOne;
    RecordsAreCurrent(w, e.state.stations, StageReceptions(e.store, e.state.stations), sent);
  }

  lemma InvSiteRevisions(w: World, e: Engine, tr: Trace)
    requires Inv(w, e, tr)
    ensures forall st <- e.state.stations :: 1 <= st.configRevision && 1 <= st.rfRevision
  {
    hide SentOk, FleetOk, WitnessesOk, TargetsOk, Young, TargetsLogged, HeardOk;
    forall st | st in e.state.stations
      ensures 1 <= st.configRevision && 1 <= st.rfRevision
    {
      assert SiteOk(w, st);
    }
  }

  lemma CommandVersions(w: World, e: Engine, tr: Trace, c: Command)
    requires WorldSound(w) && Inv(w, e, tr) && HeardVersions(e.state, tr.heard)
    ensures Ready(e) && e.store.receivers.Keys == tr.witnesses.Keys == Ids(e.state.stations)
    ensures HeardVersions(After(w, e, c).state, TraceAfter(w, e, tr, c).heard)
  {
    hide Inv, WorldSound, Evolves, SitesAllocated, HeardVersions, Execute, NewRecords, HearAllStations, CurrentOne;
    InvReady(w, e, tr);
    InvKeys(w, e, tr);
    InvAllocated(w, e, tr);
    InvSiteRevisions(w, e, tr);
    CommandEvolves(w, e, tr, c);
    var f := After(w, e, c);
    EvolvingKeepsVersions(e.state, f.state, tr.heard);
    if (c.SetCountTo? || c.AdvanceBy? || c.ElapseBy?) && Execute(w, e, c).Committed? {
      var sent := Execute(w, e, c).sent;
      EmissionKeepsSites(w, e, c);
      NewRecordsAreCurrent(w, e, sent);
      HearingKeepsVersions(e.state, tr.heard, NewRecords(w, e, e.state.stations, sent));
      SameVersionsHeard(e.state, f.state, tr.heard + NewRecords(w, e, e.state.stations, sent));
    }
  }

  lemma SameVersionsHeard(a: State, b: State, heard: seq<Reception>)
    requires HeardVersions(a, heard) && b.stations == a.stations && b.lastStationId == a.lastStationId
    ensures HeardVersions(b, heard)
  {
    hide Allocated, FromSite, SameReceiver;
  }

  lemma {:induction false} RunsKeepVersions(w: World, e: Engine, tr: Trace, commands: seq<Command>)
    requires WorldSound(w) && Inv(w, e, tr) && HeardVersions(e.state, tr.heard)
    ensures HeardVersions(Run(w, e, tr, commands).0.state, Run(w, e, tr, commands).1.heard)
  {
    hide Inv, WorldSound, HeardVersions, After, TraceAfter;
    if commands != [] {
      var n := |commands| - 1;
      RunsKeepVersions(w, e, tr, commands[..n]);
      var (f, ft) := Run(w, e, tr, commands[..n]);
      CommandVersions(w, f, ft, commands[n]);
    }
  }

  /** In every run from New, receptions of one station with one configuration revision carry one receiver snapshot per
      channel, and with one RF revision the same snapshot up to the name, before and after removals alike. */
  lemma ReceiversMatchRevisions(w: World, source: nat, count: int, speed: real, definitions: seq<Definition>,
                                commands: seq<Command>)
    requires WorldSound(w) && New(w, source, count, speed, definitions).Committed?
    ensures Inv(w, New(w, source, count, speed, definitions).engine, NewTrace(w, source, count, speed, definitions))
    ensures var (e, tr) := Run(w, New(w, source, count, speed, definitions).engine,
                               NewTrace(w, source, count, speed, definitions), commands);
            HeardVersions(e.state, tr.heard)
  {
    hide Inv, WorldSound, HeardVersions, SetCount, Blank, BlankTrace, Run, TraceSent, NormalizeSpeed, Station.DefinitionValid;
    NewInv(w, source, count, speed, definitions);
    var h := NormalizeSpeed(speed).value;
    SpeedInRange(speed);
    BlankInv(w, source, h, definitions);
    var blank, bt := Blank(w, source, h, definitions), BlankTrace(w, definitions);
    NothingHeard(w, source, h, definitions);
    CommandVersions(w, blank, bt, SetCountTo(count));
    RevisionKeepsVersions(w, source, count, speed, definitions);
    RunsKeepVersions(w, New(w, source, count, speed, definitions).engine, NewTrace(w, source, count, speed, definitions), commands);
  }

  lemma NothingHeard(w: World, source: nat, speed: int, definitions: seq<Definition>)
    ensures HeardVersions(Blank(w, source, speed, definitions).state, BlankTrace(w, definitions).heard)
  {
    hide NewSites;
  }

  lemma RevisionKeepsVersions(w: World, source: nat, count: int, speed: real, definitions: seq<Definition>)
    requires New(w, source, count, speed, definitions).Committed?
    requires var blank, bt := Blank(w, source, NormalizeSpeed(speed).value, definitions), BlankTrace(w, definitions);
             && Ready(blank) && blank.store.receivers.Keys == bt.witnesses.Keys == Ids(blank.state.stations)
             && HeardVersions(After(w, blank, SetCountTo(count)).state, TraceAfter(w, blank, bt, SetCountTo(count)).heard)
    ensures HeardVersions(New(w, source, count, speed, definitions).engine.state, NewTrace(w, source, count, speed, definitions).heard)
  {
    hide SetCount, Blank, BlankTrace, NormalizeSpeed, Station.DefinitionValid, Allocated, FromSite, SameReceiver, TraceSent;
  }
}
