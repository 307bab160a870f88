/** The bounded target store over whole runs: which MMSIs it holds and which receptions it shows for them. */
module TargetRuns {
  import opened Basics
  import opened Model
  import opened Worlds
  import opened Engine
  import opened Emission
  import opened Receiving
  import opened Targets
  import opened Listening
  import opened Runs
  import opened Reachable
  import Station

  // ----- The latest reception of a station and MMSI -----

  function LastAt(log: seq<Reception>, id: string, mmsi: nat): Option<Reception> {
    if log == [] then None
    else
      var r := log[|log| - 1];
      if r.stationId == id && r.mmsi == mmsi then Some(r) else LastAt(log[..|log| - 1], id, mmsi)
  }

  lemma LastAtAppend(log: seq<Reception>, r: Reception, id: string, mmsi: nat)
    ensures LastAt(log + [r], id, mmsi) == if r.stationId == id && r.mmsi == mmsi then Some(r) else LastAt(log, id, mmsi)
  {
    assert (log + [r])[..|log|] == log;
  }

  lemma {:induction false} LastAtIs(log: seq<Reception>, id: string, mmsi: nat)
    ensures LastAt(log, id, mmsi).Some? ==>
              var r := LastAt(log, id, mmsi).value; r in log && r.stationId == id && r.mmsi == mmsi
  {
    if log != [] {
      LastAtIs(log[..|log| - 1], id, mmsi);
    }
  }

  /** Every stored observation is the latest reception of its station and MMSI. */
  ghost predicate Latest(ts: TargetStore, log: seq<Reception>) {
    forall m <- ts.targets :: forall r <- ts.targets[m].observations :: LastAt(log, r.stationId, m) == Some(r)
  }

  /** Unless a target was evicted, the latest reception of every configured station and MMSI is stored until it expires. */
  ghost predicate Complete(ts: TargetStore, log: seq<Reception>, ids: set<string>, now: int) {
    ts.evictions == 0 ==>
      forall id <- ids, m: nat {:trigger LastAt(log, id, m)} ::
        LastAt(log, id, m).Some? && !Matches(Aged(now), LastAt(log, id, m).value) ==>
          m in ts.targets && LastAt(log, id, m).value in ts.targets[m].observations
  }

  lemma SubsumedLatest(a: TargetStore, b: TargetStore, log: seq<Reception>)
    requires Subsumed(a.targets, b.targets) && Latest(b, log)
    ensures Latest(a, log)
  {
    hide LastAt;
  }

  lemma RecordLatest(ts: TargetStore, log: seq<Reception>, r: Reception)
    requires TargetsOk(ts) && Young(ts, r.timestamp) && r.timestamp > 0 && Latest(ts, log)
    ensures Latest(Record(ts, r), log + [r])
  {
    hide LastAt, Record, Room, TargetOk, YoungTarget;
    RecordKeepsTargets(ts, r);
    var next := Record(ts, r);
    forall m, x | m in next.targets && x in next.targets[m].observations
      ensures LastAt(log + [r], x.stationId, m) == Some(x)
    {
      LastAtAppend(log, r, x.stationId, m);
      if m == r.mmsi && x != r {
        assert x in ts.targets[m].observations;
        OneObservationEach(ts, r, x);
      }
    }
  }

  /** After recording r, no other observation of its MMSI is of the same station. */
  lemma OneObservationEach(ts: TargetStore, r: Reception, x: Reception)
    requires TargetsOk(ts) && Young(ts, r.timestamp) && r.timestamp > 0
    requires r.mmsi in Record(ts, r).targets && x in Record(ts, r).targets[r.mmsi].observations && x != r
    ensures x.stationId != r.stationId
  {
    hide Record, Room, YoungTarget, NewestTime;
    RecordKeepsTargets(ts, r);
    var t := Record(ts, r).targets[r.mmsi];
    assert TargetOk(r.mmsi, t);
    var i :| 0 <= i < |t.observations| && t.observations[i] == x;
    var j :| 0 <= j < |t.observations| && t.observations[j] == r;
    assert i < j || j < i;
  }

  lemma RecordComplete(ts: TargetStore, log: seq<Reception>, r: Reception, ids: set<string>)
    requires TargetsOk(ts) && Young(ts, r.timestamp) && r.timestamp > 0 && Complete(ts, log, ids, r.timestamp)
    ensures Complete(Record(ts, r), log + [r], ids, r.timestamp)
  {
    hide LastAt, Room, TargetOk, YoungTarget, Record, Observe;
    RecordKeepsTargets(ts, r);
    var next := Record(ts, r);
    if next.evictions == 0 {
      RecordWithoutEviction(ts, r);
      forall id, m: nat | id in ids && LastAt(log + [r], id, m).Some?
                          && !Matches(Aged(r.timestamp), LastAt(log + [r], id, m).value)
        ensures m in next.targets && LastAt(log + [r], id, m).value in next.targets[m].observations
      {
        LastAtAppend(log, r, id, m);
        LastAtIs(log, id, m);
        if m == r.mmsi && id != r.stationId {
          ObserveRetains(ts.targets[m].observations, r, LastAt(log, id, m).value);
        }
      }
    }
  }

  lemma RecordWithoutEviction(ts: TargetStore, r: Reception)
    requires Record(ts, r).evictions == 0
    ensures ts.evictions == 0 && forall m <- ts.targets :: m in Record(ts, r).targets
    ensures r.mmsi in ts.targets ==> Record(ts, r).targets[r.mmsi].observations == Observe(ts.targets[r.mmsi].observations, r)
    ensures forall m <- ts.targets :: m != r.mmsi ==> Record(ts, r).targets[m] == ts.targets[m]
  {
    hide Observe;
  }

  lemma ObserveRetains(s: seq<Reception>, r: Reception, x: Reception)
    requires x in s && x.stationId != r.stationId
    ensures x in Observe(s, r)
  {
    var i := IndexOf(s, r.stationId);
    var k :| 0 <= k < |s| && s[k] == x;
    assert i < |s| ==> i != k && Observe(s, r)[k] == x;
    assert i == |s| ==> Observe(s, r)[k] == x;
  }

  lemma ExpireComplete(ts: TargetStore, log: seq<Reception>, ids: set<string>, from: int, now: int)
    requires Complete(ts, log, ids, from) && from <= now
    ensures Complete(Expire(ts, now), log, ids, now)
  {
    hide LastAt;
    RemoveComplete(ts, log, ids, ids, from, now, Aged(now));
  }

  /** Removing observations that no longer count keeps the store complete. */
  lemma RemoveComplete(ts: TargetStore, log: seq<Reception>, ids: set<string>, rest: set<string>, from: int, now: int, m: Match)
    requires Complete(ts, log, ids, from) && from <= now && rest <= ids
    requires forall id <- rest, r: Reception :: r.stationId == id && !Matches(Aged(now), r) ==> !Matches(m, r)
    ensures Complete(RemoveObservations(ts, m), log, rest, now)
  {
    hide LastAt, Drop, Prune;
    var next := RemoveObservations(ts, m);
    forall id, k: nat | ts.evictions == 0 && id in rest && LastAt(log, id, k).Some?
                        && !Matches(Aged(now), LastAt(log, id, k).value)
      ensures k in next.targets && LastAt(log, id, k).value in next.targets[k].observations
    {
      var r := LastAt(log, id, k).value;
      LastAtIs(log, id, k);
      assert !Matches(Aged(from), r);
      DropMembers(ts.targets[k].observations, m);
      PruneObservations(ts.targets[k], m);
      assert r in Drop(ts.targets[k].observations, m);
    }
  }

  /** Recording a batch, one record at a time. */
  lemma {:induction false} RecordAllView(a: Recording, log: seq<Reception>, records: seq<Reception>, ids: set<string>, from: int)
    requires TargetsOk(a.targets) && Young(a.targets, from) && 0 <= a.expired && (a.expired == 0 || a.expired == from)
    requires TimeOrdered(records) && forall r <- records :: r.timestamp >= from && r.timestamp > 0
    requires Latest(a.targets, log) && Complete(a.targets, log, ids, from)
    ensures Latest(RecordAll(a, records).targets, log + records)
    ensures Complete(RecordAll(a, records).targets, log + records, ids, LastTime(records, from))
  {
    hide TargetsOk, Young, Record, Expire, Latest, Complete, Room;
    if records == [] {
      assert log + records == log;
    } else {
      var n := |records| - 1;
      var front, r := records[..n], records[n];
      assert log + records == log + front + [r] && r in records;
      RecordAllView(a, log, front, ids, from);
      RecordAllKeepsTargets(a, front, from);
      var b, t := RecordAll(a, front), LastTime(front, from);
      if r.timestamp > b.expired {
        ExpireKeeps(b.targets, t, r.timestamp);
        SubsumedLatest(Expire(b.targets, r.timestamp), b.targets, log + front);
        ExpireComplete(b.targets, log + front, ids, t, r.timestamp);
        RecordLatest(Expire(b.targets, r.timestamp), log + front, r);
        RecordComplete(Expire(b.targets, r.timestamp), log + front, r, ids);
      } else {
        RecordLatest(b.targets, log + front, r);
        RecordComplete(b.targets, log + front, r, ids);
      }
    }
  }

  // ----- Over runs -----

  /** What the target store shows, in every run. */
  ghost predicate ViewOk(w: World, e: Engine, tr: Trace) {
    && Latest(e.store.targets, tr.heard)
    && Complete(e.store.targets, tr.heard, Ids(e.state.stations), Now(w, e.state))
    && forall r <- tr.heard :: Allocated(r.stationId, e.state.lastStationId)
  }

  /** Which MMSIs the target store holds, in runs that never remove a station. */
  ghost predicate HoldsGreatest(w: World, e: Engine, tr: Trace) {
    Greatest(e.store.targets, tr.heard, Now(w, e.state))
  }

  lemma HeardInKeyOrder(w: World, sent: seq<Transmission>, heard: seq<Reception>)
    requires SentOk(w, sent) && HeardOk(sent, heard)
    ensures KeyOrdered(heard)
  {
    hide Genuine, SentOk;
    forall i, j | 0 <= i < j < |heard|
      ensures heard[i].timestamp < heard[j].timestamp
           || (heard[i].timestamp == heard[j].timestamp && heard[i].mmsi <= heard[j].mmsi)
    {
      KeysFollowEmission(w, sent, heard[i], heard[j]);
    }
  }

  /** A committed emission, seen by the target store. */
  lemma CommitView(w: World, e: Engine, tr: Trace, sent: seq<Transmission>, b: Batch, next: State)
    requires WorldSound(w) && Inv(w, e, tr) && NextOk(w, e, tr, sent, next) && Tracks(e.store, e.state.stations)
    requires ReceiveAll(w, e.state.stations, StageReceptions(e.store, e.state.stations), sent) == Some(b)
    ensures var f, ft := Commit(w, e, next, sent, b), TraceSent(w, e, tr, sent);
            && (ViewOk(w, e, tr) ==> ViewOk(w, f, ft))
            && (HoldsGreatest(w, e, tr) ==> HoldsGreatest(w, f, ft))
  {
    hide ReceiveAll, ApplyReceptions, SentOk, FleetOk, SiteOk, Listens, TargetsOk, Young, Genuine, StageReceptions,
         Logged, HearAllStations, NewRecords, HeardOk, SitesOk, Latest, Complete, Greatest, Allocated, Expire, RecordAll, Ids,
         TargetsLogged, KeyOrdered;
    CommitHears(w, e, tr, sent, b, next);
    CommitRecords(w, e, tr, sent, b, next);
    TargetsHear(w, e, b, Now(w, e.state), Now(w, next));
    CommitKeepsInv(w, e, tr, sent, b, next);
    HeardInKeyOrder(w, tr.sent + sent, tr.heard + b.records);
    var a, now, from := Recording(e.store.targets, 0), Now(w, next), Now(w, e.state);
    RecordAllKeepsTargets(a, b.records, from);
    var last := LastTime(b.records, from);
    assert b.records != [] ==> b.records[|b.records| - 1] in b.records;
    var after := RecordAll(a, b.records).targets;
    if HoldsGreatest(w, e, tr) {
      RecordAllKeepsGreatest(a, tr.heard, b.records, from);
      ExpireKeepsGreatest(after, tr.heard + b.records, last, now);
    }
    if ViewOk(w, e, tr) {
      RecordAllView(a, tr.heard, b.records, Ids(e.state.stations), from);
      ExpireKeeps(after, last, now);
      SubsumedLatest(Expire(after, now), after, tr.heard + b.records);
      ExpireComplete(after, tr.heard + b.records, Ids(e.state.stations), last, now);
      RecordsAllocated(w, e.state, b.records, e.store.receivers, tr);
    }
  }

  lemma RecordsAllocated(w: World, s: State, records: seq<Reception>, receivers: map<string, Receiver>, tr: Trace)
    requires SitesOk(w, s) && WitnessesOk(w, s.stations, receivers, tr)
    requires forall r <- records :: r.stationId in receivers
    ensures forall r <- records :: Allocated(r.stationId, s.lastStationId)
  {
    hide Listens, Allocated;
    forall r | r in records
      ensures Allocated(r.stationId, s.lastStationId)
    {
      assert r.stationId in Ids(s.stations);
    }
  }

  lemma SettleView(w: World, e: Engine, tr: Trace, out: Emitted, next: State, cancelled: bool)
    requires WorldSound(w) && Inv(w, e, tr) && Tracks(e.store, next.stations)
    requires NextOk(w, e, tr, out.sent, next)
    ensures Ready(e) && e.store.receivers.Keys == tr.witnesses.Keys == Ids(e.state.stations)
    ensures var r := Settle(w, e, out, next, cancelled);
            r.Committed? ==>
              && (ViewOk(w, e, tr) ==> ViewOk(w, r.engine, TraceSent(w, e, tr, out.sent)))
              && (HoldsGreatest(w, e, tr) ==> HoldsGreatest(w, r.engine, TraceSent(w, e, tr, out.sent)))
  {
    hide Inv, NextOk, ReceiveAll, Commit, StageReceptions, WorldSound, ViewOk, HoldsGreatest, TraceSent, Ids;
    InvReady(w, e, tr);
    InvKeys(w, e, tr);
    NextStations(w, e, tr, out.sent, next);
    var b := ReceiveAll(w, next.stations, StageReceptions(e.store, next.stations), out.sent);
    if b.Some? {
      CommitView(w, e, tr, out.sent, b.value, next);
    }
  }

  lemma AdvanceView(w: World, e: Engine, tr: Trace, next: State, delta: int, budget: nat)
    requires WorldSound(w) && Inv(w, e, tr) && next == e.state.(remainder := next.remainder)
    requires delta >= 0 && 0 <= next.remainder < SPEED_SCALE
    ensures Ready(e) && next.elapsed >= 0 && e.store.receivers.Keys == tr.witnesses.Keys == Ids(e.state.stations)
    ensures var r := AdvanceFrom(w, e, next, delta, budget);
            r.Committed? ==>
              && (ViewOk(w, e, tr) ==> ViewOk(w, r.engine, TraceSent(w, e, tr, r.sent)))
              && (HoldsGreatest(w, e, tr) ==> HoldsGreatest(w, r.engine, TraceSent(w, e, tr, r.sent)))
  {
    hide Inv, WorldSound, EmitTicks, Settle, NextOk, TraceSent, ViewOk, HoldsGreatest, Ids;
    InvReady(w, e, tr);
    InvKeys(w, e, tr);
    InvClock(w, e, tr);
    var r := AdvanceFrom(w, e, next, delta, budget);
    if r.Committed? {
      var target := next.elapsed + delta;
      var first, ticks := next.elapsed / TICK_INTERVAL + 1, target / TICK_INTERVAL - next.elapsed / TICK_INTERVAL;
      var revised := if delta > 0 then next.(revision := next.revision + 1) else next;
      var out := EmitTicks(w, Emitted(revised, [], None), first, Max(ticks, 0), budget);
      var final := out.state.(elapsed := target, stations := next.stations);
      AdvanceNext(w, e, tr, revised, target, budget);
      SettleKeepsInv(w, e, tr, out, final, budget <= Max(ticks, 1));
      SettleView(w, e, tr, out, final, budget <= Max(ticks, 1));
    }
  }

  lemma SetCountView(w: World, e: Engine, tr: Trace, count: int)
    requires WorldSound(w) && Inv(w, e, tr)
    ensures Ready(e) && e.store.receivers.Keys == tr.witnesses.Keys == Ids(e.state.stations)
    ensures var r := SetCount(w, e, count);
            r.Committed? ==>
              && (ViewOk(w, e, tr) ==> ViewOk(w, r.engine, TraceSent(w, e, tr, r.sent)))
              && (HoldsGreatest(w, e, tr) ==> HoldsGreatest(w, r.engine, TraceSent(w, e, tr, r.sent)))
  {
    hide Inv, WorldSound, EmitNew, Settle, NextOk, TraceSent, ReceiveAll, ViewOk, HoldsGreatest, Ids;
    InvReady(w, e, tr);
    InvKeys(w, e, tr);
    InvClock(w, e, tr);
    var s, r := e.state, SetCount(w, e, count);
    var added := count - |s.vessels|;
    if r.Committed? {
      var revised := s.(revision := s.revision + 1);
      if added == 0 {
        EmptyTrace(w, e, tr);
      } else if added < 0 {
        var out, final := Emitted(revised, [], None), revised.(vessels := s.vessels[..count], updatedAt := Now(w, s));
        ShrinkNext(w, e, tr, count, s.revision + 1);
        SettleKeepsInv(w, e, tr, out, final, false);
        SettleView(w, e, tr, out, final, false);
      } else {
        var out := EmitNew(w, Emitted(revised, [], None), Now(w, s), added);
        var final := out.state.(updatedAt := Now(w, s), stations := s.stations);
        GrowNext(w, e, tr, revised, added);
        SettleStop(w, e, out, final, false);
        SettleKeepsInv(w, e, tr, out, final, false);
        SettleView(w, e, tr, out, final, false);
      }
    }
  }

  lemma AddView(w: World, e: Engine, tr: Trace, expected: nat, d: Definition)
    requires WorldSound(w) && Inv(w, e, tr) && ViewOk(w, e, tr) && AddStation(w, e, expected, d).Committed?
    ensures ViewOk(w, AddStation(w, e, expected, d).engine, TraceAdded(e, tr))
  {
    hide Inv, WorldSound, Latest, LastAt, Station.DefinitionValid, Station.CanonicalForm, StationId;
    var f, id := AddStation(w, e, expected, d).engine, StationId(e.state.lastStationId + 1);
    forall r | r in tr.heard
      ensures Allocated(r.stationId, f.state.lastStationId) && r.stationId != id
    {
      var n: nat :| 1 <= n <= e.state.lastStationId && r.stationId == StationId(n);
      if r.stationId == id {
        StationIdInjective(n, e.state.lastStationId + 1);
      }
    }
    assert Ids(f.state.stations) == Ids(e.state.stations) + {id};
    forall k, m: nat | k in Ids(f.state.stations) && LastAt(tr.heard, k, m).Some?
      ensures k in Ids(e.state.stations)
    {
      LastAtIs(tr.heard, k, m);
    }
  }

  lemma UpdateView(w: World, e: Engine, tr: Trace, expected: nat, id: string, d: Definition)
    requires ViewOk(w, e, tr) && UpdateStation(w, e, expected, id, d).Committed?
    ensures ViewOk(w, UpdateStation(w, e, expected, id, d).engine, tr)
  {
    hide Latest, LastAt, Station.DefinitionValid, Station.CanonicalForm, Allocated, Complete, Ids;
    var s, f := e.state, UpdateStation(w, e, expected, id, d).engine;
    if f != e {
      SameIds(s.stations, f.state.stations);
    }
  }

  lemma RemoveView(w: World, e: Engine, tr: Trace, expected: nat, id: string)
    requires WorldSound(w) && Inv(w, e, tr) && ViewOk(w, e, tr) && RemoveStation(e, expected, id).Committed?
    ensures ViewOk(w, RemoveStation(e, expected, id).engine, TraceRemoved(tr, id))
  {
    hide Inv, WorldSound, Latest, LastAt, Allocated, RemoveObservations, Complete, Ids, SitesOk;
    var s, f := e.state, RemoveStation(e, expected, id).engine;
    var i := FindStation(s.stations, id);
    assert DistinctIds(s.stations) by {
      InvSites(w, e, tr);
    }
    RemovedSites(s.stations, i);
    RemovedIsSubsumed(e.store.targets, Of(id));
    SubsumedLatest(f.store.targets, e.store.targets, tr.heard);
    RemoveComplete(e.store.targets, tr.heard, Ids(s.stations), Ids(f.state.stations), Now(w, s), Now(w, s), Of(id));
  }

  lemma InvSites(w: World, e: Engine, tr: Trace)
    requires Inv(w, e, tr)
    ensures SitesOk(w, e.state) && DistinctIds(e.state.stations)
  {
  }

  lemma RemovedIsSubsumed(ts: TargetStore, m: Match)
    ensures Subsumed(RemoveObservations(ts, m).targets, ts.targets)
  {
    hide Drop, Prune;
    forall k | k in ts.targets
      ensures forall x <- Prune(ts.targets[k], m).observations :: x in ts.targets[k].observations
    {
      DropMembers(ts.targets[k].observations, m);
      PruneObservations(ts.targets[k], m);
    }
  }

  /** Every command keeps the view, and every command but a removal keeps the greatest targets. */
  lemma CommandKeepsView(w: World, e: Engine, tr: Trace, c: Command)
    requires WorldSound(w) && Inv(w, e, tr)
    ensures Ready(e) && e.store.receivers.Keys == tr.witnesses.Keys == Ids(e.state.stations)
    ensures ViewOk(w, e, tr) ==> ViewOk(w, After(w, e, c), TraceAfter(w, e, tr, c))
    ensures HoldsGreatest(w, e, tr) && !c.Remove? ==> HoldsGreatest(w, After(w, e, c), TraceAfter(w, e, tr, c))
  {
    hide Inv, WorldSound, SetCount, AdvanceFrom, TraceSent, NormalizeSpeed, Latest, Complete, Greatest, Allocated, Ids,
         Station.DefinitionValid, Station.CanonicalForm, RemoveObservations;
    InvReady(w, e, tr);
    InvKeys(w, e, tr);
    InvClock(w, e, tr);
    match c
    case SetCountTo(count) => SetCountView(w, e, tr, count);
    case AdvanceBy(delta, budget) =>
      if delta >= 0 {
        AdvanceView(w, e, tr, e.state, delta, budget);
      }
    case ElapseBy(delta, budget) =>
      if delta >= 0 {
        var scaled := delta * e.state.speed + e.state.remainder;
        assert delta * e.state.speed >= 0;
        AdvanceView(w, e, tr, e.state.(remainder := scaled % SPEED_SCALE), scaled / SPEED_SCALE, budget);
      }
    case SetSpeedTo(speed) =>
    case Add(expected, d) =>
      if ViewOk(w, e, tr) && AddStation(w, e, expected, d).Committed? {
        AddView(w, e, tr, expected, d);
      }
    case Update(expected, id, d) =>
      if ViewOk(w, e, tr) && UpdateStation(w, e, expected, id, d).Committed? {
        UpdateView(w, e, tr, expected, id, d);
      }
    case Remove(expected, id) =>
      if ViewOk(w, e, tr) && RemoveStation(e, expected, id).Committed? {
        RemoveView(w, e, tr, expected, id);
      }
  }

  /** In every run each stored observation is the latest of its station, and nothing current is missing unless
      a target was evicted; without removals the store holds exactly the greatest targets. */
  lemma {:induction false} RunsKeepView(w: World, e: Engine, tr: Trace, commands: seq<Command>)
    requires WorldSound(w) && Inv(w, e, tr) && ViewOk(w, e, tr) && HoldsGreatest(w, e, tr)
    ensures var (f, ft) := Run(w, e, tr, commands);
            && ViewOk(w, f, ft)
            && ((forall c <- commands :: !c.Remove?) ==> HoldsGreatest(w, f, ft))
  {
    hide Inv, WorldSound, ViewOk, HoldsGreatest, After, TraceAfter;
    if commands != [] {
      var n := |commands| - 1;
      RunsKeepView(w, e, tr, commands[..n]);
      var (f, ft) := Run(w, e, tr, commands[..n]);
      CommandKeepsView(w, f, ft, commands[n]);
    }
  }

  lemma BlankView(w: World, source: nat, speed: int, definitions: seq<Definition>)
    ensures ViewOk(w, Blank(w, source, speed, definitions), BlankTrace(w, definitions))
    ensures HoldsGreatest(w, Blank(w, source, speed, definitions), BlankTrace(w, definitions))
  {
    hide NewSites;
    assert forall m: nat :: LastOf([], m) == None;
    assert forall id, m: nat :: LastAt([], id, m) == None;
  }

  /** The theorem for whole runs from New. */
  lemma TargetStoreRefinesLog(w: World, source: nat, count: int, speed: real, definitions: seq<Definition>,
                              commands: seq<Command>)
    requires WorldSound(w) && New(w, source, count, speed, definitions).Committed?
    ensures Inv(w, New(w, source, count, speed, definitions).engine, NewTrace(w, source, count, speed, definitions))
    ensures var (e, tr) := Run(w, New(w, source, count, speed, definitions).engine,
                               NewTrace(w, source, count, speed, definitions), commands);
            && ViewOk(w, e, tr)
            && ((forall c <- commands :: !c.Remove?) ==> HoldsGreatest(w, e, tr))
  {
    hide Inv, WorldSound, ViewOk, HoldsGreatest, SetCount, Blank, BlankTrace, Run, TraceSent, NormalizeSpeed,
         Station.DefinitionValid;
    NewInv(w, source, count, speed, definitions);
    var h := NormalizeSpeed(speed).value;
    SpeedInRange(speed);
    BlankInv(w, source, h, definitions);
    BlankView(w, source, h, definitions);
    var blank, bt := Blank(w, source, h, definitions), BlankTrace(w, definitions);
    SetCountView(w, blank, bt, count);
    ViewIgnoresRevision(w, SetCount(w, blank, count).engine, NewTrace(w, source, count, speed, definitions), 1);
    RunsKeepView(w, New(w, source, count, speed, definitions).engine, NewTrace(w, source, count, speed, definitions), commands);
  }

  lemma ViewIgnoresRevision(w: World, e: Engine, tr: Trace, revision: nat)
    requires ViewOk(w, e, tr) && HoldsGreatest(w, e, tr)
    ensures ViewOk(w, e.(state := e.state.(revision := revision)), tr)
    ensures HoldsGreatest(w, e.(state := e.state.(revision := revision)), tr)
  {
    hide Latest, Complete, Greatest, Allocated;
  }
}
