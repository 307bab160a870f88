/** Split independence: two advances in a row equal one, up to the state revision, and no later command can tell
    the difference (simulation/simulator.go, observation.go). */
module Split {
  import opened Basics
  import opened Model
  import opened Worlds
  import opened Engine
  import opened Emission
  import opened HistoryRing
  import opened Receiving
  import opened Targets
  import opened Listening
  import opened Runs
  import opened Reachable
  import Station

  // ----- Engines equal up to the state revision -----

  predicate SameState(a: State, b: State) {
    a == b.(revision := a.revision)
  }

  predicate Same(a: Engine, b: Engine) {
    a == b.(state := b.state.(revision := a.state.revision))
  }

  ghost predicate SameReply(a: Reply, b: Reply) {
    match a
    case Failed(error) => b == Failed(error)
    case Committed(e, sent) => b.Committed? && Same(e, b.engine) && sent == b.sent
  }

  // ----- Emission does not depend on the clock or the revision -----

  /** p after reports pre, under another clock, remainder and revision. */
  function Shift(p: Emitted, pre: seq<Transmission>, s: State): Emitted {
    Emitted(p.state.(elapsed := s.elapsed, remainder := s.remainder, revision := s.revision), pre + p.sent, p.stop)
  }

  lemma EmitVesselShifts(w: World, p: Emitted, at: int, i: nat, pre: seq<Transmission>, s: State)
    requires i < |p.state.vessels|
    ensures EmitVessel(w, Shift(p, pre, s), at, i) == Shift(EmitVessel(w, p, at, i), pre, s)
  {
    var v := p.state.vessels[i];
    var e := EmitReport(w, p.state, v.(position := Move(w, v.position, at)));
    hide Move;
    if e.Some? {
      assert pre + (p.sent + [e.value.2]) == pre + p.sent + [e.value.2];
    }
  }

  lemma {:induction false} EmitVesselsShift(w: World, p: Emitted, at: int, k: nat, pre: seq<Transmission>, s: State)
    requires k <= |p.state.vessels|
    ensures EmitVessels(w, Shift(p, pre, s), at, k) == Shift(EmitVessels(w, p, at, k), pre, s)
  {
    hide EmitVessel;
    if k > 0 {
      EmitVesselsShift(w, p, at, k - 1, pre, s);
      EmitVesselShifts(w, EmitVessels(w, p, at, k - 1), at, k - 1, pre, s);
    }
  }

  lemma {:induction false} EmitTicksShift(w: World, p: Emitted, first: int, n: nat, budget: nat, pre: seq<Transmission>, s: State)
    ensures EmitTicks(w, Shift(p, pre, s), first, n, budget) == Shift(EmitTicks(w, p, first, n, budget), pre, s)
  {
    hide EmitVessels, TickAt;
    if n > 0 {
      EmitTicksShift(w, p, first, n - 1, budget, pre, s);
      var q := EmitTicks(w, p, first, n - 1, budget);
      EmitVesselsShift(w, q, TickAt(w, first + n - 1), |q.state.vessels|, pre, s);
    }
  }

  /** Uncancelled ticks compose, whatever budgets they run under. */
  lemma {:induction false} EmitTicksCompose(w: World, p: Emitted, first: int, m: nat, n: nat, x: nat, y: nat, z: nat)
    requires x >= m && y >= n && z >= m + n
    ensures EmitTicks(w, p, first, m + n, z) == EmitTicks(w, EmitTicks(w, p, first, m, x), first + m, n, y)
  {
    hide EmitTick, TickAt;
    if n > 0 {
      EmitTicksCompose(w, p, first, m, n - 1, x, y, z);
    } else if m > 0 {
      EmitTicksCompose(w, p, first, 0, m, 0, x, z);
      EmitTicksFrom(w, p, first, m, x, z);
    }
  }

  lemma {:induction false} EmitTicksFrom(w: World, p: Emitted, first: int, n: nat, x: nat, z: nat)
    requires x >= n && z >= n
    ensures EmitTicks(w, p, first, n, x) == EmitTicks(w, p, first, n, z)
  {
    hide EmitTick;
    if n > 0 {
      EmitTicksFrom(w, p, first, n - 1, x, z);
    }
  }

  /** Unless emission stops, every tick reports every vessel. */
  lemma {:induction false} TicksReportAll(w: World, p: Emitted, first: int, n: nat, budget: nat)
    requires p.stop.None?
    ensures var q := EmitTicks(w, p, first, n, budget);
            q.stop.None? ==> |q.sent| == |p.sent| + n * |p.state.vessels| && q.state.sequence == p.state.sequence + n * |p.state.vessels|
  {
    hide EmitVessels;
    if n > 0 {
      TicksReportAll(w, p, first, n - 1, budget);
      var q := EmitTicks(w, p, first, n - 1, budget);
      if q.stop.None? {
        VesselsReportAll(w, q, TickAt(w, first + n - 1), |q.state.vessels|);
        assert n * |p.state.vessels| == (n - 1) * |p.state.vessels| + |p.state.vessels|;
      }
    }
  }

  lemma {:induction false} VesselsReportAll(w: World, p: Emitted, at: int, k: nat)
    requires p.stop.None? && k <= |p.state.vessels|
    ensures var q := EmitVessels(w, p, at, k);
            q.stop.None? ==> |q.sent| == |p.sent| + k && q.state.sequence == p.state.sequence + k
  {
    hide Move;
    if k > 0 {
      VesselsReportAll(w, p, at, k - 1);
    }
  }

  // ----- Receiving composes -----

  lemma {:induction false} ReceiveAllConcat(w: World, stations: seq<Site>, b: Batch, x: seq<Transmission>, y: seq<Transmission>)
    requires |stations| == |b.stats|
    ensures var p := ReceiveAll(w, stations, b, x);
            ReceiveAll(w, stations, b, x + y) == if p.None? then None else ReceiveAll(w, stations, p.value, y)
  {
    hide Receive;
    if y == [] {
      assert x + y == x;
    } else {
      var n := |y| - 1;
      ReceiveAllConcat(w, stations, b, x, y[..n]);
      assert (x + y)[..|x + y| - 1] == x + y[..n];
    }
  }

  /** Records staged earlier do not affect later evaluation. */
  function Prepend(b: Batch, records: seq<Reception>): Batch {
    b.(records := records + b.records)
  }

  lemma ReceiveAtPrepends(w: World, st: Site, p: Partial, i: nat, t: Transmission, records: seq<Reception>)
    requires i < |p.batch.stats|
    ensures var r := ReceiveAt(w, st, p, i, t);
            ReceiveAt(w, st, Partial(Prepend(p.batch, records), p.received), i, t)
              == if r.None? then None else Some(Partial(Prepend(r.value.batch, records), r.value.received))
  {
    hide Count, NewReception, OutcomeOf, LinkOf;
    var stats := Count(p.batch.stats[i], OutcomeOf(w, st, t), t.channel, SecondOf(w, t));
    var next := NewReception(st, stats.last + 1, t, LinkOf(w, st, t));
    assert records + (p.batch.records + [next]) == records + p.batch.records + [next];
  }

  lemma {:induction false} ReceiveUpToPrepends(w: World, stations: seq<Site>, b: Batch, t: Transmission, k: nat, records: seq<Reception>)
    requires k <= |stations| == |b.stats|
    ensures var r := ReceiveUpTo(w, stations, b, t, k);
            ReceiveUpTo(w, stations, Prepend(b, records), t, k)
              == if r.None? then None else Some(Partial(Prepend(r.value.batch, records), r.value.received))
  {
    hide ReceiveAt;
    if k > 0 {
      ReceiveUpToPrepends(w, stations, b, t, k - 1, records);
      var p := ReceiveUpTo(w, stations, b, t, k - 1);
      if p.Some? {
        ReceiveAtPrepends(w, stations[k - 1], p.value, k - 1, t, records);
      }
    }
  }

  lemma {:induction false} ReceiveAllPrepends(w: World, stations: seq<Site>, b: Batch, sent: seq<Transmission>, records: seq<Reception>)
    requires |stations| == |b.stats|
    ensures var r := ReceiveAll(w, stations, b, sent);
            ReceiveAll(w, stations, Prepend(b, records), sent)
              == if r.None? then None else Some(Prepend(r.value, records))
  {
    hide ReceiveUpTo;
    if sent != [] {
      var n := |sent| - 1;
      ReceiveAllPrepends(w, stations, b, sent[..n], records);
      var p := ReceiveAll(w, stations, b, sent[..n]);
      if p.Some? {
        ReceiveUpToPrepends(w, stations, p.value, sent[n], |stations|, records);
      }
    }
  }

  // ----- Applying composes -----

  /** The receivers an applied batch leaves, station by station. */
  lemma AppliedAt(store: Store, stations: seq<Site>, b: Batch, now: int, i: nat)
    requires Tracks(store, stations) && |stations| == |b.stats| && DistinctIds(stations) && i < |stations|
    requires forall r <- b.records :: r.stationId in store.receivers
    ensures var id := stations[i].id;
            var next := ApplyReceptions(store, stations, b, now);
            && id in next.receivers && next.receivers.Keys == store.receivers.Keys
            && next.receivers[id] == PushAll(store.receivers[id].(stats := b.stats[i]), OfStation(b.records, id))
            && next.receivers[id].stats == b.stats[i]
  {
    hide ApplyRecords, OfStation, Expire, PushAll, SetStats;
    var id, counted := stations[i].id, SetStats(store.receivers, stations, b.stats, |stations|);
    SetStatsAt(store.receivers, stations, b.stats, |stations|, i);
    ApplyRecordsReceiver(Applying(counted, store.targets, 0), b.records, id);
    PushAllStats(store.receivers[id].(stats := b.stats[i]), b.stats[i], OfStation(b.records, id));
  }

  /** Staging from an applied store continues the batch it came from. */
  lemma StagedAgain(store: Store, stations: seq<Site>, b: Batch, now: int)
    requires Tracks(store, stations) && |stations| == |b.stats| && DistinctIds(stations)
    requires forall r <- b.records :: r.stationId in store.receivers
    ensures var next := ApplyReceptions(store, stations, b, now);
            Tracks(next, stations) && StageReceptions(next, stations) == b.(records := [])
  {
    hide ApplyReceptions, OfStation, PushAll;
    var next := ApplyReceptions(store, stations, b, now);
    forall i | 0 <= i < |stations|
      ensures stations[i].id in next.receivers && next.receivers[stations[i].id].stats == b.stats[i]
    {
      AppliedAt(store, stations, b, now, i);
    }
    AppliedTotals(store, stations, b, now);
    assert StageReceptions(next, stations).stats == b.stats;
  }

  lemma AppliedTotals(store: Store, stations: seq<Site>, b: Batch, now: int)
    requires Tracks(store, stations) && |stations| == |b.stats|
    ensures var next := ApplyReceptions(store, stations, b, now);
            next.receptions == b.receptions && next.receivedTransmissions == b.receivedTransmissions
  {
  }

  lemma {:induction false} PushAllLater(rc: Receiver, s: Stats, t: Stats, x: seq<Reception>, y: seq<Reception>)
    ensures PushAll(PushAll(rc.(stats := s), x).(stats := t), y) == PushAll(rc.(stats := t), x + y)
  {
    PushAllStats(rc, s, x);
    PushAllStats(rc, t, x);
    PushAllConcat(rc.(stats := t), x, y);
  }

  /** Two batches applied in turn, the first at an instant before every record of the second. */
  ghost predicate InTurn(store: Store, x: seq<Reception>, y: seq<Reception>, now: int, later: int) {
    && (forall r <- x + y :: r.stationId in store.receivers && 0 < r.timestamp)
    && TimeOrdered(x) && TimeOrdered(y)
    && (forall r <- x :: r.timestamp <= now) && (forall r <- y :: now < r.timestamp)
    && 0 <= now <= later
  }

  /** Expiring between batches makes no difference: the next record expires at its own time anyway. */
  lemma TargetsInTurn(store: Store, x: seq<Reception>, y: seq<Reception>, now: int, later: int)
    requires InTurn(store, x, y, now, later)
    ensures var once := RecordAll(Recording(store.targets, 0), x);
            Expire(RecordAll(Recording(Expire(once.targets, now), 0), y).targets, later)
              == Expire(RecordAll(Recording(store.targets, 0), x + y).targets, later)
  {
    hide Expire, Record, RecordNext;
    var once := RecordAll(Recording(store.targets, 0), x);
    RecordAllConcat(Recording(store.targets, 0), x, y);
    assert x == [] || x[|x| - 1] in x;
    ExpiredIs(Recording(store.targets, 0), x, now);
    if y == [] {
      ExpireTwice(once.targets, now, later);
    } else {
      assert y[0] in y;
      RecordAllFirst(once, y);
      RecordAllFirst(Recording(Expire(once.targets, now), 0), y);
      ExpireTwice(once.targets, now, y[0].timestamp);
      NextAfterExpiry(once, y[0], now);
    }
  }

  lemma NextAfterExpiry(once: Recording, r: Reception, now: int)
    requires 0 <= now < r.timestamp && once.expired <= now
    requires Expire(Expire(once.targets, now), r.timestamp) == Expire(once.targets, r.timestamp)
    ensures RecordNext(Recording(Expire(once.targets, now), 0), r) == RecordNext(once, r)
  {
    hide Expire, Record;
  }

  lemma {:induction false} ExpiredIs(a: Recording, records: seq<Reception>, now: int)
    requires a.expired <= now && forall r <- records :: r.timestamp <= now
    ensures RecordAll(a, records).expired <= now
  {
    hide Expire, Record;
    if records != [] {
      var n := |records| - 1;
      ExpiredIs(a, records[..n], now);
      assert records[n] in records;
    }
  }

  lemma {:induction false} RecordAllFirst(a: Recording, records: seq<Reception>)
    requires records != []
    ensures RecordAll(a, records) == RecordAll(RecordNext(a, records[0]), records[1..])
  {
    hide RecordNext;
    RecordAllConcat(a, [records[0]], records[1..]);
    assert [records[0]] + records[1..] == records;
    assert RecordAll(a, [records[0]]) == RecordNext(RecordAll(a, []), records[0]);
  }

  /** Applying in turn is applying the joined batch. */
  lemma ApplyInTurn(store: Store, stations: seq<Site>, b: Batch, c: Batch, now: int, later: int)
    requires Tracks(store, stations) && |stations| == |b.stats| == |c.stats| && DistinctIds(stations)
    requires store.receivers.Keys == Ids(stations)
    requires InTurn(store, b.records, c.records, now, later)
    ensures var mid := ApplyReceptions(store, stations, b, now);
            && Tracks(mid, stations) && mid.receivers.Keys == store.receivers.Keys
            && ApplyReceptions(mid, stations, c, later) == ApplyReceptions(store, stations, Prepend(c, b.records), later)
  {
    hide ApplyReceptions, RecordAll, TimeOrdered;
    assert forall r <- b.records :: r in b.records + c.records;
    assert forall r <- c.records :: r in b.records + c.records;
    AppliedTargets(store, stations, b, now);
    var mid := ApplyReceptions(store, stations, b, now);
    var twice, joined := ApplyReceptions(mid, stations, c, later), Prepend(c, b.records);
    var once := ApplyReceptions(store, stations, joined, later);
    AppliedTargets(mid, stations, c, later);
    AppliedTargets(store, stations, joined, later);
    TargetsInTurn(store, b.records, c.records, now, later);
    AppliedTotals(mid, stations, c, later);
    AppliedTotals(store, stations, joined, later);
    forall id | id in store.receivers
      ensures twice.receivers[id] == once.receivers[id]
    {
      assert id in Ids(stations);
      var i :| 0 <= i < |stations| && stations[i].id == id;
      AppliedAt(store, stations, b, now, i);
      AppliedAt(mid, stations, c, later, i);
      AppliedAt(store, stations, joined, later, i);
      OfStationConcat(b.records, c.records, id);
      PushAllLater(store.receivers[id], b.stats[i], c.stats[i], OfStation(b.records, id), OfStation(c.records, id));
    }
    assert twice.receivers == once.receivers;
  }

  lemma AppliedTargets(store: Store, stations: seq<Site>, b: Batch, now: int)
    requires Tracks(store, stations) && |stations| == |b.stats|
    requires forall r <- b.records :: r.stationId in store.receivers
    ensures var next := ApplyReceptions(store, stations, b, now);
            && next.receivers.Keys == store.receivers.Keys && Tracks(next, stations)
            && next.targets == Expire(RecordAll(Recording(store.targets, 0), b.records).targets, now)
  {
    hide RecordAll, ApplyRecords, Expire, SetStats;
    var counted := SetStats(store.receivers, stations, b.stats, |stations|);
    ApplyRecordsTargets(Applying(counted, store.targets, 0), b.records);
  }

  // ----- Advances -----

  /** A budget of context checks that no single advance can use up. */
  predicate Patient(budget: nat) {
    budget > MAX_ADVANCE / TICK_INTERVAL + 1
  }

  function Ticks(elapsed: int, delta: int): int {
    (elapsed + delta) / TICK_INTERVAL - elapsed / TICK_INTERVAL
  }

  /** The limits an advance checks before its first tick. */
  predicate Fits(w: World, s: State, delta: int) {
    && delta <= MAX_ADVANCE && s.elapsed <= MAX_INT64 - delta && w.start + (s.elapsed + delta) < YEAR_10000
    && Ticks(s.elapsed, delta) * |s.vessels| <= MAX_UINT64 - s.sequence
    && (delta > 0 ==> s.revision != MAX_UINT64)
  }

  function Revised(s: State, delta: int): State {
    if delta > 0 then s.(revision := s.revision + 1) else s
  }

  function Ticked(w: World, s: State, delta: int): Emitted
    requires delta >= 0 && s.elapsed >= 0
  {
    TicksNonnegative(s.elapsed, delta);
    var n := Ticks(s.elapsed, delta);
    EmitTicks(w, Emitted(Revised(s, delta), [], None), s.elapsed / TICK_INTERVAL + 1, n, n)
  }

  lemma TicksNonnegative(elapsed: int, delta: int)
    requires delta >= 0 && elapsed >= 0
    ensures 0 <= Ticks(elapsed, delta) <= delta / TICK_INTERVAL + 1
  {
    assert elapsed / TICK_INTERVAL <= (elapsed + delta) / TICK_INTERVAL;
  }

  /** What an uncancelled advance does. */
  lemma AdvanceIs(w: World, e: Engine, next: State, delta: int, budget: nat)
    requires delta >= 0 && next.elapsed >= 0 && Tracks(e.store, next.stations) && Patient(budget)
    ensures var out := Ticked(w, next, delta);
            var b := ReceiveAll(w, next.stations, StageReceptions(e.store, next.stations), out.sent);
            var r := AdvanceFrom(w, e, next, delta, budget);
            && (r.Committed? <==> Fits(w, next, delta) && out.stop.None? && b.Some?)
            && (r.Committed? ==>
                  && r.sent == out.sent
                  && r.engine == Commit(w, e, out.state.(elapsed := next.elapsed + delta, stations := next.stations), out.sent, b.value))
  {
    hide EmitTicks, ReceiveAll, Commit, StageReceptions;
    TicksNonnegative(next.elapsed, delta);
    var n := Ticks(next.elapsed, delta);
    if Fits(w, next, delta) {
      assert n <= MAX_ADVANCE / TICK_INTERVAL + 1;
      EmitTicksFrom(w, Emitted(Revised(next, delta), [], None), next.elapsed / TICK_INTERVAL + 1, n, n, budget);
    }
  }

  /** The state between the two halves of an advance. */
  function Halfway(w: World, s: State, a: int, remainder: int): State
    requires a >= 0 && s.elapsed >= 0
  {
    Ticked(w, s, a).state.(elapsed := s.elapsed + a, stations := s.stations, remainder := remainder)
  }

  lemma TicksSplit(elapsed: int, a: int, b: int)
    requires elapsed >= 0 && a >= 0 && b >= 0
    ensures Ticks(elapsed, a + b) == Ticks(elapsed, a) + Ticks(elapsed + a, b)
    ensures (elapsed + a) / TICK_INTERVAL + 1 == elapsed / TICK_INTERVAL + 1 + Ticks(elapsed, a)
  {
  }

  /** What ticks do not touch. */
  predicate SamePace(a: State, b: State) {
    && a.stations == b.stations && a.stationRevision == b.stationRevision && a.lastStationId == b.lastStationId
    && a.elapsed == b.elapsed && a.remainder == b.remainder && a.speed == b.speed && a.revision == b.revision
  }

  lemma {:induction false} TicksKeepStations(w: World, p: Emitted, first: int, n: nat, budget: nat)
    ensures SamePace(EmitTicks(w, p, first, n, budget).state, p.state)
  {
    hide EmitVessels, TickAt;
    if n > 0 {
      TicksKeepStations(w, p, first, n - 1, budget);
      var q := EmitTicks(w, p, first, n - 1, budget);
      VesselsKeepStations(w, q, TickAt(w, first + n - 1), |q.state.vessels|);
    }
  }

  lemma {:induction false} VesselsKeepStations(w: World, p: Emitted, at: int, k: nat)
    requires k <= |p.state.vessels|
    ensures SamePace(EmitVessels(w, p, at, k).state, p.state)
  {
    hide Move;
    if k > 0 {
      VesselsKeepStations(w, p, at, k - 1);
    }
  }

  /** Two emissions in a row are one, up to clock, remainder and revision. */
  lemma TickedInTurn(w: World, s: State, a: int, b: int, x: int, y: int)
    requires a >= 0 && b >= 0 && s.elapsed >= 0
    ensures var one := Ticked(w, s.(remainder := x), a);
            var two := Ticked(w, Halfway(w, s.(remainder := x), a, y), b);
            var all := Ticked(w, s.(remainder := y), a + b);
            && all.stop.None? == (one.stop.None? && two.stop.None?)
            && (one.stop.None? ==>
                  all.sent == one.sent + two.sent
                  && SameState(all.state.(elapsed := 0), two.state.(elapsed := 0)))
  {
    hide EmitTicks, Ticks;
    var m, n := Ticks(s.elapsed, a), Ticks(s.elapsed + a, b);
    var first := s.elapsed / TICK_INTERVAL + 1;
    TicksNonnegative(s.elapsed, a);
    TicksNonnegative(s.elapsed + a, b);
    TicksSplit(s.elapsed, a, b);
    var p := Emitted(Revised(s.(remainder := y), a + b), [], None);
    var one := Ticked(w, s.(remainder := x), a);
    var base := Emitted(Revised(s.(remainder := x), a), [], None);
    EmitTicksCompose(w, p, first, m, n, m, n, m + n);
    EmitTicksShift(w, base, first, m, m, [], p.state);
    TicksKeepStations(w, base, first, m, m);
    TicksKeepStations(w, p, first, m, m);
    assert p == Shift(base, [], p.state);
    assert [] + one.sent == one.sent;
    var mid := EmitTicks(w, p, first, m, m);
    assert mid == Shift(one, [], p.state);
    if one.stop.None? {
      var half := Revised(Halfway(w, s.(remainder := x), a, y), b);
      EmitTicksShift(w, Emitted(half, [], None), first + m, n, n, one.sent, p.state);
      assert one.sent + [] == one.sent;
      assert mid == Shift(Emitted(half, [], None), one.sent, p.state);
      TicksKeepStations(w, Emitted(half, [], None), first + m, n, n);
    } else {
      StoppedStays(w, mid, first + m, n, n);
    }
  }

  lemma {:induction false} StoppedStays(w: World, p: Emitted, first: int, n: nat, budget: nat)
    requires p.stop.Some?
    ensures EmitTicks(w, p, first, n, budget) == p
  {
    if n > 0 {
      StoppedStays(w, p, first, n - 1, budget);
    }
  }

  lemma HalfwayIs(w: World, s: State, a: int, remainder: int)
    requires a >= 0 && s.elapsed >= 0 && Ticked(w, s, a).stop.None?
    ensures var half := Halfway(w, s, a, remainder);
            && half.elapsed == s.elapsed + a && |half.vessels| == |s.vessels| && half.stations == s.stations
            && half.sequence == s.sequence + Ticks(s.elapsed, a) * |s.vessels| && half.revision == Revised(s, a).revision
            && half.remainder == remainder && half.speed == s.speed
  {
    hide EmitTicks;
    var m := Ticks(s.elapsed, a);
    TicksNonnegative(s.elapsed, a);
    var base := Emitted(Revised(s, a), [], None);
    TicksReportAll(w, base, s.elapsed / TICK_INTERVAL + 1, m, m);
    TicksKeepStations(w, base, s.elapsed / TICK_INTERVAL + 1, m, m);
  }

  lemma ReserveInTurn(room: int, m: nat, n: nat, k: nat)
    ensures (m + n) * k <= room <==> m * k <= room && n * k <= room - m * k
  {
    assert (m + n) * k == m * k + n * k && 0 <= m * k && 0 <= n * k;
  }

  lemma FitsInTurn(w: World, s: State, a: int, b: int, x: int, y: int)
    requires a >= 0 && b >= 0 && s.elapsed >= 0 && s.revision + 2 <= MAX_UINT64
    requires a + b <= MAX_ADVANCE && Ticked(w, s.(remainder := x), a).stop.None?
    ensures var half := Halfway(w, s.(remainder := x), a, y);
            Fits(w, s.(remainder := y), a + b) <==> Fits(w, s.(remainder := x), a) && Fits(w, half, b)
  {
    HalfwayIs(w, s.(remainder := x), a, y);
    hide Halfway, Ticks, Ticked;
    TicksNonnegative(s.elapsed, a);
    TicksNonnegative(s.elapsed + a, b);
    TicksSplit(s.elapsed, a, b);
    ReserveInTurn(MAX_UINT64 - s.sequence, Ticks(s.elapsed, a), Ticks(s.elapsed + a, b), |s.vessels|);
  }

  /** The reply of a second advance after a committed first one. */
  ghost function Then(first: Reply, second: Reply): Reply {
    match first
    case Failed(_) => first
    case Committed(_, sent) =>
      match second
      case Failed(_) => second
      case Committed(e, more) => Committed(e, sent + more)
  }

  /** Both fail, or both commit the same reports and engines equal up to revision. */
  ghost predicate Agree(a: Reply, b: Reply) {
    (a.Failed? && b.Failed?) || (a.Committed? && b.Committed? && a.sent == b.sent && Same(a.engine, b.engine))
  }

  lemma {:induction false} VesselsReportAt(w: World, p: Emitted, at: int, k: nat, from: int)
    requires k <= |p.state.vessels| && from <= at && forall t <- p.sent :: from <= t.message.timestamp
    ensures forall t <- EmitVessels(w, p, at, k).sent :: from <= t.message.timestamp
  {
    if k > 0 {
      VesselsReportAt(w, p, at, k - 1, from);
    }
  }

  /** Every report of an advance is after the instant it started from. */
  lemma {:induction false} TicksReportAt(w: World, p: Emitted, first: int, n: nat, budget: nat)
    requires p.sent == []
    ensures forall t <- EmitTicks(w, p, first, n, budget).sent :: TickAt(w, first) <= t.message.timestamp
  {
    hide EmitVessels;
    if n > 0 {
      TicksReportAt(w, p, first, n - 1, budget);
      var q := EmitTicks(w, p, first, n - 1, budget);
      VesselsReportAt(w, q, TickAt(w, first + n - 1), |q.state.vessels|, TickAt(w, first));
    }
  }

  lemma TickedLater(w: World, s: State, delta: int)
    requires delta >= 0 && s.elapsed >= 0
    ensures forall t <- Ticked(w, s, delta).sent :: Now(w, s) < t.message.timestamp
  {
    hide EmitTicks;
    TicksNonnegative(s.elapsed, delta);
    var n, first := Ticks(s.elapsed, delta), s.elapsed / TICK_INTERVAL + 1;
    TicksReportAt(w, Emitted(Revised(s, delta), [], None), first, n, n);
    TickBounds(s.elapsed, s.elapsed + delta);
    assert Now(w, s) < TickAt(w, first);
  }

  /** A report received in a batch is one of the reports sent. */
  lemma BatchOfSent(w: World, sent: seq<Transmission>, more: seq<Transmission>, r: Reception)
    requires Genuine(sent + more, r) && |sent| < r.transmission
    ensures exists t :: t in more && t.message.timestamp == r.timestamp
  {
    assert (sent + more)[r.transmission - 1] == more[r.transmission - 1 - |sent|];
    assert more[r.transmission - 1 - |sent|] in more;
  }

  /** The records of a committed half lie between its instants. */
  lemma HalfRecords(w: World, e: Engine, tr: Trace, next: State, delta: int, b: Batch)
    requires WorldSound(w) && Inv(w, e, tr) && next == e.state.(remainder := next.remainder) && 0 <= next.remainder < SPEED_SCALE
    requires delta >= 0 && Fits(w, next, delta) && next.elapsed >= 0
    requires Tracks(e.store, next.stations)
    requires ReceiveAll(w, next.stations, StageReceptions(e.store, next.stations), Ticked(w, next, delta).sent) == Some(b)
    ensures forall r <- b.records :: r.stationId in e.store.receivers && 0 < r.timestamp
    ensures forall r <- b.records :: Now(w, e.state) < r.timestamp <= Now(w, e.state) + delta
    ensures TimeOrdered(b.records)
    ensures e.store.receivers.Keys == Ids(next.stations) && DistinctIds(next.stations)
  {
    hide Inv, WorldSound, ReceiveAll, StageReceptions, EmitTicks, NextOk, TraceSent, ApplyReceptions, WitnessesOk, Logged,
         HeardOk, Genuine;
    InvClock(w, e, tr);
    InvKeys(w, e, tr);
    InvDistinct(w, e, tr);
    TicksNonnegative(next.elapsed, delta);
    var n := Ticks(next.elapsed, delta);
    AdvanceNext(w, e, tr, Revised(next, delta), next.elapsed + delta, n);
    var out := Ticked(w, next, delta);
    var after := out.state.(elapsed := next.elapsed + delta, stations := next.stations);
    CommitHears(w, e, tr, out.sent, b, after);
    CommitRecords(w, e, tr, out.sent, b, after);
    TickedLater(w, next, delta);
    forall r | r in b.records
      ensures Now(w, e.state) < r.timestamp
    {
      BatchOfSent(w, tr.sent, out.sent, r);
    }
  }

  lemma InvDistinct(w: World, e: Engine, tr: Trace)
    requires Inv(w, e, tr)
    ensures DistinctIds(e.state.stations)
  {
  }

  /** The engine an uncancelled advance commits. */
  ghost function Advanced(w: World, e: Engine, next: State, delta: int, b: Batch): Engine
    requires delta >= 0 && next.elapsed >= 0 && Tracks(e.store, next.stations) && |b.stats| == |next.stations|
  {
    Commit(w, e, Halfway(w, next, delta, next.remainder), Ticked(w, next, delta).sent, b)
  }

  /** Two committed halves leave the engine of the whole. */
  lemma CommitsInTurn(w: World, e: Engine, s: State, a: int, b: int, x: int, y: int, p: Batch, q: Batch)
    requires a >= 0 && b >= 0 && s == e.state && s.elapsed >= 0 && 0 <= w.start
    requires Tracks(e.store, s.stations) && |p.stats| == |q.stats| == |s.stations| && DistinctIds(s.stations)
    requires e.store.receivers.Keys == Ids(s.stations)
    requires Ticked(w, s.(remainder := x), a).stop.None?
    requires InTurn(e.store, p.records, q.records, Now(w, s) + a, Now(w, s) + a + b)
    ensures var mid := Advanced(w, e, s.(remainder := x), a, p);
            && Tracks(mid.store, s.stations) && mid.state.elapsed == s.elapsed + a && mid.state.stations == s.stations
            && Same(Advanced(w, e, s.(remainder := y), a + b, Prepend(q, p.records)),
                    Advanced(w, mid, mid.state.(remainder := y), b, q))
  {
    hide ApplyReceptions, InTurn, Ticked, Newest, DistinctIds, Ids;
    HalfwayIs(w, s.(remainder := x), a, x);
    TickedInTurn(w, s, a, b, x, y);
    ApplyInTurn(e.store, s.stations, p, q, Now(w, s) + a, Now(w, s) + a + b);
    var one, two := Ticked(w, s.(remainder := x), a).sent, Ticked(w, Halfway(w, s.(remainder := x), a, y), b).sent;
    MessagesConcat(one, two);
    NewestTwice(MESSAGE_LIMIT, e.messages + Messages(one), Messages(two));
    assert e.messages + Messages(one) + Messages(two) == e.messages + (Messages(one) + Messages(two));
    assert Halfway(w, s.(remainder := x), a, x).(remainder := y) == Halfway(w, s.(remainder := x), a, y);
  }

  /** The batch of the whole is the batches of the halves, joined. */
  lemma ReceivedInTurn(w: World, store: Store, stations: seq<Site>, one: seq<Transmission>, two: seq<Transmission>, now: int)
    requires Tracks(store, stations) && DistinctIds(stations)
    requires var p := ReceiveAll(w, stations, StageReceptions(store, stations), one);
             p.Some? ==> forall r <- p.value.records :: r.stationId in store.receivers
    ensures var p := ReceiveAll(w, stations, StageReceptions(store, stations), one);
            var all := ReceiveAll(w, stations, StageReceptions(store, stations), one + two);
            && (p.None? ==> all.None?)
            && (p.Some? ==>
                  var mid := ApplyReceptions(store, stations, p.value, now);
                  && Tracks(mid, stations)
                  && var q := ReceiveAll(w, stations, StageReceptions(mid, stations), two);
                     all == if q.None? then None else Some(Prepend(q.value, p.value.records)))
  {
    hide ReceiveAll, ApplyReceptions, StageReceptions, DistinctIds;
    var staged := StageReceptions(store, stations);
    ReceiveAllConcat(w, stations, staged, one, two);
    var p := ReceiveAll(w, stations, staged, one);
    if p.Some? {
      StagedAgain(store, stations, p.value, now);
      ReceiveAllPrepends(w, stations, p.value.(records := []), two, p.value.records);
      assert Prepend(p.value.(records := []), p.value.records) == p.value;
    }
  }

  /** AdvanceFrom in turn: the engine behind both Advance and Elapse. */
  lemma AdvanceFromSplits(w: World, e: Engine, tr: Trace, x: int, y: int, a: int, b: int, k: nat, l: nat, n: nat)
    requires WorldSound(w) && Inv(w, e, tr) && e.state.revision + 2 <= MAX_UINT64
    requires 0 <= x < SPEED_SCALE && 0 <= y < SPEED_SCALE && a >= 0 && b >= 0 && a + b <= MAX_ADVANCE
    requires Patient(k) && Patient(l) && Patient(n)
    ensures Ready(e)
    ensures var first := AdvanceFrom(w, e, e.state.(remainder := x), a, k);
            && (first.Committed? ==> Ready(first.engine) && Inv(w, first.engine, TraceSent(w, e, tr, first.sent)))
            && Agree(AdvanceFrom(w, e, e.state.(remainder := y), a + b, n),
                     if first.Failed? then first
                     else Then(first, AdvanceFrom(w, first.engine, first.engine.state.(remainder := y), b, l)))
  {
    hide Inv, WorldSound, AdvanceFrom, ReceiveAll, TraceSent, Ticked, Fits, Commit, StageReceptions, Halfway, DistinctIds,
         TimeOrdered, Ids;
    var s := e.state;
    InvReady(w, e, tr);
    InvClock(w, e, tr);
    InvKeys(w, e, tr);
    InvDistinct(w, e, tr);
    var sx, sy := s.(remainder := x), s.(remainder := y);
    AdvanceKeepsInv(w, e, tr, sx, a, k);
    AdvanceIs(w, e, sx, a, k);
    AdvanceIs(w, e, sy, a + b, n);
    TickedInTurn(w, s, a, b, x, y);
    var out := Ticked(w, sx, a);
    if Fits(w, sx, a) && out.stop.None? {
      FirstCommits(w, e, tr, x, y, a, b, k, l, n);
    } else if out.stop.None? {
      FitsInTurn(w, s, a, b, x, y);
    }
  }

  /** The case of a first half that emits everything. */
  lemma FirstCommits(w: World, e: Engine, tr: Trace, x: int, y: int, a: int, b: int, k: nat, l: nat, n: nat)
    requires WorldSound(w) && Inv(w, e, tr) && e.state.revision + 2 <= MAX_UINT64
    requires 0 <= x < SPEED_SCALE && 0 <= y < SPEED_SCALE && a >= 0 && b >= 0 && a + b <= MAX_ADVANCE
    requires Patient(k) && Patient(l) && Patient(n) && e.state.elapsed >= 0
    requires Fits(w, e.state.(remainder := x), a) && Ticked(w, e.state.(remainder := x), a).stop.None?
    ensures Ready(e)
    ensures var first := AdvanceFrom(w, e, e.state.(remainder := x), a, k);
            && (first.Committed? ==> Ready(first.engine))
            && Agree(AdvanceFrom(w, e, e.state.(remainder := y), a + b, n),
                     if first.Failed? then first
                     else Then(first, AdvanceFrom(w, first.engine, first.engine.state.(remainder := y), b, l)))
  {
    hide Inv, WorldSound, AdvanceFrom, ReceiveAll, TraceSent, Ticked, Fits, ApplyReceptions, StageReceptions, Halfway, DistinctIds,
         TimeOrdered, Ids;
    var s := e.state;
    InvReady(w, e, tr);
    InvClock(w, e, tr);
    InvDistinct(w, e, tr);
    var sx, sy, first := s.(remainder := x), s.(remainder := y), AdvanceFrom(w, e, s.(remainder := x), a, k);
    AdvanceKeepsInv(w, e, tr, sx, a, k);
    AdvanceIs(w, e, sx, a, k);
    AdvanceIs(w, e, sy, a + b, n);
    TickedInTurn(w, s, a, b, x, y);
    HalfwayIs(w, sx, a, x);
    HalfwayRemainder(w, sx, a, y);
    HalfwayRemainder(w, sy, a + b, y);
    InvKeys(w, e, tr);
    FitsInTurn(w, s, a, b, x, y);
    var one, two := Ticked(w, sx, a).sent, Ticked(w, Halfway(w, sx, a, y), b).sent;
    var p := ReceiveAll(w, s.stations, StageReceptions(e.store, s.stations), one);
    if p.Some? {
      HalfRecords(w, e, tr, sx, a, p.value);
    }
    ReceivedInTurn(w, e.store, s.stations, one, two, Now(w, s) + a);
    if first.Committed? {
      var mid := first.engine;
      InvReady(w, mid, TraceSent(w, e, tr, one));
      assert mid == Advanced(w, e, sx, a, p.value);
      assert mid.state.(remainder := y) == Halfway(w, sx, a, y);
      AdvanceIs(w, mid, mid.state.(remainder := y), b, l);
      HalfwayRemainder(w, mid.state.(remainder := y), b, y);
      SecondCommits(w, e, tr, mid, x, y, a, b, p.value);
    }
  }

  lemma HalfwayRemainder(w: World, s: State, a: int, y: int)
    requires a >= 0 && s.elapsed >= 0
    ensures Halfway(w, s, a, s.remainder).(remainder := y) == Halfway(w, s, a, y)
    ensures Halfway(w, s, a, s.remainder) == Ticked(w, s, a).state.(elapsed := s.elapsed + a, stations := s.stations)
  {
    hide EmitTicks;
    TicksNonnegative(s.elapsed, a);
    var n := Ticks(s.elapsed, a);
    TicksKeepStations(w, Emitted(Revised(s, a), [], None), s.elapsed / TICK_INTERVAL + 1, n, n);
  }

  /** If the second half receives everything, the committed engines agree. */
  lemma SecondCommits(w: World, e: Engine, tr: Trace, mid: Engine, x: int, y: int, a: int, b: int, p: Batch)
    requires WorldSound(w) && Inv(w, e, tr)
    requires 0 <= x < SPEED_SCALE && 0 <= y < SPEED_SCALE && a >= 0 && b >= 0
    requires Tracks(e.store, e.state.stations) && e.state.elapsed >= 0
    requires var sx := e.state.(remainder := x);
             && Fits(w, sx, a) && Ticked(w, sx, a).stop.None?
             && ReceiveAll(w, e.state.stations, StageReceptions(e.store, e.state.stations), Ticked(w, sx, a).sent) == Some(p)
             && mid == Advanced(w, e, sx, a, p) && Inv(w, mid, TraceSent(w, e, tr, Ticked(w, sx, a).sent))
    ensures Tracks(mid.store, mid.state.stations) && mid.state.elapsed >= 0
    ensures mid.state.stations == e.state.stations
    ensures var q := ReceiveAll(w, mid.state.stations, StageReceptions(mid.store, mid.state.stations),
                                Ticked(w, mid.state.(remainder := y), b).sent);
            q.Some? && Fits(w, mid.state.(remainder := y), b) ==>
              Same(Advanced(w, e, e.state.(remainder := y), a + b, Prepend(q.value, p.records)),
                   Advanced(w, mid, mid.state.(remainder := y), b, q.value))
  {
    hide Inv, WorldSound, ReceiveAll, TraceSent, Ticked, Fits, ApplyReceptions, StageReceptions, Halfway, DistinctIds,
         TimeOrdered, Ids, Commit, Newest;
    InvKeys(w, e, tr);
    var s, sx, sy := e.state, e.state.(remainder := x), mid.state.(remainder := y);
    var at := TraceSent(w, e, tr, Ticked(w, sx, a).sent);
    InvReady(w, mid, at);
    InvDistinct(w, e, tr);
    InvClock(w, mid, at);
    HalfRecords(w, e, tr, sx, a, p);
    AdvancedState(w, e, sx, a, p);
    EmissionFacts(w, e, tr);
    var q := ReceiveAll(w, s.stations, StageReceptions(mid.store, s.stations), Ticked(w, sy, b).sent);
    if q.Some? && Fits(w, sy, b) {
      HalfRecords(w, mid, at, sy, b, q.value);
      assert InTurn(e.store, p.records, q.value.records, Now(w, s) + a, Now(w, s) + a + b);
      CommitsInTurn(w, e, s, a, b, x, y, p, q.value);
    }
  }

  lemma AdvancedState(w: World, e: Engine, s: State, a: int, p: Batch)
    requires a >= 0 && s.elapsed >= 0 && Tracks(e.store, s.stations) && |p.stats| == |s.stations|
    requires Ticked(w, s, a).stop.None? && e.store.receivers.Keys == Ids(s.stations)
    requires forall r <- p.records :: r.stationId in e.store.receivers
    ensures var mid := Advanced(w, e, s, a, p);
            mid.state.stations == s.stations && mid.state.elapsed == s.elapsed + a
            && mid.store.receivers.Keys == e.store.receivers.Keys
  {
    hide ApplyReceptions, Halfway, Ticked, Ids;
    HalfwayIs(w, s, a, s.remainder);
    AppliedTargets(e.store, s.stations, p, w.start + (s.elapsed + a));
  }

  lemma AdvanceKeepsPace(w: World, e: Engine, next: State, delta: int, budget: nat)
    requires delta >= 0 && next.elapsed >= 0 && Tracks(e.store, next.stations) && Patient(budget)
    ensures var r := AdvanceFrom(w, e, next, delta, budget);
            r.Committed? ==>
              && r.engine.state.remainder == next.remainder && r.engine.state.speed == next.speed
              && r.engine.state.elapsed == next.elapsed + delta
              && r.engine.state.revision == Revised(next, delta).revision
  {
    hide AdvanceFrom, Ticked, ReceiveAll, StageReceptions, ApplyReceptions, Fits;
    AdvanceIs(w, e, next, delta, budget);
    HalfwayRemainder(w, next, delta, next.remainder);
    if Ticked(w, next, delta).stop.None? {
      HalfwayIs(w, next, delta, next.remainder);
    }
    hide Halfway;
  }

  /** Advance(a) and then Advance(b) equal Advance(a + b): they succeed together, send the same reports and leave
      engines that differ in the state revision only. */
  lemma AdvanceSplits(w: World, e: Engine, tr: Trace, a: int, b: int, k: nat, l: nat, n: nat)
    requires WorldSound(w) && Inv(w, e, tr) && e.state.revision + 2 <= MAX_UINT64
    requires a >= 0 && b >= 0 && a + b <= MAX_ADVANCE && Patient(k) && Patient(l) && Patient(n)
    ensures Ready(e)
    ensures var first := Advance(w, e, a, k);
            && (first.Committed? ==> Ready(first.engine))
            && Agree(Advance(w, e, a + b, n), if first.Failed? then first else Then(first, Advance(w, first.engine, b, l)))
  {
    hide Inv, WorldSound, AdvanceFrom;
    InvClock(w, e, tr);
    var x := e.state.remainder;
    AdvanceFromSplits(w, e, tr, x, x, a, b, k, l, n);
    AdvanceKeepsPace(w, e, e.state, a, k);
    assert e.state.(remainder := x) == e.state;
    var first := Advance(w, e, a, k);
    assert first.Committed? ==> first.engine.state.(remainder := x) == first.engine.state;
  }

  lemma ScaledInTurn(a: int, b: int, speed: int, r: int)
    requires a >= 0 && b >= 0 && speed >= 0 && 0 <= r < SPEED_SCALE
    ensures var one, all := a * speed + r, (a + b) * speed + r;
            var two := b * speed + one % SPEED_SCALE;
            && 0 <= one && 0 <= two && one / SPEED_SCALE + two / SPEED_SCALE == all / SPEED_SCALE
            && all % SPEED_SCALE == two % SPEED_SCALE && one <= all && two <= all
  {
    assert (a + b) * speed == a * speed + b * speed && a * speed >= 0 && b * speed >= 0;
  }

  /** No overflow below MAX_ADVANCE. */
  lemma ScaleFits(delta: int, speed: int, r: int)
    requires delta >= 0 && speed > 0 && 0 <= r < SPEED_SCALE && (delta * speed + r) / SPEED_SCALE <= MAX_ADVANCE
    ensures delta <= (MAX_INT64 - r) / speed
  {
    assert delta * speed <= MAX_INT64 - r;
    var q := (MAX_INT64 - r) / speed;
    assert delta >= q + 1 ==> delta * speed >= (q + 1) * speed;
  }

  /** Elapse(a) and then Elapse(b) equal Elapse(a + b), remainder included. */
  lemma ElapseSplits(w: World, e: Engine, tr: Trace, a: int, b: int, k: nat, l: nat, n: nat)
    requires WorldSound(w) && Inv(w, e, tr) && e.state.revision + 2 <= MAX_UINT64
    requires a >= 0 && b >= 0 && Patient(k) && Patient(l) && Patient(n)
    requires ((a + b) * e.state.speed + e.state.remainder) / SPEED_SCALE <= MAX_ADVANCE
    ensures Ready(e)
    ensures var first := Elapse(w, e, a, k);
            && (first.Committed? ==> Ready(first.engine) && Inv(w, first.engine, TraceSent(w, e, tr, first.sent)))
            && Agree(Elapse(w, e, a + b, n), if first.Failed? then first else Then(first, Elapse(w, first.engine, b, l)))
  {
    hide Inv, WorldSound, AdvanceFrom, TraceSent;
    InvClock(w, e, tr);
    InvReady(w, e, tr);
    var speed, r := e.state.speed, e.state.remainder;
    ScaledInTurn(a, b, speed, r);
    var one, all := a * speed + r, (a + b) * speed + r;
    var two := b * speed + one % SPEED_SCALE;
    if speed > 0 {
      ScaleFits(a, speed, r);
      ScaleFits(a + b, speed, r);
      ScaleFits(b, speed, one % SPEED_SCALE);
    }
    AdvanceFromSplits(w, e, tr, one % SPEED_SCALE, two % SPEED_SCALE, one / SPEED_SCALE, two / SPEED_SCALE, k, l, n);
    AdvanceKeepsPace(w, e, e.state.(remainder := one % SPEED_SCALE), one / SPEED_SCALE, k);
  }

  // ----- Congruence -----

  lemma SettleSame(w: World, e: Engine, f: Engine, p: Emitted, q: Emitted, a: State, b: State, cancelled: bool)
    requires Same(e, f) && p.sent == q.sent && p.stop == q.stop && SameState(a, b) && Tracks(e.store, a.stations)
    ensures SameReply(Settle(w, e, p, a, cancelled), Settle(w, f, q, b, cancelled))
  {
    hide ReceiveAll, ApplyReceptions, StageReceptions;
  }

  lemma AdvanceFromSame(w: World, e: Engine, f: Engine, a: State, b: State, delta: int, budget: nat)
    requires Same(e, f) && SameState(a, b) && a.revision < MAX_UINT64 && b.revision < MAX_UINT64
    requires delta >= 0 && a.elapsed >= 0 && Tracks(e.store, a.stations)
    ensures SameReply(AdvanceFrom(w, e, a, delta, budget), AdvanceFrom(w, f, b, delta, budget))
  {
    hide EmitTicks, Settle;
    var n, first := Max(Ticks(a.elapsed, delta), 0), a.elapsed / TICK_INTERVAL + 1;
    var p, q := Emitted(Revised(a, delta), [], None), Emitted(Revised(b, delta), [], None);
    EmitTicksShift(w, p, first, n, budget, [], q.state);
    assert Shift(p, [], q.state) == q;
    TicksKeepStations(w, p, first, n, budget);
    var out, other := EmitTicks(w, p, first, n, budget), EmitTicks(w, q, first, n, budget);
    assert [] + out.sent == out.sent;
    var target := a.elapsed + delta;
    SettleSame(w, e, f, out, other, out.state.(elapsed := target, stations := a.stations),
               other.state.(elapsed := target, stations := b.stations), budget <= Max(Ticks(a.elapsed, delta), 1));
  }

  lemma {:induction false} EmitNewShifts(w: World, p: Emitted, now: int, k: nat, s: State)
    ensures EmitNew(w, Shift(p, [], s), now, k) == Shift(EmitNew(w, p, now, k), [], s)
  {
    hide SpawnVessel, Move;
    if k > 0 {
      EmitNewShifts(w, p, now, k - 1, s);
      var q := EmitNew(w, p, now, k - 1);
      SpawnShifts(w, q, now, s);
    }
  }

  lemma SpawnShifts(w: World, q: Emitted, now: int, s: State)
    ensures EmitSpawn(w, Shift(q, [], s), now) == Shift(EmitSpawn(w, q, now), [], s)
  {
    assert [] + q.sent == q.sent;
    var r := EmitSpawn(w, q, now);
    assert [] + r.sent == r.sent;
    assert SpawnVessel(w, q.state, now) == SpawnVessel(w, Shift(q, [], s).state, now);
    hide SpawnVessel;
  }

  lemma SetCountSame(w: World, e: Engine, f: Engine, count: int)
    requires Same(e, f) && e.state.revision < MAX_UINT64 && f.state.revision < MAX_UINT64 && Tracks(e.store, e.state.stations)
    ensures SameReply(SetCount(w, e, count), SetCount(w, f, count))
  {
    hide EmitNew, Settle;
    var s, t := e.state.(revision := e.state.revision + 1), f.state.(revision := f.state.revision + 1);
    var p, q, now, added := Emitted(s, [], None), Emitted(t, [], None), Now(w, s), count - |s.vessels|;
    if 0 <= count <= MAX_VESSELS {
      if added < 0 {
        SettleSame(w, e, f, p, q, s.(vessels := s.vessels[..count], updatedAt := now), t.(vessels := s.vessels[..count], updatedAt := now), false);
      } else if added > 0 {
        EmitNewShifts(w, p, now, added, t);
        assert Shift(p, [], t) == q;
        var out, other := EmitNew(w, p, now, added), EmitNew(w, q, now, added);
        assert [] + out.sent == out.sent;
        NewKeepsPace(w, p, now, added);
        SettleSame(w, e, f, out, other, out.state.(updatedAt := now, stations := s.stations),
                   other.state.(updatedAt := now, stations := s.stations), false);
      }
    }
  }

  lemma {:induction false} NewKeepsPace(w: World, p: Emitted, now: int, k: nat)
    ensures EmitNew(w, p, now, k).state.elapsed == p.state.elapsed
    ensures EmitNew(w, p, now, k).state.remainder == p.state.remainder
  {
    hide SpawnVessel;
    if k > 0 {
      NewKeepsPace(w, p, now, k - 1);
    }
  }

  /** No command can tell engines apart that differ in the state revision only, unless that revision is exhausted. */
  lemma SameReplies(w: World, e: Engine, f: Engine, c: Command)
    requires Same(e, f) && e.state.revision < MAX_UINT64 && f.state.revision < MAX_UINT64 && Ready(e)
    ensures Ready(f) && SameReply(Execute(w, e, c), Execute(w, f, c))
  {
    hide SetCount, AdvanceFrom, NormalizeSpeed, Station.DefinitionValid, FindStation, StationId, RemoveObservations;
    match c
    case SetCountTo(count) => SetCountSame(w, e, f, count);
    case AdvanceBy(delta, budget) =>
      if delta >= 0 {
        AdvanceFromSame(w, e, f, e.state, f.state, delta, budget);
      }
    case ElapseBy(delta, budget) =>
      if delta >= 0 {
        var scaled := delta * e.state.speed + e.state.remainder;
        assert delta * e.state.speed >= 0;
        AdvanceFromSame(w, e, f, e.state.(remainder := scaled % SPEED_SCALE), f.state.(remainder := scaled % SPEED_SCALE),
                        scaled / SPEED_SCALE, budget);
      }
    case SetSpeedTo(speed) =>
    case Add(expected, d) =>
    case Update(expected, id, d) =>
    case Remove(expected, id) =>
  }

  lemma AfterRevises(w: World, e: Engine, c: Command)
    requires Ready(e)
    ensures After(w, e, c).state.revision <= e.state.revision + 1
  {
    hide AdvanceFrom, NormalizeSpeed, Station.DefinitionValid, FindStation, StationId, RemoveObservations, EmitNew,
         ReceiveAll, StageReceptions, ApplyReceptions;
    match c
    case SetCountTo(count) =>
      var s := e.state.(revision := e.state.revision + 1);
      if count > |e.state.vessels| {
        NewKeepsRevision(w, Emitted(s, [], None), Now(w, s), count - |e.state.vessels|);
      }
    case AdvanceBy(delta, budget) =>
      if delta >= 0 {
        AdvanceKeepsReady(w, e, e.state, delta, budget);
      }
    case ElapseBy(delta, budget) => ElapseKeepsReady(w, e, delta, budget);
    case SetSpeedTo(_) =>
    case Add(_, _) =>
    case Update(_, _, _) =>
    case Remove(_, _) =>
  }

  lemma {:induction false} NewKeepsRevision(w: World, p: Emitted, now: int, k: nat)
    ensures EmitNew(w, p, now, k).state.revision == p.state.revision
  {
    hide SpawnVessel;
    if k > 0 {
      NewKeepsRevision(w, p, now, k - 1);
    }
  }

  /** Later commands keep engines equal up to revision, whatever they are and whether or not they fail. */
  lemma {:induction false} RunsStaySame(w: World, e: Engine, tr: Trace, f: Engine, ft: Trace, commands: seq<Command>)
    requires WorldSound(w) && Inv(w, e, tr) && Inv(w, f, ft) && Same(e, f)
    requires e.state.revision + |commands| <= MAX_UINT64 && f.state.revision + |commands| <= MAX_UINT64
    ensures Same(Run(w, e, tr, commands).0, Run(w, f, ft, commands).0)
    ensures Run(w, e, tr, commands).0.state.revision <= e.state.revision + |commands|
    ensures Run(w, f, ft, commands).0.state.revision <= f.state.revision + |commands|
  {
    hide Inv, WorldSound, Execute, TraceAfter, Same;
    if commands != [] {
      var n := |commands| - 1;
      RunsStaySame(w, e, tr, f, ft, commands[..n]);
      var (a, at) := Run(w, e, tr, commands[..n]);
      var (b, bt) := Run(w, f, ft, commands[..n]);
      InvReady(w, a, at);
      InvReady(w, b, bt);
      SameReplies(w, a, b, commands[n]);
      AfterRevises(w, a, commands[n]);
      AfterRevises(w, b, commands[n]);
    }
  }

  // ----- Any division of elapsed time -----

  lemma {:induction false} ApplyKeepsKeys(a: Applying, records: seq<Reception>)
    ensures ApplyRecords(a, records).receivers.Keys == a.receivers.Keys
  {
    hide Expire, Record, Push;
    if records != [] {
      ApplyKeepsKeys(a, records[..|records| - 1]);
    }
  }

  lemma CommitKeepsStations(w: World, e: Engine, next: State, sent: seq<Transmission>, b: Batch)
    requires Tracks(e.store, next.stations) && |next.stations| == |b.stats|
    ensures Tracks(Commit(w, e, next, sent, b).store, next.stations) && Commit(w, e, next, sent, b).state == next
  {
    hide ApplyRecords, Expire, SetStats;
    ApplyKeepsKeys(Applying(SetStats(e.store.receivers, next.stations, b.stats, |next.stations|), e.store.targets, 0), b.records);
  }

  /** The clock of a committed advance under any context. */
  lemma AdvanceKeepsReady(w: World, e: Engine, next: State, delta: int, budget: nat)
    requires delta >= 0 && next.elapsed >= 0 && Tracks(e.store, next.stations) && next.remainder >= 0 && next.speed >= 0
    ensures var r := AdvanceFrom(w, e, next, delta, budget);
            r.Committed? ==>
              && Ready(r.engine)
              && r.engine.state.remainder == next.remainder && r.engine.state.speed == next.speed
              && r.engine.state.elapsed == next.elapsed + delta && r.engine.state.stations == next.stations
              && r.engine.state.revision == Revised(next, delta).revision
              && r.engine.state.stationRevision == next.stationRevision && r.engine.state.lastStationId == next.lastStationId
  {
    hide EmitTicks, ReceiveAll, StageReceptions, Commit;
    var r, n := AdvanceFrom(w, e, next, delta, budget), Max(Ticks(next.elapsed, delta), 0);
    var p := Emitted(Revised(next, delta), [], None);
    TicksKeepStations(w, p, next.elapsed / TICK_INTERVAL + 1, n, budget);
    var out := EmitTicks(w, p, next.elapsed / TICK_INTERVAL + 1, n, budget);
    var after := out.state.(elapsed := next.elapsed + delta, stations := next.stations);
    var b := ReceiveAll(w, next.stations, StageReceptions(e.store, next.stations), out.sent);
    if b.Some? {
      CommitKeepsStations(w, e, after, out.sent, b.value);
    }
  }

  /** Elapse conserves time exactly, in hundredths of a nanosecond. */
  lemma ElapseKeepsReady(w: World, e: Engine, delta: int, budget: nat)
    requires Ready(e)
    ensures var r := Elapse(w, e, delta, budget);
            r.Committed? ==>
              && Ready(r.engine) && r.engine.state.speed == e.state.speed
              && e.state.revision <= r.engine.state.revision <= e.state.revision + 1
              && r.engine.state.elapsed * SPEED_SCALE + r.engine.state.remainder
                 == e.state.elapsed * SPEED_SCALE + e.state.remainder + delta * e.state.speed
              && r.engine.state.stations == e.state.stations && r.engine.state.stationRevision == e.state.stationRevision
  {
    hide AdvanceFrom;
    var s := e.state;
    if delta >= 0 {
      assert delta * s.speed >= 0;
      var scaled := delta * s.speed + s.remainder;
      AdvanceKeepsReady(w, e, s.(remainder := scaled % SPEED_SCALE), scaled / SPEED_SCALE, budget);
    }
  }

  ghost predicate Sound(w: World, e: Engine) {
    exists tr :: Inv(w, e, tr)
  }

  /** Real time delivered in chunks, oldest first; None if a chunk fails. */
  ghost function Deliver(w: World, e: Engine, chunks: seq<int>, budget: nat): (r: Option<(Engine, seq<Transmission>)>)
    requires Ready(e)
    decreases |chunks|
  {
    if chunks == [] then Some((e, []))
    else
      ElapseKeepsReady(w, e, chunks[0], budget);
      match Elapse(w, e, chunks[0], budget)
      case Failed(_) => None
      case Committed(f, sent) =>
        var rest := Deliver(w, f, chunks[1..], budget);
        if rest.None? then None else Some((rest.value.0, sent + rest.value.1))
  }

  ghost predicate SameDelivery(a: Option<(Engine, seq<Transmission>)>, b: Option<(Engine, seq<Transmission>)>) {
    (a.None? && b.None?) || (a.Some? && b.Some? && Same(a.value.0, b.value.0) && a.value.1 == b.value.1)
  }

  function Sum(chunks: seq<int>): int {
    if chunks == [] then 0 else chunks[0] + Sum(chunks[1..])
  }

  /** A chunk within MAX_ADVANCE whatever remainder is carried into it. */
  predicate Short(speed: int, chunk: int) {
    0 < chunk && (chunk * speed + SPEED_SCALE - 1) / SPEED_SCALE <= MAX_ADVANCE
  }

  ghost predicate AllShort(speed: int, chunks: seq<int>) {
    forall c <- chunks :: Short(speed, c)
  }

  /** Delivery does not depend on the revision it starts from. */
  lemma {:induction false} DeliverSame(w: World, e: Engine, f: Engine, chunks: seq<int>, budget: nat)
    requires Same(e, f) && Ready(e)
    requires e.state.revision + |chunks| <= MAX_UINT64 && f.state.revision + |chunks| <= MAX_UINT64
    ensures Ready(f) && SameDelivery(Deliver(w, e, chunks, budget), Deliver(w, f, chunks, budget))
    decreases |chunks|
  {
    hide Elapse;
    if chunks != [] {
      SameReplies(w, e, f, ElapseBy(chunks[0], budget));
      ElapseKeepsReady(w, e, chunks[0], budget);
      ElapseKeepsReady(w, f, chunks[0], budget);
      if Elapse(w, e, chunks[0], budget).Committed? {
        DeliverSame(w, Elapse(w, e, chunks[0], budget).engine, Elapse(w, f, chunks[0], budget).engine, chunks[1..], budget);
      }
    }
  }

  /** The elapse of one chunk against those of its two parts. */
  lemma ElapseCut(w: World, e: Engine, a: int, c: int, budget: nat)
    requires WorldSound(w) && Sound(w, e) && Patient(budget) && e.state.revision + 2 <= MAX_UINT64
    requires 0 < a < c && Short(e.state.speed, c)
    ensures Ready(e)
    ensures var first := Elapse(w, e, a, budget);
            && (first.Committed? ==> Ready(first.engine))
            && Agree(Elapse(w, e, c, budget), if first.Failed? then first else Then(first, Elapse(w, first.engine, c - a, budget)))
  {
    hide Elapse, Inv, WorldSound, TraceSent, Agree;
    var tr :| Inv(w, e, tr);
    InvClock(w, e, tr);
    ElapseSplits(w, e, tr, a, c - a, budget, budget, budget);
  }

  /** One chunk cut in two delivers the same. */
  lemma CutChunk(w: World, e: Engine, a: int, chunks: seq<int>, budget: nat)
    requires WorldSound(w) && Sound(w, e) && Ready(e) && Patient(budget)
    requires chunks != [] && 0 < a < chunks[0] && Short(e.state.speed, chunks[0])
    requires e.state.revision + |chunks| + 1 <= MAX_UINT64
    ensures SameDelivery(Deliver(w, e, chunks, budget), Deliver(w, e, [a, chunks[0] - a] + chunks[1..], budget))
  {
    hide Elapse, Deliver, Same, Sound, WorldSound, Patient, Short;
    var c, rest, cut := chunks[0], chunks[1..], [a, chunks[0] - a] + chunks[1..];
    ElapseCut(w, e, a, c, budget);
    DeliverHead(w, e, chunks, budget);
    CutDelivered(w, e, cut, budget);
    var first, whole := Elapse(w, e, a, budget), Elapse(w, e, c, budget);
    assert cut[2..] == rest;
    if whole.Committed? {
      var second := Elapse(w, first.engine, c - a, budget);
      RevisionGrows(w, e, c, budget);
      RevisionGrows(w, e, a, budget);
      RevisionGrows(w, first.engine, c - a, budget);
      DeliverSame(w, whole.engine, second.engine, rest, budget);
    }
  }

  lemma RevisionGrows(w: World, e: Engine, delta: int, budget: nat)
    requires Ready(e)
    ensures var r := Elapse(w, e, delta, budget);
            r.Committed? ==> Ready(r.engine) && r.engine.state.revision <= e.state.revision + 1
  {
    hide Elapse;
    ElapseKeepsReady(w, e, delta, budget);
  }

  lemma CutDelivered(w: World, e: Engine, cut: seq<int>, budget: nat)
    requires Ready(e) && |cut| >= 2
    ensures var first := Elapse(w, e, cut[0], budget);
            && (first.Failed? ==> Deliver(w, e, cut, budget).None?)
            && (first.Committed? ==>
                  && Ready(first.engine)
                  && var second := Elapse(w, first.engine, cut[1], budget);
                  && (second.Failed? ==> Deliver(w, e, cut, budget).None?)
                  && (second.Committed? ==>
                        && Ready(second.engine)
                        && var r := Deliver(w, second.engine, cut[2..], budget);
                        Deliver(w, e, cut, budget) == if r.None? then None
                                                      else Some((r.value.0, first.sent + second.sent + r.value.1))))
  {
    hide Elapse, Deliver;
    DeliverHead(w, e, cut, budget);
    var first := Elapse(w, e, cut[0], budget);
    if first.Committed? {
      DeliverHead(w, first.engine, cut[1..], budget);
      var second := Elapse(w, first.engine, cut[1], budget);
      assert cut[1..][1..] == cut[2..] && cut[1..][0] == cut[1];
      if second.Committed? {
        var r := Deliver(w, second.engine, cut[2..], budget);
        if r.Some? {
          assert first.sent + (second.sent + r.value.1) == first.sent + second.sent + r.value.1;
        }
      }
    }
  }

  /** However the same real time is divided, delivery succeeds or fails alike, sends the same reports and leaves
      engines equal up to the state revision. */
  lemma {:induction false} DivisionIrrelevant(w: World, e: Engine, f: Engine, c: seq<int>, d: seq<int>, budget: nat)
    requires WorldSound(w) && Sound(w, e) && Sound(w, f) && Same(e, f) && Ready(e) && Ready(f) && Patient(budget)
    requires AllShort(e.state.speed, c) && AllShort(e.state.speed, d) && Sum(c) == Sum(d)
    requires e.state.revision + |c| + |d| <= MAX_UINT64 && f.state.revision + |c| + |d| <= MAX_UINT64
    ensures SameDelivery(Deliver(w, e, c, budget), Deliver(w, f, d, budget))
    decreases |c| + |d|, if c != [] && d != [] && c[0] > d[0] then 1 else 0
  {
    hide WorldSound, Sound, Elapse;
    SumPositive(e.state.speed, c);
    SumPositive(e.state.speed, d);
    if c != [] && d != [] {
      assert Short(e.state.speed, c[0]) && Short(e.state.speed, d[0]);
      if c[0] > d[0] {
        DivisionIrrelevant(w, f, e, d, c, budget);
      } else if c[0] == d[0] {
        HeadDelivered(w, e, f, c, d, budget);
        DeliverHead(w, e, c, budget);
        DeliverHead(w, f, d, budget);
        var a, b := Elapse(w, e, c[0], budget), Elapse(w, f, c[0], budget);
        if a.Committed? {
          DivisionIrrelevant(w, a.engine, b.engine, c[1..], d[1..], budget);
        }
      } else {
        var cut := [c[0], d[0] - c[0]] + d[1..];
        CutChunk(w, f, c[0], d, budget);
        HeadDelivered(w, e, f, c, cut, budget);
        DeliverHead(w, e, c, budget);
        DeliverHead(w, f, cut, budget);
        ShortPart(e.state.speed, d, c[0]);
        var a, b := Elapse(w, e, c[0], budget), Elapse(w, f, c[0], budget);
        assert cut[1..] == [d[0] - c[0]] + d[1..];
        assert ([d[0] - c[0]] + d[1..])[1..] == d[1..];
        if a.Committed? {
          DivisionIrrelevant(w, a.engine, b.engine, c[1..], cut[1..], budget);
        }
      }
    }
  }

  lemma {:induction false} SumPositive(speed: int, chunks: seq<int>)
    requires AllShort(speed, chunks)
    ensures Sum(chunks) >= 0 && (Sum(chunks) == 0 ==> chunks == [])
  {
    if chunks != [] {
      assert Short(speed, chunks[0]);
      SumPositive(speed, chunks[1..]);
    }
  }

  lemma ShortPart(speed: int, d: seq<int>, a: int)
    requires d != [] && 0 < a < d[0] && AllShort(speed, d) && speed >= 0
    ensures AllShort(speed, [d[0] - a] + d[1..])
  {
    assert (d[0] - a) * speed == d[0] * speed - a * speed && 0 <= a * speed;
    assert Short(speed, d[0]);
  }

  lemma ElapseSame(w: World, e: Engine, f: Engine, delta: int, budget: nat)
    requires Same(e, f) && e.state.revision < MAX_UINT64 && f.state.revision < MAX_UINT64 && Ready(e)
    ensures Ready(f) && SameReply(Elapse(w, e, delta, budget), Elapse(w, f, delta, budget))
  {
    hide Elapse;
    SameReplies(w, e, f, ElapseBy(delta, budget));
  }

  lemma DeliverHead(w: World, e: Engine, c: seq<int>, budget: nat)
    requires Ready(e) && c != []
    ensures var a := Elapse(w, e, c[0], budget);
            && (a.Failed? ==> Deliver(w, e, c, budget).None?)
            && (a.Committed? ==>
                  && Ready(a.engine)
                  && var rest := Deliver(w, a.engine, c[1..], budget);
                     Deliver(w, e, c, budget) == if rest.None? then None else Some((rest.value.0, a.sent + rest.value.1)))
  {
    hide Elapse;
    ElapseKeepsReady(w, e, c[0], budget);
  }

  /** Both deliveries start with the same chunk. */
  lemma HeadDelivered(w: World, e: Engine, f: Engine, c: seq<int>, d: seq<int>, budget: nat)
    requires WorldSound(w) && Sound(w, e) && Sound(w, f) && Same(e, f) && Ready(e) && Ready(f)
    requires c != [] && d != [] && c[0] == d[0]
    requires e.state.revision < MAX_UINT64 && f.state.revision < MAX_UINT64
    ensures var a, b := Elapse(w, e, c[0], budget), Elapse(w, f, d[0], budget);
            && SameReply(a, b)
            && (a.Committed? ==>
                  && Ready(a.engine) && Ready(b.engine) && Sound(w, a.engine) && Sound(w, b.engine)
                  && a.engine.state.speed == e.state.speed
                  && a.engine.state.revision <= e.state.revision + 1 && b.engine.state.revision <= f.state.revision + 1)
  {
    hide WorldSound, Sound, Elapse, Ready, Same;
    ElapseSame(w, e, f, c[0], budget);
    ElapseKeepsReady(w, e, c[0], budget);
    ElapseKeepsReady(w, f, c[0], budget);
    ElapseKeepsSound(w, e, c[0], budget);
    ElapseKeepsSound(w, f, c[0], budget);
  }

  lemma ElapseKeepsSound(w: World, e: Engine, delta: int, budget: nat)
    requires WorldSound(w) && Sound(w, e) && Ready(e)
    ensures Elapse(w, e, delta, budget).Committed? ==> Sound(w, Elapse(w, e, delta, budget).engine)
  {
    hide Inv, WorldSound, Elapse, TraceSent;
    var tr :| Inv(w, e, tr);
    InvKeys(w, e, tr);
    ElapseKeepsInv(w, e, tr, delta, budget);
  }
}
