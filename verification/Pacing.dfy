/** The real-time driver: measured time is delivered in chunks at the speed it was measured under, a failed settlement
    keeps what it delivered, and commands apply at the settled instant (internal/simdriver/driver.go). */
module Pacing {
  import opened Basics
  import opened Model
  import opened Worlds
  import opened Engine
  import opened Runs
  import opened Reachable
  import opened Split
  import Station

  const MAX_CATCH_UP: int := 3600 * SECOND
  const ELAPSE_CHUNK: int := MAX_ADVANCE / 100

  /** How long the caller's context lives: through its checks before and after settlement, and for how many checks of
      the k-th delivered chunk. */
  datatype Context = Context(before: bool, atSettle: bool, patience: nat -> nat, after: bool)

  /** The engine, the real instant up to which time was delivered or dropped, whether the driver refuses everything, and
      whether Run still takes heartbeats. Run leaves its loop before it marks the driver stopped, so commands may come
      in between. */
  datatype Pace = Pace(engine: Engine, baseline: int, stopped: bool, running: bool)

  /** Chunks delivered until the elapsed time is used up or one fails: the engine, the time delivered, the error and the
      reports sent. */
  datatype Delivery = Delivery(engine: Engine, delivered: int, error: Option<Error>, sent: seq<Transmission>)

  ghost function DeliverChunks(w: World, e: Engine, elapsed: int, k: nat, patience: nat -> nat): (d: Delivery)
    requires Ready(e)
    ensures Ready(d.engine)
    decreases elapsed
  {
    if elapsed <= 0 then Delivery(e, 0, None, [])
    else
      var chunk := Min(elapsed, ELAPSE_CHUNK);
      ElapseKeepsReady(w, e, chunk, patience(k));
      match Elapse(w, e, chunk, patience(k))
      case Failed(error) => Delivery(e, 0, Some(error), [])
      case Committed(f, sent) =>
        var rest := DeliverChunks(w, f, elapsed - chunk, k + 1, patience);
        rest.(delivered := chunk + rest.delivered, sent := sent + rest.sent)
  }

  /** settleLocked at the clock sample now. */
  ghost function Settled(w: World, p: Pace, now: int, c: Context): (r: (Pace, Option<Error>))
    requires Ready(p.engine)
    ensures Ready(r.0.engine)
  {
    var elapsed, speed := now - p.baseline, p.engine.state.speed;
    if p.stopped then (p, Some(Stopped))
    else if !c.atSettle then (p, Some(Cancelled))
    else if elapsed <= 0 then (p, None)
    else if speed == 0 then (p.(baseline := now), None)
    else if elapsed * speed > MAX_CATCH_UP * SPEED_SCALE then (p, Some(CatchUp))
    else
      var d := DeliverChunks(w, p.engine, elapsed, 0, c.patience);
      (p.(engine := d.engine, baseline := p.baseline + d.delivered), d.error)
  }

  /** A heartbeat of Run: a failure ends its loop, so no other heartbeat follows. */
  ghost function Beat(w: World, p: Pace, now: int, c: Context): (Pace, Option<Error>)
    requires Ready(p.engine)
  {
    if !p.running then (p, Some(Stopped))
    else
      var settled := Settled(w, p, now, c);
      (settled.0.(running := settled.1.None?), settled.1)
  }

  /** An engine command applied at the settled instant. */
  ghost function ThenExecute(w: World, settled: (Pace, Option<Error>), c: Command): (Pace, Option<Error>)
    requires Ready(settled.0.engine)
  {
    if settled.1.Some? then settled
    else
      match Execute(w, settled.0.engine, c)
      case Failed(error) => (settled.0, Some(error))
      case Committed(e, _) => (settled.0.(engine := e), None)
  }

  ghost function DriveCount(w: World, p: Pace, now: int, c: Context, count: int): (Pace, Option<Error>)
    requires Ready(p.engine)
  {
    if p.stopped then (p, Some(Stopped))
    else if count < 0 || count > MAX_VESSELS then (p, Some(Invalid))
    else ThenExecute(w, Settled(w, p, now, c), SetCountTo(count))
  }

  ghost function DriveSpeed(w: World, p: Pace, now: int, c: Context, speed: real): (Pace, Option<Error>)
    requires Ready(p.engine)
  {
    if p.stopped then (p, Some(Stopped))
    else if NormalizeSpeed(speed).None? then (p, Some(Invalid))
    else ThenExecute(w, Settled(w, p, now, c), SetSpeedTo(speed))
  }

  /** What a station edit is checked against before settling; an empty ID is an addition. */
  function EditError(w: World, s: State, run: string, expected: nat, id: string): Option<Error> {
    if w.id != run then Some(Conflict)
    else if s.stationRevision != expected then Some(Conflict)
    else if id != "" && FindStation(s.stations, id) == |s.stations| then Some(NotFound)
    else if id == "" && |s.stations| >= MAX_STATIONS then Some(Invalid)
    else None
  }

  /** prepareStationEdit. */
  ghost function Prepared(w: World, p: Pace, now: int, c: Context, run: string, expected: nat, id: string): (r: (Pace, Option<Error>))
    requires Ready(p.engine)
    ensures Ready(r.0.engine)
  {
    var error := EditError(w, p.engine.state, run, expected, id);
    if p.stopped then (p, Some(Stopped))
    else if !c.before then (p, Some(Cancelled))
    else if error.Some? then (p, error)
    else
      var settled := Settled(w, p, now, c);
      if settled.1.None? && !c.after then (settled.0, Some(Cancelled)) else settled
  }

  ghost function DriveAdd(w: World, p: Pace, now: int, c: Context, run: string, expected: nat, d: Definition): (Pace, Option<Error>)
    requires Ready(p.engine)
  {
    if p.stopped then (p, Some(Stopped))
    else if !Station.DefinitionValid(d) then (p, Some(Invalid))
    else ThenExecute(w, Prepared(w, p, now, c, run, expected, ""), Add(expected, d))
  }

  ghost function DriveUpdate(w: World, p: Pace, now: int, c: Context, run: string, expected: nat, id: string,
                             d: Definition): (Pace, Option<Error>)
    requires Ready(p.engine)
  {
    if p.stopped then (p, Some(Stopped))
    else if !Station.DefinitionValid(d) then (p, Some(Invalid))
    else ThenExecute(w, Prepared(w, p, now, c, run, expected, id), Update(expected, id, d))
  }

  ghost function DriveRemove(w: World, p: Pace, now: int, c: Context, run: string, expected: nat, id: string): (Pace, Option<Error>)
    requires Ready(p.engine)
  {
    ThenExecute(w, Prepared(w, p, now, c, run, expected, id), Remove(expected, id))
  }

  // ----- Conservation -----

  /** elapsed and remainder as one number, so that adding scaled real time is exact. */
  function Hundredths(s: State): int {
    s.elapsed * SPEED_SCALE + s.remainder
  }

  /** Real nanoseconds at a speed in hundredths, as hundredths of virtual nanoseconds. */
  function Scaled(delivered: int, speed: int): int {
    delivered * speed
  }

  lemma NothingScaled(delivered: int, speed: int)
    requires delivered == 0 || speed == 0
    ensures Scaled(delivered, speed) == 0
  {
  }

  /** Chunks add exactly the delivered time times the speed, and touch no configuration. */
  lemma {:induction false} ChunksConserve(w: World, e: Engine, elapsed: int, k: nat, patience: nat -> nat)
    requires Ready(e)
    ensures var d := DeliverChunks(w, e, elapsed, k, patience);
            && Hundredths(d.engine.state) == Hundredths(e.state) + Scaled(d.delivered, e.state.speed)
            && 0 <= d.delivered && (elapsed >= 0 ==> d.delivered <= elapsed && (d.error.None? <==> d.delivered == elapsed))
            && d.engine.state.speed == e.state.speed && d.engine.state.stations == e.state.stations
            && d.engine.state.stationRevision == e.state.stationRevision
    decreases elapsed
  {
    hide Elapse;
    NothingScaled(0, e.state.speed);
    if elapsed > 0 {
      var chunk := Min(elapsed, ELAPSE_CHUNK);
      ElapseKeepsReady(w, e, chunk, patience(k));
      var r := Elapse(w, e, chunk, patience(k));
      if r.Committed? {
        ChunksConserve(w, r.engine, elapsed - chunk, k + 1, patience);
        var rest := DeliverChunks(w, r.engine, elapsed - chunk, k + 1, patience).delivered;
        Distribute(chunk, rest, e.state.speed);
      }
    }
  }

  lemma Distribute(a: int, b: int, speed: int)
    ensures Scaled(a + b, speed) == Scaled(a, speed) + Scaled(b, speed)
  {
  }

  /** Settlement moves the baseline by the time it delivered, or by the whole time while paused; it never moves it past
      the sample, reaches the sample if it succeeds, and adds virtual time for delivered time only. */
  lemma SettlementConserves(w: World, p: Pace, now: int, c: Context)
    requires Ready(p.engine)
    ensures var (q, error) := Settled(w, p, now, c);
            && p.baseline <= q.baseline <= Max(now, p.baseline)
            && Hundredths(q.engine.state) == Hundredths(p.engine.state) + Scaled(q.baseline - p.baseline, p.engine.state.speed)
            && (error.None? ==> q.baseline == Max(now, p.baseline))
            && q.engine.state.speed == p.engine.state.speed && q.engine.state.stations == p.engine.state.stations
            && q.engine.state.stationRevision == p.engine.state.stationRevision
            && q.stopped == p.stopped && q.running == p.running
  {
    hide DeliverChunks, Hundredths, Scaled;
    ChunksConserve(w, p.engine, now - p.baseline, 0, c.patience);
    NothingScaled(0, p.engine.state.speed);
    NothingScaled(now - p.baseline, 0);
  }

  /** A chunk stays within MAX_ADVANCE at any speed and with any carried remainder, so settlement never exceeds it. */
  lemma ChunkFits(elapsed: int, speed: int, remainder: int)
    requires elapsed > 0 && 0 <= speed <= MAX_SPEED && 0 <= remainder < SPEED_SCALE
    ensures var chunk := Min(elapsed, ELAPSE_CHUNK);
            Short(speed, chunk) && (chunk * speed + remainder) / SPEED_SCALE <= MAX_ADVANCE
  {
    var chunk := Min(elapsed, ELAPSE_CHUNK);
    assert chunk * speed <= ELAPSE_CHUNK * MAX_SPEED by {
      assert chunk * speed <= chunk * MAX_SPEED <= ELAPSE_CHUNK * MAX_SPEED;
    }
  }

  /** Once the checks before settlement passed, the edit itself can only run out of a counter range. */
  lemma PreparedEditsApply(w: World, p: Pace, now: int, c: Context, run: string, expected: nat, id: string, d: Definition)
    requires Ready(p.engine) && Station.DefinitionValid(d)
    requires Prepared(w, p, now, c, run, expected, id).1.None?
    ensures var e := Prepared(w, p, now, c, run, expected, id).0.engine;
            && (id == "" ==> |e.state.stations| < MAX_STATIONS
                             && (AddStation(w, e, expected, d).Committed? || AddStation(w, e, expected, d) == Failed(Limit)))
            && (id != "" ==> UpdateStation(w, e, expected, id, d).Committed? || UpdateStation(w, e, expected, id, d) == Failed(Limit))
            && (id != "" ==> RemoveStation(e, expected, id).Committed? || RemoveStation(e, expected, id) == Failed(Limit))
  {
    SettlementConserves(w, p, now, c);
    hide Settled, Station.DefinitionValid, Station.CanonicalForm, FindStation, RemoveObservations, StationId;
  }

  // ----- Whole runs -----

  /** One entry into the driver: a heartbeat, a command, or the end of pacing. */
  datatype Entry = Heartbeat(now: int, c: Context) | Count(now: int, c: Context, count: int)
                 | Speed(now: int, c: Context, speed: real)
                 | AddOne(now: int, c: Context, run: string, expected: nat, definition: Definition)
                 | UpdateOne(now: int, c: Context, run: string, expected: nat, id: string, definition: Definition)
                 | RemoveOne(now: int, c: Context, run: string, expected: nat, id: string)
                 | Stop

  ghost function Drive(w: World, p: Pace, entry: Entry): (Pace, Option<Error>)
    requires Ready(p.engine)
  {
    match entry
    case Heartbeat(now, c) => Beat(w, p, now, c)
    case Count(now, c, count) => DriveCount(w, p, now, c, count)
    case Speed(now, c, speed) => DriveSpeed(w, p, now, c, speed)
    case AddOne(now, c, run, expected, d) => DriveAdd(w, p, now, c, run, expected, d)
    case UpdateOne(now, c, run, expected, id, d) => DriveUpdate(w, p, now, c, run, expected, id, d)
    case RemoveOne(now, c, run, expected, id) => DriveRemove(w, p, now, c, run, expected, id)
    case Stop => (p.(stopped := true, running := false), None)
  }

  lemma SoundIsReady(w: World, e: Engine)
    requires Sound(w, e)
    ensures Ready(e) && 0 <= e.state.speed <= MAX_SPEED && 0 <= e.state.remainder < SPEED_SCALE
  {
    hide Inv;
    var tr :| Inv(w, e, tr);
    InvReady(w, e, tr);
    InvPaceOf(w, e, tr);
  }

  lemma InvPaceOf(w: World, e: Engine, tr: Trace)
    requires Inv(w, e, tr)
    ensures ClockOk(w, e.state)
  {
  }

  lemma CommandKeepsSound(w: World, e: Engine, c: Command)
    requires WorldSound(w) && Sound(w, e)
    ensures Ready(e) && (Execute(w, e, c).Committed? ==> Sound(w, Execute(w, e, c).engine))
  {
    hide Inv, WorldSound, Execute, TraceAfter;
    var tr :| Inv(w, e, tr);
    CommandKeepsInv(w, e, tr, c);
  }

  lemma {:induction false} ChunksKeepSound(w: World, e: Engine, elapsed: int, k: nat, patience: nat -> nat)
    requires WorldSound(w) && Sound(w, e) && Ready(e)
    ensures Sound(w, DeliverChunks(w, e, elapsed, k, patience).engine)
    decreases elapsed
  {
    hide WorldSound, Sound, Elapse;
    if elapsed > 0 {
      var chunk := Min(elapsed, ELAPSE_CHUNK);
      ElapseKeepsReady(w, e, chunk, patience(k));
      ElapseKeepsSound(w, e, chunk, patience(k));
      var r := Elapse(w, e, chunk, patience(k));
      if r.Committed? {
        ChunksKeepSound(w, r.engine, elapsed - chunk, k + 1, patience);
      }
    }
  }

  lemma SettledKeepsSound(w: World, p: Pace, now: int, c: Context)
    requires WorldSound(w) && Sound(w, p.engine) && Ready(p.engine)
    ensures Sound(w, Settled(w, p, now, c).0.engine)
  {
    hide WorldSound, Sound, DeliverChunks;
    ChunksKeepSound(w, p.engine, now - p.baseline, 0, c.patience);
  }

  lemma ThenKeepsSound(w: World, q: (Pace, Option<Error>), c: Command)
    requires WorldSound(w) && Sound(w, q.0.engine) && Ready(q.0.engine)
    ensures Sound(w, ThenExecute(w, q, c).0.engine)
  {
    hide WorldSound, Sound, Execute;
    CommandKeepsSound(w, q.0.engine, c);
  }

  /** Commands other than elapsing keep the clock. */
  lemma ThenKeepsClock(w: World, q: (Pace, Option<Error>), c: Command)
    requires Ready(q.0.engine) && !c.AdvanceBy? && !c.ElapseBy?
    ensures var r := ThenExecute(w, q, c).0;
            Hundredths(r.engine.state) == Hundredths(q.0.engine.state) && r.baseline == q.0.baseline && r.stopped == q.0.stopped
  {
    hide NormalizeSpeed, FindStation, Station.DefinitionValid, Station.CanonicalForm, RemoveObservations, StationId, EmitNew,
         ReceiveAll, StageReceptions, ApplyReceptions;
    if c.SetCountTo? {
      var s := q.0.engine.state;
      var revised := s.(revision := s.revision + 1);
      if c.count > |s.vessels| {
        NewKeepsPace(w, Emitted(revised, [], None), Now(w, s), c.count - |s.vessels|);
      }
    }
  }

  /** Every entry keeps the books: virtual time grows by the time the baseline moved, at the speed before the entry. */
  ghost predicate Conserves(p: Pace, q: Pace) {
    && p.baseline <= q.baseline
    && Hundredths(q.engine.state) == Hundredths(p.engine.state) + Scaled(q.baseline - p.baseline, p.engine.state.speed)
  }

  lemma EntryConserves(w: World, p: Pace, entry: Entry)
    requires WorldSound(w) && Sound(w, p.engine)
    ensures Ready(p.engine) && Sound(w, Drive(w, p, entry).0.engine) && Conserves(p, Drive(w, p, entry).0)
    ensures p.stopped ==> Drive(w, p, entry).0 == p.(running := Drive(w, p, entry).0.running)
  {
    hide WorldSound, Sound, Settled, ThenExecute, Hundredths, Scaled, NormalizeSpeed, Station.DefinitionValid, EditError;
    SoundIsReady(w, p.engine);
    NothingScaled(0, p.engine.state.speed);
    if !entry.Stop? {
      SettledKeepsSound(w, p, entry.now, entry.c);
      SettlementConserves(w, p, entry.now, entry.c);
      StoppedSettles(w, p, entry.now, entry.c);
      var settled := Settled(w, p, entry.now, entry.c);
      match entry
      case Heartbeat(_, _) =>
      case Count(now, c, count) => ThenBoth(w, settled, SetCountTo(count));
      case Speed(now, c, speed) => ThenBoth(w, settled, SetSpeedTo(speed));
      case AddOne(now, c, run, expected, d) => ThenBoth(w, Prepared(w, p, now, c, run, expected, ""), Add(expected, d));
      case UpdateOne(now, c, run, expected, id, d) => ThenBoth(w, Prepared(w, p, now, c, run, expected, id), Update(expected, id, d));
      case RemoveOne(now, c, run, expected, id) =>
        ThenBoth(w, Prepared(w, p, now, c, run, expected, id), Remove(expected, id));
        FailedThen(w, Prepared(w, p, now, c, run, expected, id), Remove(expected, id));
    }
  }

  lemma StoppedSettles(w: World, p: Pace, now: int, c: Context)
    requires Ready(p.engine)
    ensures p.stopped ==> Settled(w, p, now, c) == (p, Some(Stopped))
  {
    hide DeliverChunks;
  }

  lemma FailedThen(w: World, q: (Pace, Option<Error>), c: Command)
    requires Ready(q.0.engine)
    ensures q.1.Some? ==> ThenExecute(w, q, c) == q
  {
    hide Execute;
  }

  lemma ThenBoth(w: World, q: (Pace, Option<Error>), c: Command)
    requires WorldSound(w) && Sound(w, q.0.engine) && Ready(q.0.engine) && !c.AdvanceBy? && !c.ElapseBy?
    ensures var r := ThenExecute(w, q, c).0;
            && Sound(w, r.engine) && Hundredths(r.engine.state) == Hundredths(q.0.engine.state)
            && r.baseline == q.0.baseline
  {
    hide WorldSound, Sound, Hundredths, ThenExecute;
    ThenKeepsSound(w, q, c);
    ThenKeepsClock(w, q, c);
  }

  ghost function Driven(w: World, p: Pace, entries: seq<Entry>): (q: Pace)
    requires WorldSound(w) && Sound(w, p.engine)
    ensures Sound(w, q.engine)
  {
    if entries == [] then p
    else
      var q := Driven(w, p, entries[..|entries| - 1]);
      EntryConserves(w, q, entries[|entries| - 1]);
      Drive(w, q, entries[|entries| - 1]).0
  }

  /** The time each entry moved the baseline, at the speed it was measured under. */
  ghost function Credit(w: World, p: Pace, entries: seq<Entry>): int
    requires WorldSound(w) && Sound(w, p.engine)
  {
    if entries == [] then 0
    else
      var front := entries[..|entries| - 1];
      var q := Driven(w, p, front);
      Credit(w, p, front) + Scaled(Driven(w, p, entries).baseline - q.baseline, q.engine.state.speed)
  }

  /** The latest clock sample of the entries, or the first baseline. */
  function LatestSample(baseline: int, entries: seq<Entry>): int {
    if entries == [] then baseline
    else
      var entry := entries[|entries| - 1];
      Max(LatestSample(baseline, entries[..|entries| - 1]), if entry.Stop? then baseline else entry.now)
  }

  /** Over any run of heartbeats, speed changes, pauses, edits and failures: virtual time is exactly the credited time, and
      nothing is delivered twice or ahead of the clock. */
  lemma {:induction false} RunsConserveTime(w: World, p: Pace, entries: seq<Entry>)
    requires WorldSound(w) && Sound(w, p.engine)
    ensures var q := Driven(w, p, entries);
            && Hundredths(q.engine.state) == Hundredths(p.engine.state) + Credit(w, p, entries)
            && p.baseline <= q.baseline <= LatestSample(p.baseline, entries)
  {
    hide WorldSound, Sound, Drive, Hundredths, Scaled;
    if entries != [] {
      var n := |entries| - 1;
      RunsConserveTime(w, p, entries[..n]);
      EntryConserves(w, Driven(w, p, entries[..n]), entries[n]);
      EntryWithinSample(w, Driven(w, p, entries[..n]), entries[n]);
    }
  }

  lemma EntryWithinSample(w: World, p: Pace, entry: Entry)
    requires WorldSound(w) && Sound(w, p.engine)
    ensures Ready(p.engine) && Drive(w, p, entry).0.baseline <= (if entry.Stop? then p.baseline else Max(p.baseline, entry.now))
  {
    hide WorldSound, Sound, Settled, Execute, NormalizeSpeed, Station.DefinitionValid, EditError;
    SoundIsReady(w, p.engine);
    if !entry.Stop? {
      SettlementConserves(w, p, entry.now, entry.c);
    }
  }
}
