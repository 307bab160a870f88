/** The engine as a function of its state: commands, staging and commit (simulation/simulator.go, station.go and
    the mutating half of observation.go). Recursive functions count loop iterations, so each loop of Simulator
    is proved against one of them. */
module Engine {
  import opened Basics
  import opened Model
  import opened Worlds
  import Decimal
  import RadioModel
  import Station

  // ----- Reception state -----

  /** A slot of the rate ring. Whether it still counts is decided when it is summed, by its second. */
  datatype Bucket = Bucket(second: int, opportunities: nat, received: nat)

  datatype ChannelCounters = ChannelCounters(opportunities: nat, received: nat)

  datatype Counters = Counters(opportunities: nat, received: nat, stationDisabled: nat, channelDisabled: nat,
                               outsideHorizon: nat, insufficientMargin: nat, probabilisticLoss: nat,
                               channelA: ChannelCounters, channelB: ChannelCounters)

  const NO_COUNTERS: Counters := Counters(0, 0, 0, 0, 0, 0, 0, ChannelCounters(0, 0), ChannelCounters(0, 0))

  /** stationStats: staged by value. buckets is indexed by virtual second modulo RATE_BUCKETS. */
  datatype Stats = Stats(last: nat, counters: Counters, buckets: seq<Bucket>)

  function NoStats(): Stats {
    Stats(0, NO_COUNTERS, seq(RATE_BUCKETS, i => Bucket(0, 0, 0)))
  }

  /** stationReceptions: counters and a ring of the newest receptions. */
  datatype Receiver = Receiver(stats: Stats, history: seq<Reception>, oldest: nat)

  function NewReceiver(): Receiver {
    Receiver(NoStats(), [], 0)
  }

  /** At most one reception per station, see TargetOk; receivedAt is their newest time. */
  datatype Target = Target(observations: seq<Reception>, receivedAt: int)

  datatype TargetStore = TargetStore(targets: map<nat, Target>, evictions: nat)

  datatype Store = Store(receivers: map<string, Receiver>, targets: TargetStore, receptions: nat,
                         receivedTransmissions: nat)

  /** receptionBatch: staged counters, new records and totals. */
  datatype Batch = Batch(stats: seq<Stats>, records: seq<Reception>, receptions: nat, receivedTransmissions: nat)

  // ----- Engine state -----

  datatype Vessel = Vessel(position: Position, name: string, typeId: string, report: Message, reports: nat)

  datatype Site = Site(id: string, definition: Definition, configRevision: nat, rfRevision: nat, createdAt: int,
                       rfUpdatedAt: int, coverage: seq<Coverage>)

  datatype State = State(revision: nat, source: nat, vessels: seq<Vessel>, nextMMSI: nat, sequence: nat, elapsed: int,
                         remainder: int, speed: int, updatedAt: int, stations: seq<Site>, lastStationId: nat,
                         stationRevision: nat)

  datatype Engine = Engine(state: State, messages: seq<Message>, store: Store)

  /** A mutation either commits a new engine and returns its reports, or fails and changes nothing. */
  datatype Reply = Committed(engine: Engine, sent: seq<Transmission>) | Failed(error: Error)

  function Messages(sent: seq<Transmission>): (r: seq<Message>)
    ensures |r| == |sent|
  {
    seq(|sent|, i requires 0 <= i < |sent| => sent[i].message)
  }

  // ----- Counting and recording -----

  function CountOutcome(c: Counters, o: Outcome, channel: Channel): Counters {
    var one := ChannelCounters(1, if o == Received then 1 else 0);
    var d := c.(opportunities := c.opportunities + 1,
                channelA := if channel == ChannelB then c.channelA else
                  ChannelCounters(c.channelA.opportunities + one.opportunities, c.channelA.received + one.received),
                channelB := if channel == ChannelB then
                  ChannelCounters(c.channelB.opportunities + one.opportunities, c.channelB.received + one.received)
                else c.channelB);
    match o
    case StationDisabled => d.(stationDisabled := d.stationDisabled + 1)
    case ChannelDisabled => d.(channelDisabled := d.channelDisabled + 1)
    case OutsideHorizon => d.(outsideHorizon := d.outsideHorizon + 1)
    case InsufficientMargin => d.(insufficientMargin := d.insufficientMargin + 1)
    case ProbabilisticLoss => d.(probabilisticLoss := d.probabilisticLoss + 1)
    case Received => d.(received := d.received + 1)
  }

  function CountBucket(buckets: seq<Bucket>, second: int, received: bool): (r: seq<Bucket>)
    ensures |r| == |buckets|
  {
    var slot := second % RATE_BUCKETS;
    if slot >= |buckets| then buckets
    else
      var b := if buckets[slot].second == second then buckets[slot] else Bucket(second, 0, 0);
      buckets[slot := b.(opportunities := b.opportunities + 1, received := b.received + if received then 1 else 0)]
  }

  /** stationStats.count. */
  function Count(s: Stats, o: Outcome, channel: Channel, second: int): Stats {
    s.(counters := CountOutcome(s.counters, o, channel), buckets := CountBucket(s.buckets, second, o == Received))
  }

  function NewReception(st: Site, sequence: nat, t: Transmission, l: Link): Reception {
    var d := st.definition;
    Reception(st.id, sequence, t.message.sequence, t.message.mmsi, t.channel, t.message.timestamp, t.message.sentence,
              t.name, t.typeId, st.configRevision, st.rfRevision,
              ReceiverSnapshot(d.name, d.latitude, d.longitude, d.height, d.gain, d.feederLoss, d.Receiver(t.channel)), l)
  }

  function LinkOf(w: World, st: Site, t: Transmission): Link {
    w.link(t.latitude, t.longitude, st.definition, t.channel)
  }

  /** What station st makes of t. The draw is not looked at when the probability is 0. */
  function OutcomeOf(w: World, st: Site, t: Transmission): Outcome {
    var l := LinkOf(w, st, t);
    var draw := if l.probability > 0.0 then w.draw(st.id, st.rfRevision, t.message.sequence) else 1.0;
    RadioModel.Decide(st.definition, t.channel, l, draw)
  }

  function SecondOf(w: World, t: Transmission): int {
    (t.message.timestamp - w.start) / SECOND
  }

  /** The batch after evaluating one transmission at the first k stations. */
  datatype Partial = Partial(batch: Batch, received: bool)

  function ReceiveUpTo(w: World, stations: seq<Site>, b: Batch, t: Transmission, k: nat): (r: Option<Partial>)
    requires k <= |stations| == |b.stats|
    ensures r.Some? ==> |r.value.batch.stats| == |b.stats|
  {
    if k == 0 then Some(Partial(b, false))
    else
      var p := ReceiveUpTo(w, stations, b, t, k - 1);
      if p.None? then None else ReceiveAt(w, stations[k - 1], p.value, k - 1, t)
  }

  function ReceiveAt(w: World, st: Site, p: Partial, i: nat, t: Transmission): (r: Option<Partial>)
    requires i < |p.batch.stats|
    ensures r.Some? ==> |r.value.batch.stats| == |p.batch.stats|
  {
    var o := OutcomeOf(w, st, t);
    var stats := Count(p.batch.stats[i], o, t.channel, SecondOf(w, t));
    if o != Received then Some(p.(batch := p.batch.(stats := p.batch.stats[i := stats])))
    else if stats.last == MAX_UINT64 || p.batch.receptions == MAX_UINT64 then None
    else
      var counted := stats.(last := stats.last + 1);
      Some(Partial(p.batch.(stats := p.batch.stats[i := counted], receptions := p.batch.receptions + 1,
                            records := p.batch.records + [NewReception(st, counted.last, t, LinkOf(w, st, t))]), true))
  }

  /** receive: ReceiveAt over all of stations, and one more received transmission if any of them got t. */
  function Receive(w: World, stations: seq<Site>, b: Batch, t: Transmission): (r: Option<Batch>)
    requires |stations| == |b.stats|
    ensures r.Some? ==> |r.value.stats| == |b.stats|
  {
    var p := ReceiveUpTo(w, stations, b, t, |stations|);
    if p.None? then None
    else if p.value.received
    then Some(p.value.batch.(receivedTransmissions := p.value.batch.receivedTransmissions + 1))
    else Some(p.value.batch)
  }

  function ReceiveAll(w: World, stations: seq<Site>, b: Batch, sent: seq<Transmission>): (r: Option<Batch>)
    requires |stations| == |b.stats|
    ensures r.Some? ==> |r.value.stats| == |b.stats|
  {
    if sent == [] then Some(b)
    else
      var p := ReceiveAll(w, stations, b, sent[..|sent| - 1]);
      if p.None? then None else Receive(w, stations, p.value, sent[|sent| - 1])
  }

  predicate Tracks(store: Store, stations: seq<Site>) {
    forall st <- stations :: st.id in store.receivers
  }

  function StageReceptions(store: Store, stations: seq<Site>): (b: Batch)
    requires Tracks(store, stations)
    ensures |b.stats| == |stations|
  {
    Batch(seq(|stations|, i requires 0 <= i < |stations| => store.receivers[stations[i].id].stats), [],
          store.receptions, store.receivedTransmissions)
  }

  // ----- Applying a batch -----

  function Push(rc: Receiver, r: Reception): Receiver {
    if |rc.history| < HISTORY_LIMIT then rc.(history := rc.history + [r])
    else if rc.oldest < |rc.history|
    then rc.(history := rc.history[rc.oldest := r], oldest := (rc.oldest + 1) % HISTORY_LIMIT)
    else rc
  }

  /** What a removal matches: observations of an age, or of a station. */
  datatype Match = Aged(at: int) | Of(stationId: string)

  predicate Matches(m: Match, r: Reception) {
    match m
    case Aged(at) => at - r.timestamp >= EXPIRY_AGE
    case Of(id) => r.stationId == id
  }

  function Drop(observations: seq<Reception>, m: Match): seq<Reception> {
    if observations == [] then []
    else
      var front, last := Drop(observations[..|observations| - 1], m), observations[|observations| - 1];
      if Matches(m, last) then front else front + [last]
  }

  /** The newest timestamp, or the zero time. */
  function NewestTime(observations: seq<Reception>): int {
    if observations == [] then 0
    else Max(NewestTime(observations[..|observations| - 1]), observations[|observations| - 1].timestamp)
  }

  function Prune(t: Target, m: Match): Target {
    var kept := Drop(t.observations, m);
    Target(kept, if |kept| < |t.observations| then NewestTime(kept) else t.receivedAt)
  }

  /** removeObservations: Prune on each target, without those that have nothing left. */
  function RemoveObservations(ts: TargetStore, m: Match): TargetStore {
    ts.(targets := map mmsi | mmsi in ts.targets && Drop(ts.targets[mmsi].observations, m) != []
                   :: Prune(ts.targets[mmsi], m))
  }

  function Expire(ts: TargetStore, at: int): TargetStore {
    RemoveObservations(ts, Aged(at))
  }

  /** Eviction order: older newest observation first, lower MMSI first. */
  predicate EvictedBefore(ts: TargetStore, a: nat, b: nat)
    requires a in ts.targets && b in ts.targets
  {
    ts.targets[a].receivedAt < ts.targets[b].receivedAt
    || (ts.targets[a].receivedAt == ts.targets[b].receivedAt && a < b)
  }

  ghost predicate IsVictim(ts: TargetStore, v: nat) {
    v in ts.targets && forall m <- ts.targets :: m != v ==> EvictedBefore(ts, v, m)
  }

  ghost function Victim(ts: TargetStore): (v: nat)
    requires |ts.targets| > 0
    ensures IsVictim(ts, v)
  {
    VictimExists(ts, ts.targets.Keys);
    assert |ts.targets.Keys| > 0;
    var v :| FirstOf(ts, ts.targets.Keys, v);
    v
  }

  /** v is evicted before every other of the keys. */
  ghost predicate FirstOf(ts: TargetStore, keys: set<nat>, v: nat)
    requires keys <= ts.targets.Keys
  {
    v in keys && forall m <- keys :: m != v ==> EvictedBefore(ts, v, m)
  }

  lemma FirstOfMore(ts: TargetStore, rest: set<nat>, k: nat, v: nat)
    requires rest + {k} <= ts.targets.Keys && FirstOf(ts, rest, v)
    ensures FirstOf(ts, rest + {k}, v) || FirstOf(ts, rest + {k}, k)
  {
  }

  lemma {:induction false} VictimExists(ts: TargetStore, keys: set<nat>)
    requires keys <= ts.targets.Keys
    ensures keys != {} ==> exists v :: FirstOf(ts, keys, v)
    decreases keys
  {
    if k :| k in keys {
      var rest := keys - {k};
      VictimExists(ts, rest);
      assert rest + {k} == keys;
      if rest == {} {
        assert FirstOf(ts, keys, k);
      } else {
        var v :| FirstOf(ts, rest, v);
        FirstOfMore(ts, rest, k, v);
      }
    }
  }

  ghost function Evict(ts: TargetStore): TargetStore
    requires |ts.targets| > 0
  {
    TargetStore(ts.targets - {Victim(ts)}, ts.evictions + 1)
  }

  /** The first observation of the station, or the end. */
  function IndexOf(observations: seq<Reception>, stationId: string): (i: nat)
    ensures i <= |observations|
    ensures i < |observations| ==> observations[i].stationId == stationId
    ensures forall k :: 0 <= k < i ==> observations[k].stationId != stationId
  {
    if observations == [] || observations[0].stationId == stationId then 0
    else 1 + IndexOf(observations[1..], stationId)
  }

  function Observe(observations: seq<Reception>, r: Reception): seq<Reception> {
    var i := IndexOf(observations, r.stationId);
    if i < |observations| then observations[i := r] else observations + [r]
  }

  /** record: Observe on r's target, with Evict first if that target is new and there is no room. */
  ghost function Record(ts: TargetStore, r: Reception): TargetStore {
    var room := if r.mmsi !in ts.targets && |ts.targets| >= TARGET_LIMIT then Evict(ts) else ts;
    var known := if r.mmsi in room.targets then room.targets[r.mmsi].observations else [];
    room.(targets := room.targets[r.mmsi := Target(Observe(known, r), r.timestamp)])
  }

  /** The store while applying records, with the time of the last expiry. */
  datatype Applying = Applying(receivers: map<string, Receiver>, targets: TargetStore, expired: int)

  ghost function ApplyRecord(a: Applying, r: Reception): Applying {
    var current := if r.timestamp > a.expired then a.(targets := Expire(a.targets, r.timestamp), expired := r.timestamp) else a;
    if r.stationId !in current.receivers then current
    else Applying(current.receivers[r.stationId := Push(current.receivers[r.stationId], r)], Record(current.targets, r),
                  current.expired)
  }

  ghost function ApplyRecords(a: Applying, records: seq<Reception>): Applying {
    if records == [] then a
    else ApplyRecord(ApplyRecords(a, records[..|records| - 1]), records[|records| - 1])
  }

  /** The receivers after assigning the staged counters of the first k stations. */
  function SetStats(receivers: map<string, Receiver>, stations: seq<Site>, stats: seq<Stats>, k: nat): (r: map<string, Receiver>)
    requires k <= |stations| == |stats|
    requires forall st <- stations :: st.id in receivers
    ensures r.Keys == receivers.Keys
  {
    if k == 0 then receivers
    else
      var p := SetStats(receivers, stations, stats, k - 1);
      p[stations[k - 1].id := p[stations[k - 1].id].(stats := stats[k - 1])]
  }

  /** applyReceptions. */
  ghost function ApplyReceptions(store: Store, stations: seq<Site>, b: Batch, now: int): Store
    requires Tracks(store, stations) && |stations| == |b.stats|
  {
    var a := ApplyRecords(Applying(SetStats(store.receivers, stations, b.stats, |stations|), store.targets, 0), b.records);
    Store(a.receivers, Expire(a.targets, now), b.receptions, b.receivedTransmissions)
  }

  // ----- Emission -----

  function NextChannel(v: Vessel): Channel {
    if (v.position.mmsi + v.reports) % 2 == 0 then ChannelA else ChannelB
  }

  /** Reports staged so far; stop is why emission ended early. */
  datatype Emitted = Emitted(state: State, sent: seq<Transmission>, stop: Option<Error>)

  /** emit: a report of v where it is; None if it cannot be encoded. */
  function EmitReport(w: World, st: State, v: Vessel): (r: Option<(State, Vessel, Transmission)>) {
    var channel := NextChannel(v);
    var sentence := w.encode(v.position, channel);
    if sentence.None? then None
    else
      var message := Message(st.sequence + 1, v.position.mmsi, v.position.updatedAt, sentence.value);
      Some((st.(sequence := st.sequence + 1), v.(report := message, reports := v.reports + 1),
            Transmission(message, channel, v.position.latitude, v.position.longitude, v.name, v.typeId)))
  }

  function Mod(x: real, m: real): real
    requires m > 0.0
  {
    if x >= 0.0 then x - m * ((x / m).Floor as real) else -(-x - m * ((-x / m).Floor as real))
  }

  /** move: along a great circle to the instant at, with the longitude normalised. */
  function Move(w: World, p: Position, at: int): Position {
    var to := w.sail(p, at);
    p.(latitude := to.latitude, longitude := Mod(to.longitude + 540.0, 360.0) - 180.0, updatedAt := at)
  }

  /** Vessel i moved to at and reported. */
  function EmitVessel(w: World, q: Emitted, at: int, i: nat): (r: Emitted)
    requires i < |q.state.vessels|
    ensures |r.state.vessels| == |q.state.vessels|
  {
    var v := q.state.vessels[i];
    var e := EmitReport(w, q.state, v.(position := Move(w, v.position, at)));
    if e.None? then q.(stop := Some(Encoding))
    else Emitted(e.value.0.(vessels := q.state.vessels[i := e.value.1]), q.sent + [e.value.2], None)
  }

  /** One tick: the first k vessels moved to at and reported. */
  function EmitVessels(w: World, p: Emitted, at: int, k: nat): (r: Emitted)
    requires k <= |p.state.vessels|
    ensures |r.state.vessels| == |p.state.vessels|
  {
    if k == 0 then p
    else
      var q := EmitVessels(w, p, at, k - 1);
      if q.stop.Some? then q else EmitVessel(w, q, at, k - 1)
  }

  function TickAt(w: World, tick: int): int {
    w.start + tick * TICK_INTERVAL
  }

  /** All vessels at one tick instant. */
  function EmitTick(w: World, q: Emitted, at: int): (r: Emitted)
    ensures |r.state.vessels| == |q.state.vessels|
  {
    var r := EmitVessels(w, q, at, |q.state.vessels|);
    if r.stop.Some? then r else r.(state := r.state.(updatedAt := at))
  }

  /** n ticks from tick number first; budget cancellation checks pass before the context is cancelled. */
  function EmitTicks(w: World, p: Emitted, first: int, n: nat, budget: nat): (r: Emitted)
    ensures |r.state.vessels| == |p.state.vessels|
  {
    if n == 0 then p
    else
      var q := EmitTicks(w, p, first, n - 1, budget);
      if q.stop.Some? then q
      else if n > 1 && budget <= n - 1 then q.(stop := Some(Cancelled))
      else EmitTick(w, q, TickAt(w, first + n - 1))
  }

  function SpawnVessel(w: World, st: State, now: int): Vessel {
    var s := w.spawn(st.source);
    Vessel(Position(st.nextMMSI, s.latitude, s.longitude, s.speed, s.course as real, s.course, now),
           "Vessel " + Decimal.Format(if st.nextMMSI >= FIRST_MMSI then st.nextMMSI - FIRST_MMSI + 1 else 0),
           "cargo", Message(0, 0, 0, ""), 0)
  }

  function EmitSpawn(w: World, q: Emitted, now: int): Emitted {
    var drawn := q.state.(source := w.spawn(q.state.source).source);
    var e := EmitReport(w, drawn, SpawnVessel(w, q.state, now));
    if e.None? then Emitted(drawn, q.sent, Some(Encoding))
    else
      Emitted(e.value.0.(vessels := q.state.vessels + [e.value.1], nextMMSI := q.state.nextMMSI + 1),
              q.sent + [e.value.2], None)
  }

  /** k new vessels, each reported at its creation. */
  function EmitNew(w: World, p: Emitted, now: int, k: nat): Emitted {
    if k == 0 then p
    else
      var q := EmitNew(w, p, now, k - 1);
      if q.stop.Some? then q else EmitSpawn(w, q, now)
  }

  // ----- Commands -----

  ghost function Commit(w: World, e: Engine, next: State, sent: seq<Transmission>, b: Batch): Engine
    requires Tracks(e.store, next.stations) && |next.stations| == |b.stats|
  {
    Engine(next, Newest(MESSAGE_LIMIT, e.messages + Messages(sent)),
           ApplyReceptions(e.store, next.stations, b, w.start + next.elapsed))
  }

  /** Evaluates what was emitted and commits, or reports the first failure in emission order. A reception failure
      of an emitted report precedes the failure that stopped emission after it. */
  ghost function Settle(w: World, e: Engine, out: Emitted, next: State, cancelled: bool): Reply
    requires Tracks(e.store, next.stations)
  {
    var b := ReceiveAll(w, next.stations, StageReceptions(e.store, next.stations), out.sent);
    if b.None? then Failed(Limit)
    else if out.stop.Some? then Failed(out.stop.value)
    else if cancelled then Failed(Cancelled)
    else Committed(Commit(w, e, next, out.sent, b.value), out.sent)
  }

  ghost function SetCount(w: World, e: Engine, count: int): Reply
    requires Tracks(e.store, e.state.stations)
  {
    var s := e.state;
    var now, added := w.start + s.elapsed, count - |s.vessels|;
    if count < 0 || count > MAX_VESSELS then Failed(Invalid)
    else if added == 0 then Committed(e, [])
    else if s.revision == MAX_UINT64 then Failed(Limit)
    else if added > 0 && added > MAX_UINT64 - s.sequence then Failed(Limit)
    else
      var revised := s.(revision := s.revision + 1);
      if added < 0 then
        Settle(w, e, Emitted(revised, [], None), revised.(vessels := s.vessels[..count], updatedAt := now), false)
      else
        var out := EmitNew(w, Emitted(revised, [], None), now, added);
        Settle(w, e, out, out.state.(updatedAt := now, stations := s.stations), false)
  }

  /** advance: next is the staged state, whose remainder may already have changed. */
  ghost function AdvanceFrom(w: World, e: Engine, next: State, delta: int, budget: nat): Reply
    requires delta >= 0 && next.elapsed >= 0 && Tracks(e.store, next.stations)
  {
    if budget == 0 then Failed(Cancelled)
    else if delta > MAX_ADVANCE then Failed(Limit)
    else if next.elapsed > MAX_INT64 - delta then Failed(Limit)
    else if w.start + (next.elapsed + delta) >= YEAR_10000 then Failed(Limit)
    else
      var target := next.elapsed + delta;
      var first, ticks := next.elapsed / TICK_INTERVAL + 1, target / TICK_INTERVAL - next.elapsed / TICK_INTERVAL;
      if ticks * |next.vessels| > MAX_UINT64 - next.sequence then Failed(Limit)
      else if delta > 0 && next.revision == MAX_UINT64 then Failed(Limit)
      else
        var revised := if delta > 0 then next.(revision := next.revision + 1) else next;
        var out := EmitTicks(w, Emitted(revised, [], None), first, Max(ticks, 0), budget);
        Settle(w, e, out, out.state.(elapsed := target, stations := next.stations), budget <= Max(ticks, 1))
  }

  ghost function Advance(w: World, e: Engine, delta: int, budget: nat): Reply
    requires e.state.elapsed >= 0 && Tracks(e.store, e.state.stations)
  {
    if delta < 0 then Failed(Invalid) else AdvanceFrom(w, e, e.state, delta, budget)
  }

  /** Elapse scales real time exactly in hundredths of a nanosecond and carries the part below one nanosecond. */
  ghost function Elapse(w: World, e: Engine, delta: int, budget: nat): Reply
    requires e.state.elapsed >= 0 && e.state.speed >= 0 && e.state.remainder >= 0 && Tracks(e.store, e.state.stations)
  {
    var s := e.state;
    if delta < 0 then Failed(Invalid)
    else if s.speed > 0 && delta > (MAX_INT64 - s.remainder) / s.speed then Failed(Limit)
    else
      var scaled := delta * s.speed + s.remainder;
      assert delta * s.speed >= 0;
      AdvanceFrom(w, e, s.(remainder := scaled % SPEED_SCALE), scaled / SPEED_SCALE, budget)
  }

  /** normalizeSpeed: the speed in hundredths. */
  function NormalizeSpeed(speed: real): Option<int> {
    if speed < 0.0 || speed > 100.0 then None
    else
      var scaled := speed * 100.0;
      var h := Round(scaled);
      if scaled - h as real > 0.000001 || h as real - scaled > 0.000001 || (h == 0 && speed != 0.0) then None else Some(h)
  }

  function SetSpeed(e: Engine, speed: real): Reply {
    var h := NormalizeSpeed(speed);
    if h.None? then Failed(Invalid)
    else if h.value == e.state.speed then Committed(e, [])
    else if e.state.revision == MAX_UINT64 then Failed(Limit)
    else Committed(e.(state := e.state.(revision := e.state.revision + 1, speed := h.value)), [])
  }

  // ----- Stations -----

  function StationId(n: nat): string {
    "station-" + Decimal.Format(n)
  }

  function FindStation(stations: seq<Site>, id: string): (i: nat)
    ensures i <= |stations|
    ensures i < |stations| ==> stations[i].id == id
    ensures forall k :: 0 <= k < i ==> stations[k].id != id
  {
    if stations == [] || stations[0].id == id then 0 else 1 + FindStation(stations[1..], id)
  }

  ghost function AddStation(w: World, e: Engine, expected: nat, d: Definition): Reply {
    var s := e.state;
    if !Station.DefinitionValid(d) then Failed(Invalid)
    else if expected != s.stationRevision then Failed(Conflict)
    else if |s.stations| >= MAX_STATIONS then Failed(Limit)
    else if s.lastStationId == MAX_UINT64 || s.stationRevision == MAX_UINT64 || s.revision == MAX_UINT64
    then Failed(Limit)
    else
      var c, now, id := Station.CanonicalForm(d), w.start + s.elapsed, StationId(s.lastStationId + 1);
      Committed(e.(state := s.(lastStationId := s.lastStationId + 1, stationRevision := s.stationRevision + 1,
                               revision := s.revision + 1,
                               stations := s.stations + [Site(id, c, 1, 1, now, now, w.coverage(c))]),
                   store := e.store.(receivers := e.store.receivers[id := NewReceiver()])), [])
  }

  ghost function UpdateStation(w: World, e: Engine, expected: nat, id: string, d: Definition): Reply {
    var s := e.state;
    var i := FindStation(s.stations, id);
    if !Station.DefinitionValid(d) then Failed(Invalid)
    else if expected != s.stationRevision then Failed(Conflict)
    else if i == |s.stations| then Failed(NotFound)
    else
      var st, c := s.stations[i], Station.CanonicalForm(d);
      var rfChanged := st.definition.(name := c.name) != c;
      if st.definition == c then Committed(e, [])
      else if st.configRevision == MAX_UINT64 || s.stationRevision == MAX_UINT64 || s.revision == MAX_UINT64
              || (rfChanged && st.rfRevision == MAX_UINT64)
      then Failed(Limit)
      else
        var renamed := st.(definition := c, configRevision := st.configRevision + 1);
        var changed := if rfChanged then renamed.(rfRevision := st.rfRevision + 1, rfUpdatedAt := w.start + s.elapsed,
                                                  coverage := w.coverage(c)) else renamed;
        Committed(e.(state := s.(stations := s.stations[i := changed], stationRevision := s.stationRevision + 1,
                                 revision := s.revision + 1)), [])
  }

  function RemoveStation(e: Engine, expected: nat, id: string): Reply {
    var s := e.state;
    var i := FindStation(s.stations, id);
    if expected != s.stationRevision then Failed(Conflict)
    else if i == |s.stations| then Failed(NotFound)
    else if s.stationRevision == MAX_UINT64 || s.revision == MAX_UINT64 then Failed(Limit)
    else
      Committed(e.(state := s.(stations := s.stations[..i] + s.stations[i + 1..],
                               stationRevision := s.stationRevision + 1, revision := s.revision + 1),
                   store := e.store.(receivers := e.store.receivers - {id},
                                     targets := RemoveObservations(e.store.targets, Of(id)))), [])
  }

  // ----- Runs -----

  datatype Command = SetCountTo(count: int) | AdvanceBy(delta: int, budget: nat) | ElapseBy(delta: int, budget: nat)
                   | SetSpeedTo(speed: real) | Add(expected: nat, definition: Definition)
                   | Update(expected: nat, id: string, definition: Definition) | Remove(expected: nat, id: string)

  /** What every command relies on. */
  ghost predicate Ready(e: Engine) {
    && e.state.elapsed >= 0 && e.state.speed >= 0 && e.state.remainder >= 0
    && Tracks(e.store, e.state.stations)
  }

  ghost function Execute(w: World, e: Engine, c: Command): Reply
    requires Ready(e)
  {
    match c
    case SetCountTo(count) => SetCount(w, e, count)
    case AdvanceBy(delta, budget) => Advance(w, e, delta, budget)
    case ElapseBy(delta, budget) => Elapse(w, e, delta, budget)
    case SetSpeedTo(speed) => SetSpeed(e, speed)
    case Add(expected, definition) => AddStation(w, e, expected, definition)
    case Update(expected, id, definition) => UpdateStation(w, e, expected, id, definition)
    case Remove(expected, id) => RemoveStation(e, expected, id)
  }

  /** The engine after a command; a failed command leaves it unchanged. */
  ghost function After(w: World, e: Engine, c: Command): Engine
    requires Ready(e)
  {
    match Execute(w, e, c)
    case Committed(next, _) => next
    case Failed(_) => e
  }

  function NewSites(w: World, definitions: seq<Definition>): (r: seq<Site>)
    ensures |r| == |definitions|
  {
    if definitions == [] then []
    else
      var n := |definitions| - 1;
      var c := Station.CanonicalForm(definitions[n]);
      NewSites(w, definitions[..n]) + [Site(StationId(n + 1), c, 1, 1, w.start, w.start, w.coverage(c))]
  }

  /** The engine before its initial vessels. */
  function Blank(w: World, source: nat, speed: int, definitions: seq<Definition>): Engine {
    var sites := NewSites(w, definitions);
    Engine(State(0, source, [], FIRST_MMSI, 0, 0, 0, speed, w.start, sites, |sites|, 1), [],
           Store(map st <- sites :: st.id := NewReceiver(), TargetStore(map[], 0), 0, 0))
  }

  ghost predicate ConfigValid(w: World, count: int, speed: real, definitions: seq<Definition>) {
    && w.id != "" && 0 < w.start < YEAR_10000 && 0 <= count <= MAX_VESSELS
    && NormalizeSpeed(speed).Some? && Station.TransmitterValid(w.transmitter)
    && |definitions| <= MAX_STATIONS && forall d <- definitions :: Station.DefinitionValid(d)
  }

  /** New. */
  ghost function New(w: World, source: nat, count: int, speed: real, definitions: seq<Definition>): Reply {
    if !ConfigValid(w, count, speed, definitions) then Failed(Invalid)
    else
      var blank := Blank(w, source, NormalizeSpeed(speed).value, definitions);
      match SetCount(w, blank, count)
      case Failed(error) => Failed(error)
      case Committed(e, sent) => Committed(e.(state := e.state.(revision := 1)), sent)
  }
}
