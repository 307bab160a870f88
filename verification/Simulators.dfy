/** The simulator object: every method stages a copy, changes only the copy, and publishes it after the last step that
    can fail (simulation/simulator.go, station.go). Each one leaves exactly the engine its specification describes,
    and a failing one leaves the object as it was. */
module Simulators {
  import opened Basics
  import opened Model
  import opened Worlds
  import opened Engine
  import opened Stores
  import opened Targets
  import opened Runs
  import opened Reachable
  import opened Split
  import Spec = Engine
  import Station

  datatype Result<+T> = Success(value: T) | Failure(error: Error)

  /** What a caller sees of a command: its reply, and the engine before and after it. */
  ghost predicate Answers(before: Engine, q: Reply, ok: bool, error: Error, after: Engine) {
    match q
    case Failed(e) => !ok && error == e && after == before
    case Committed(next, _) => ok && after == next
  }

  ghost predicate Sends(before: Engine, q: Reply, r: Result<seq<Message>>, after: Engine) {
    match q
    case Failed(error) => r == Failure(error) && after == before
    case Committed(next, sent) => r == Success(Messages(sent)) && after == next
  }

  // ----- Staged receptions -----

  lemma ReceivedFromStations(w: World, stations: seq<Site>, b: Batch, t: Transmission, k: nat)
    requires k <= |stations| == |b.stats|
    ensures ReceiveUpTo(w, stations, b, t, k).Some? ==>
              forall r <- ReceiveUpTo(w, stations, b, t, k).value.batch.records ::
                r in b.records || exists st <- stations :: st.id == r.stationId
  {
    hide Count, OutcomeOf;
    if k > 0 {
      ReceivedFromStations(w, stations, b, t, k - 1);
      assert stations[k - 1] in stations;
    }
  }

  lemma {:induction false} AllFromStations(w: World, stations: seq<Site>, b: Batch, sent: seq<Transmission>)
    requires |stations| == |b.stats|
    ensures ReceiveAll(w, stations, b, sent).Some? ==>
              forall r <- ReceiveAll(w, stations, b, sent).value.records ::
                r in b.records || exists st <- stations :: st.id == r.stationId
  {
    hide ReceiveUpTo;
    if sent != [] {
      var n := |sent| - 1;
      AllFromStations(w, stations, b, sent[..n]);
      var p := ReceiveAll(w, stations, b, sent[..n]);
      if p.Some? {
        ReceivedFromStations(w, stations, p.value, sent[n], |stations|);
      }
    }
  }

  /** A prefix that cannot be received keeps the whole from being received. */
  lemma PrefixFails(w: World, stations: seq<Site>, b: Batch, x: seq<Transmission>, y: seq<Transmission>)
    requires |stations| == |b.stats| && x <= y && ReceiveAll(w, stations, b, x).None?
    ensures ReceiveAll(w, stations, b, y).None?
  {
    hide ReceiveAll;
    ReceiveAllConcat(w, stations, b, x, y[|x|..]);
    assert x + y[|x|..] == y;
  }

  // ----- Emission that stops stays stopped, and reports are never taken back -----

  lemma {:induction false} NewGoesOn(w: World, p: Emitted, now: int, k: nat, n: nat)
    requires k <= n
    ensures EmitNew(w, p, now, k).sent <= EmitNew(w, p, now, n).sent
    ensures EmitNew(w, p, now, k).stop.Some? ==> EmitNew(w, p, now, n) == EmitNew(w, p, now, k)
  {
    hide SpawnVessel;
    if k < n {
      NewGoesOn(w, p, now, k, n - 1);
    }
  }

  lemma VesselGoesOn(w: World, q: Emitted, at: int, i: nat)
    requires i < |q.state.vessels|
    ensures q.sent <= EmitVessel(w, q, at, i).sent
  {
    hide Move, EmitReport;
  }

  lemma {:induction false} VesselsGoOn(w: World, p: Emitted, at: int, k: nat, n: nat)
    requires k <= n <= |p.state.vessels|
    ensures EmitVessels(w, p, at, k).sent <= EmitVessels(w, p, at, n).sent
    ensures EmitVessels(w, p, at, k).stop.Some? ==> EmitVessels(w, p, at, n) == EmitVessels(w, p, at, k)
  {
    hide EmitVessel;
    if k < n {
      VesselsGoOn(w, p, at, k, n - 1);
      VesselGoesOn(w, EmitVessels(w, p, at, n - 1), at, n - 1);
    }
  }

  lemma {:induction false} TicksGoOn(w: World, p: Emitted, first: int, k: nat, n: nat, budget: nat)
    requires k <= n
    ensures EmitTicks(w, p, first, k, budget).sent <= EmitTicks(w, p, first, n, budget).sent
    ensures EmitTicks(w, p, first, k, budget).stop.Some? ==>
              EmitTicks(w, p, first, n, budget) == EmitTicks(w, p, first, k, budget)
  {
    hide EmitVessels;
    if k < n {
      TicksGoOn(w, p, first, k, n - 1, budget);
      var q := EmitTicks(w, p, first, n - 1, budget);
      EmitNone(w, q, TickAt(w, first + n - 1));
      VesselsGoOn(w, q, TickAt(w, first + n - 1), 0, |q.state.vessels|);
    }
  }

  lemma EmitNone(w: World, p: Emitted, at: int)
    ensures EmitVessels(w, p, at, 0) == p
  {
  }

  lemma SoundAfter(w: World, e: Engine, c: Command)
    requires WorldSound(w) && Sound(w, e)
    ensures Ready(e) && Sound(w, After(w, e, c))
  {
    hide Inv, WorldSound, Execute, TraceAfter;
    var tr :| Inv(w, e, tr);
    CommandKeepsInv(w, e, tr, c);
  }

  ghost predicate SoundReply(w: World, q: Reply) {
    q.Committed? ==> Sound(w, q.engine)
  }

  lemma SoundSetCount(w: World, e: Engine, count: int)
    requires WorldSound(w) && Sound(w, e)
    ensures Ready(e) && SoundReply(w, SetCount(w, e, count))
  {
    hide Sound, WorldSound, SetCount, Ready;
    SoundAfter(w, e, SetCountTo(count));
  }

  lemma SoundAdvance(w: World, e: Engine, delta: int, budget: nat)
    requires WorldSound(w) && Sound(w, e)
    ensures Ready(e) && SoundReply(w, Advance(w, e, delta, budget))
  {
    hide Sound, WorldSound, Advance;
    SoundAfter(w, e, AdvanceBy(delta, budget));
  }

  lemma SoundElapse(w: World, e: Engine, delta: int, budget: nat)
    requires WorldSound(w) && Sound(w, e)
    ensures Ready(e) && SoundReply(w, Elapse(w, e, delta, budget))
  {
    hide Sound, WorldSound, Elapse;
    SoundAfter(w, e, ElapseBy(delta, budget));
  }

  lemma SoundSetSpeed(w: World, e: Engine, speed: real)
    requires WorldSound(w) && Sound(w, e)
    ensures SoundReply(w, SetSpeed(e, speed))
  {
    hide Sound, WorldSound, SetSpeed, Ready;
    SoundAfter(w, e, SetSpeedTo(speed));
  }

  lemma SoundAdd(w: World, e: Engine, expected: nat, d: Definition)
    requires WorldSound(w) && Sound(w, e)
    ensures SoundReply(w, AddStation(w, e, expected, d))
  {
    hide Sound, WorldSound, AddStation, Ready;
    SoundAfter(w, e, Add(expected, d));
  }

  lemma SoundUpdate(w: World, e: Engine, expected: nat, id: string, d: Definition)
    requires WorldSound(w) && Sound(w, e)
    ensures SoundReply(w, UpdateStation(w, e, expected, id, d))
  {
    hide Sound, WorldSound, UpdateStation, Ready;
    SoundAfter(w, e, Update(expected, id, d));
  }

  lemma SoundRemove(w: World, e: Engine, expected: nat, id: string)
    requires WorldSound(w) && Sound(w, e)
    ensures SoundReply(w, RemoveStation(e, expected, id))
  {
    hide Sound, WorldSound, RemoveStation, Ready;
    SoundAfter(w, e, Remove(expected, id));
  }

  lemma SoundReady(w: World, e: Engine)
    requires Sound(w, e)
    ensures Ready(e) && e.store.receivers.Keys == Ids(e.state.stations)
    ensures 0 <= e.state.remainder < SPEED_SCALE && |e.state.vessels| <= MAX_VESSELS
  {
    hide Inv;
    var tr :| Inv(w, e, tr);
    InvReady(w, e, tr);
    InvKeys(w, e, tr);
    InvClock(w, e, tr);
  }

  class Simulator {
    const world: World
    var state: State
    var messages: seq<Message>
    const store: ReceptionStore

    ghost function Value(): Engine
      reads this, store, store.stations.Values
    {
      Engine(state, messages, store.Value())
    }

    /** The engine is one that a run can reach. */
    ghost predicate Valid()
      reads this, store, store.stations.Values
    {
      WorldSound(world) && store.Valid() && Sound(world, Value())
    }

    constructor (world: World, state: State, store: ReceptionStore)
      ensures this.world == world && this.state == state && this.messages == [] && this.store == store
    {
      this.world, this.state, this.messages, this.store := world, state, [], store;
    }

    /** The loop over stations on a local copy of the batch; None leaves nothing to undo. */
    method Receive(batch: Batch, stations: seq<Site>, t: Transmission) returns (r: Option<Batch>)
      requires |stations| == |batch.stats|
      ensures r == Spec.Receive(world, stations, batch, t)
    {
      hide Count, NewReception, OutcomeOf, LinkOf, SecondOf;
      var next, received := batch, false;
      for i := 0 to |stations|
        invariant |next.stats| == |stations|
        invariant ReceiveUpTo(world, stations, batch, t, i) == Some(Partial(next, received))
      {
        var st := stations[i];
        var l := LinkOf(world, st, t);
        var o := OutcomeOf(world, st, t);
        var stats := Count(next.stats[i], o, t.channel, SecondOf(world, t));
        if o == Received {
          if stats.last == MAX_UINT64 || next.receptions == MAX_UINT64 {
            UpToFails(world, stations, batch, t, i + 1);
            return None;
          }
          stats := stats.(last := stats.last + 1);
          next := next.(receptions := next.receptions + 1, records := next.records + [NewReception(st, stats.last, t, l)]);
          received := true;
        }
        next := next.(stats := next.stats[i := stats]);
      }
      if received {
        next := next.(receivedTransmissions := next.receivedTransmissions + 1);
      }
      r := Some(next);
    }
  
    /** New vessels one by one: each is reported and received before the next is created. */
    method EmitNewVessels(start: State, staged: Batch, now: int, added: nat)
      returns (error: Option<Error>, next: State, ghost sent: seq<Transmission>, reports: seq<Message>, batch: Batch)
      requires |start.stations| == |staged.stats|
      ensures var out := EmitNew(world, Emitted(start, [], None), now, added);
              var b := ReceiveAll(world, start.stations, staged, out.sent);
              && error == (if b.None? then Some(Limit) else out.stop)
              && (error.None? ==> next == out.state && sent == out.sent && Some(batch) == b && reports == Messages(sent))
    {
      hide Spec.EmitNew, Spec.ReceiveAll, Spec.Receive, Spec.SpawnVessel, Spec.EmitReport;
      ghost var base := Emitted(start, [], None);
      next, batch, sent, reports := start, staged, [], [];
      NothingReceived(world, start.stations, batch);
      EmitNoneNew(world, base, now);
      for i := 0 to added
        invariant |batch.stats| == |start.stations|
        invariant Emitted(next, sent, None) == EmitNew(world, base, now, i)
        invariant Some(batch) == ReceiveAll(world, start.stations, staged, sent)
        invariant reports == Messages(sent)
      {
        NewStep(world, base, now, i);
        NewGoesOn(world, base, now, i + 1, added);
        var emitted := EmitReport(world, next.(source := world.spawn(next.source).source), SpawnVessel(world, next, now));
        if emitted.None? {
          return Some(Encoding), next, sent, reports, batch;
        }
        var t := emitted.value.2;
        var received := Receive(batch, start.stations, t);
        ReceiveOneMore(world, start.stations, staged, sent, t);
        sent := sent + [t];
        if received.None? {
          PrefixFails(world, start.stations, staged, sent, EmitNew(world, base, now, added).sent);
          return Some(Limit), next, sent, reports, batch;
        }
        batch := received.value;
        next := emitted.value.0.(vessels := next.vessels + [emitted.value.1], nextMMSI := next.nextMMSI + 1);
        reports := reports + [t.message];
      }
      error := None;
    }

    /** Publishes a successful mutation; it cannot fail. */
    method Commit(next: State, ghost sent: seq<Transmission>, reports: seq<Message>, batch: Batch)
      requires store.Valid() && |batch.stats| == |next.stations| && Tracks(store.Value(), next.stations)
      requires reports == Messages(sent)
      requires forall r <- batch.records :: exists st <- next.stations :: st.id == r.stationId
      modifies this`state, this`messages, store`targets, store`evictions, store`receptions, store`receivedTransmissions,
               store.stations.Values
      ensures store.Valid() && Value() == Spec.Commit(world, old(Value()), next, sent, batch)
    {
      hide ApplyReceptions, Messages, store.Receivers, store.StationsValid, store.TargetsValue;
      state := next;
      var all := messages + reports;
      var excess := |all| - MESSAGE_LIMIT;
      messages := if excess > 0 then all[excess..] else all;
      assert messages == Newest(MESSAGE_LIMIT, old(messages) + reports);
      hide Newest;
      store.Apply(next.stations, batch, world.start + next.elapsed);
    }

    method StageReceptions() returns (batch: Batch)
      requires forall st <- state.stations :: st.id in store.stations
      ensures Tracks(store.Value(), state.stations) && batch == Spec.StageReceptions(store.Value(), state.stations)
      ensures batch.records == []
    {
      var stats: seq<Stats> := [];
      for i := 0 to |state.stations|
        invariant |stats| == i
        invariant forall k :: 0 <= k < i ==> stats[k] == store.Receivers()[state.stations[k].id].stats
      {
        stats := stats + [store.stations[state.stations[i].id].stats];
      }
      batch := Batch(stats, [], store.receptions, store.receivedTransmissions);
    }

    method SetCount(count: int) returns (r: Result<seq<Message>>)
      requires Valid()
      modifies this`state, this`messages, store`targets, store`evictions, store`receptions, store`receivedTransmissions,
               store.stations.Values
      ensures Valid() && Ready(old(Value()))
      ensures Sends(old(Value()), Spec.SetCount(world, old(Value()), count), r, Value())
    {
      hide Sound, WorldSound, Spec.EmitNew, Spec.ReceiveAll, Spec.StageReceptions, Spec.Commit, store.Receivers,
           store.StationsValid, store.TargetsValue;
      ghost var e := Value();
      SoundReady(world, e);
      SoundSetCount(world, e, count);
      if count < 0 || count > MAX_VESSELS {
        return Failure(Invalid);
      }
      var next := state;
      var now, added := world.start + next.elapsed, count - |next.vessels|;
      if added == 0 {
        return Success([]);
      }
      if next.revision == MAX_UINT64 || (added > 0 && added > MAX_UINT64 - next.sequence) {
        return Failure(Limit);
      }
      next := next.(revision := next.revision + 1);
      var batch := StageReceptions();
      NothingReceived(world, next.stations, batch);
      if added < 0 {
        next := next.(vessels := next.vessels[..count], updatedAt := now);
        Commit(next, [], [], batch);
        return Success([]);
      }
      AllFromStations(world, state.stations, batch, EmitNew(world, Emitted(next, [], None), now, added).sent);
      NewKeepsStations(world, Emitted(next, [], None), now, added);
      var error, grown, sent, reports, received := EmitNewVessels(next, batch, now, added);
      if error.Some? {
        return Failure(error.value);
      }
      Commit(grown.(updatedAt := now), sent, reports, received);
      r := Success(reports);
    }
  
    /** One tick: each vessel moves, reports and is received before the next moves. */
    method EmitOneTick(start: State, before: seq<Message>, staged: Batch, at: int)
      returns (error: Option<Error>, next: State, ghost sent: seq<Transmission>, reports: seq<Message>, batch: Batch)
      requires |start.stations| == |staged.stats|
      ensures var out := EmitTick(world, Emitted(start, [], None), at);
              var b := ReceiveAll(world, start.stations, staged, out.sent);
              && error == (if b.None? then Some(Limit) else out.stop)
              && (error.None? ==>
                    && next == out.state && sent == out.sent && Some(batch) == b
                    && reports == before + Messages(sent) && |batch.stats| == |staged.stats|)
    {
      hide Spec.EmitVessels, Spec.ReceiveAll, Spec.Receive, Spec.Move, Spec.EmitReport;
      ghost var base, n := Emitted(start, [], None), |start.vessels|;
      next, batch, sent, reports := start, staged, [], before;
      NothingReceived(world, start.stations, batch);
      EmitNone(world, base, at);
      for i := 0 to |start.vessels|
        invariant |batch.stats| == |start.stations| && |next.vessels| == |start.vessels|
        invariant Emitted(next, sent, None) == EmitVessels(world, base, at, i)
        invariant Some(batch) == ReceiveAll(world, start.stations, staged, sent)
        invariant reports == before + Messages(sent)
      {
        VesselStep(world, base, at, i);
        VesselsGoOn(world, base, at, i + 1, n);
        var vessel := next.vessels[i];
        var emitted := EmitReport(world, next, vessel.(position := Move(world, vessel.position, at)));
        if emitted.None? {
          return Some(Encoding), next, sent, reports, batch;
        }
        var t := emitted.value.2;
        var received := Receive(batch, start.stations, t);
        ReceiveOneMore(world, start.stations, staged, sent, t);
        MessagesConcat(sent, [t]);
        sent := sent + [t];
        if received.None? {
          PrefixFails(world, start.stations, staged, sent, EmitVessels(world, base, at, n).sent);
          return Some(Limit), next, sent, reports, batch;
        }
        batch := received.value;
        next := emitted.value.0.(vessels := next.vessels[i := emitted.value.1]);
        reports := reports + [t.message];
      }
      next := next.(updatedAt := at);
      error := None;
    }

    /** Every due tick in turn. The context outlives budget checks; one precedes each tick but the first, whose check
        the caller made, and one follows the last. */
    method EmitDueTicks(start: State, staged: Batch, first: int, ticks: nat, budget: nat)
      returns (error: Option<Error>, next: State, ghost sent: seq<Transmission>, reports: seq<Message>, batch: Batch)
      requires |start.stations| == |staged.stats|
      ensures var out := EmitTicks(world, Emitted(start, [], None), first, ticks, budget);
              var b := ReceiveAll(world, start.stations, staged, out.sent);
              && error == (if b.None? then Some(Limit) else if out.stop.Some? then out.stop
                           else if budget <= Max(ticks, 1) then Some(Cancelled) else None)
              && (error.None? ==> next == out.state && sent == out.sent && Some(batch) == b && reports == Messages(sent))
    {
      hide Spec.EmitTicks, Spec.EmitTick, Spec.ReceiveAll;
      ghost var base := Emitted(start, [], None);
      next, batch, sent, reports := start, staged, [], [];
      NothingReceived(world, start.stations, batch);
      NoTicks(world, base, first, budget);
      for n := 0 to ticks
        invariant |batch.stats| == |start.stations| && next.stations == start.stations
        invariant Emitted(next, sent, None) == EmitTicks(world, base, first, n, budget)
        invariant Some(batch) == ReceiveAll(world, start.stations, staged, sent)
        invariant reports == Messages(sent)
      {
        TickStep(world, base, first, n, budget);
        TicksGoOn(world, base, first, n + 1, ticks, budget);
        if n > 0 && budget <= n {
          return Some(Cancelled), next, sent, reports, batch;
        }
        var at := TickAt(world, first + n);
        ghost var q := Emitted(next, [], None);
        EmitTickShifts(world, q, at, sent);
        ReceiveAllConcat(world, start.stations, staged, sent, EmitTick(world, q, at).sent);
        TickKeepsStations(world, q, at);
        var failed, after, more, reported, received := EmitOneTick(next, reports, batch, at);
        if failed.Some? {
          if ReceiveAll(world, start.stations, batch, EmitTick(world, q, at).sent).None? {
            PrefixFails(world, start.stations, staged, sent + EmitTick(world, q, at).sent,
                        EmitTicks(world, base, first, ticks, budget).sent);
          }
          return failed, next, sent, reports, batch;
        }
        MessagesConcat(sent, more);
        next, sent, reports, batch := after, sent + more, reported, received;
      }
      error := if budget <= Max(ticks, 1) then Some(Cancelled) else None;
    }
  
    /** The ticks of an advance whose checks passed, and its commit. */
    method FinishAdvance(ghost staged: State, next: State, target: int, first: int, ticks: nat, budget: nat)
      returns (r: Result<seq<Message>>)
      requires WorldSound(world) && store.Valid() && Ready(Value())
      requires store.stations.Keys == Ids(state.stations) && next.stations == staged.stations == state.stations
      modifies this`state, this`messages, store`targets, store`evictions, store`receptions, store`receivedTransmissions,
               store.stations.Values
      ensures store.Valid() && Tracks(old(Value()).store, staged.stations)
      ensures var out := EmitTicks(world, Emitted(next, [], None), first, ticks, budget);
              Sends(old(Value()), Spec.Settle(world, old(Value()), out, out.state.(elapsed := target, stations := staged.stations),
                                              budget <= Max(ticks, 1)), r, Value())
    {
      hide WorldSound, Spec.EmitTicks, Spec.ReceiveAll, Spec.StageReceptions, Spec.Commit, store.Receivers,
           store.StationsValid, store.TargetsValue;
      var batch := StageReceptions();
      ghost var base := Emitted(next, [], None);
      TicksKeepStations(world, base, first, ticks, budget);
      AllFromStations(world, state.stations, batch, EmitTicks(world, base, first, ticks, budget).sent);
      var error, moved, sent, reports, received := EmitDueTicks(next, batch, first, ticks, budget);
      if error.Some? {
        return Failure(error.value);
      }
      Commit(moved.(elapsed := target), sent, reports, received);
      r := Success(reports);
    }

    /** AdvanceFrom on the object: everything before Commit happens on copies. */
    method AdvanceStaged(staged: State, delta: int, budget: nat) returns (r: Result<seq<Message>>)
      requires WorldSound(world) && store.Valid() && Ready(Value())
      requires store.stations.Keys == Ids(state.stations)
      requires staged == state.(remainder := staged.remainder) && staged.remainder >= 0 && delta >= 0
      modifies this`state, this`messages, store`targets, store`evictions, store`receptions, store`receivedTransmissions,
               store.stations.Values
      ensures store.Valid() && Tracks(old(Value()).store, staged.stations)
      ensures Sends(old(Value()), AdvanceFrom(world, old(Value()), staged, delta, budget), r, Value())
    {
      hide WorldSound, Spec.EmitTicks, Spec.ReceiveAll, Spec.StageReceptions, Spec.Commit, AdvanceFrom, store.Receivers,
           store.StationsValid, store.TargetsValue;
      ghost var e := Value();
      AdvanceStops(world, e, staged, delta, budget);
      var next := staged;
      if budget == 0 {
        return Failure(Cancelled);
      }
      if delta > MAX_ADVANCE || next.elapsed > MAX_INT64 - delta {
        return Failure(Limit);
      }
      var target := next.elapsed + delta;
      if world.start + target >= YEAR_10000 {
        return Failure(Limit);
      }
      var first, last := next.elapsed / TICK_INTERVAL + 1, target / TICK_INTERVAL;
      TicksNonnegative(staged.elapsed, delta);
      var ticks := Max(last - first + 1, 0);
      if ticks * |next.vessels| > MAX_UINT64 - next.sequence {
        return Failure(Limit);
      }
      if delta > 0 {
        if next.revision == MAX_UINT64 {
          return Failure(Limit);
        }
        next := next.(revision := next.revision + 1);
      }
      r := FinishAdvance(staged, next, target, first, ticks, budget);
    }

    method Advance(delta: int, budget: nat) returns (r: Result<seq<Message>>)
      requires Valid()
      modifies this`state, this`messages, store`targets, store`evictions, store`receptions, store`receivedTransmissions,
               store.stations.Values
      ensures Valid() && Ready(old(Value()))
      ensures Sends(old(Value()), Spec.Advance(world, old(Value()), delta, budget), r, Value())
    {
      hide Sound, WorldSound, AdvanceFrom, store.Receivers, store.StationsValid, store.TargetsValue;
      SoundReady(world, Value());
      SoundAdvance(world, Value(), delta, budget);
      if delta < 0 {
        return Failure(Invalid);
      }
      r := AdvanceStaged(state, delta, budget);
    }

    method Elapse(delta: int, budget: nat) returns (r: Result<seq<Message>>)
      requires Valid()
      modifies this`state, this`messages, store`targets, store`evictions, store`receptions, store`receivedTransmissions,
               store.stations.Values
      ensures Valid() && Ready(old(Value()))
      ensures Sends(old(Value()), Spec.Elapse(world, old(Value()), delta, budget), r, Value())
    {
      hide Sound, WorldSound, AdvanceFrom, store.Receivers, store.StationsValid, store.TargetsValue;
      SoundReady(world, Value());
      SoundElapse(world, Value(), delta, budget);
      if delta < 0 {
        return Failure(Invalid);
      }
      var next := state;
      if next.speed > 0 && delta > (MAX_INT64 - next.remainder) / next.speed {
        return Failure(Limit);
      }
      assert delta * next.speed >= 0;
      var scaled := delta * next.speed + next.remainder;
      next := next.(remainder := scaled % SPEED_SCALE);
      r := AdvanceStaged(next, scaled / SPEED_SCALE, budget);
    }

    method SetSpeed(speed: real) returns (ok: bool, error: Error)
      requires Valid()
      modifies this`state
      ensures Valid()
      ensures Answers(old(Value()), Spec.SetSpeed(old(Value()), speed), ok, error, Value())
    {
      hide Sound, WorldSound, Spec.NormalizeSpeed, store.Receivers, store.StationsValid, store.TargetsValue;
      SoundSetSpeed(world, Value(), speed);
      var hundredths := NormalizeSpeed(speed);
      if hundredths.None? {
        return false, Invalid;
      }
      if hundredths.value == state.speed {
        return true, Invalid;
      }
      if state.revision == MAX_UINT64 {
        return false, Limit;
      }
      state := state.(revision := state.revision + 1, speed := hundredths.value);
      ok, error := true, Invalid;
    }
  
    /** On success r is the new ID, one past the last one ever given. */
    method AddStation(expected: nat, definition: Definition) returns (r: Result<string>)
      requires Valid()
      modifies this`state, store`stations
      ensures Valid() && fresh(store.stations.Values - old(store.stations.Values))
      ensures Answers(old(Value()), Spec.AddStation(world, old(Value()), expected, definition),
                      r.Success?, if r.Failure? then r.error else Invalid, Value())
      ensures r.Success? ==> r.value == StationId(old(state.lastStationId) + 1)
    {
      hide Sound, WorldSound, StationId, Station.DefinitionValid, Station.CanonicalForm, store.Receivers, store.StationsValid,
           store.TargetsValue;
      SoundAdd(world, Value(), expected, definition);
      var canonical := Station.CanonicalStation(definition);
      if canonical.None? {
        return Failure(Invalid);
      }
      if expected != state.stationRevision {
        return Failure(Conflict);
      }
      if |state.stations| >= MAX_STATIONS {
        return Failure(Limit);
      }
      if state.lastStationId == MAX_UINT64 || state.stationRevision == MAX_UINT64 || state.revision == MAX_UINT64 {
        return Failure(Limit);
      }
      var now, id := world.start + state.elapsed, StationId(state.lastStationId + 1);
      var station := Site(id, canonical.value, 1, 1, now, now, world.coverage(canonical.value));
      state := state.(lastStationId := state.lastStationId + 1, stations := state.stations + [station],
                      stationRevision := state.stationRevision + 1, revision := state.revision + 1);
      store.AddStation(id);
      r := Success(id);
    }

    method UpdateStation(expected: nat, id: string, definition: Definition) returns (ok: bool, error: Error)
      requires Valid()
      modifies this`state
      ensures Valid()
      ensures Answers(old(Value()), Spec.UpdateStation(world, old(Value()), expected, id, definition), ok, error, Value())
    {
      hide Sound, WorldSound, Station.DefinitionValid, Station.CanonicalForm, store.Receivers, store.StationsValid,
           store.TargetsValue, FindStation;
      SoundUpdate(world, Value(), expected, id, definition);
      var checked := Station.CanonicalStation(definition);
      if checked.None? {
        return false, Invalid;
      }
      var canonical := checked.value;
      if expected != state.stationRevision {
        return false, Conflict;
      }
      var i := FindStation(state.stations, id);
      if i == |state.stations| {
        return false, NotFound;
      }
      var station := state.stations[i];
      if station.definition == canonical {
        return true, Invalid;
      }
      var named := station.definition.(name := canonical.name);
      var rfChanged := named != canonical;
      if station.configRevision == MAX_UINT64 || state.stationRevision == MAX_UINT64 || state.revision == MAX_UINT64
         || (rfChanged && station.rfRevision == MAX_UINT64) {
        return false, Limit;
      }
      station := station.(definition := canonical, configRevision := station.configRevision + 1);
      if rfChanged {
        station := station.(rfRevision := station.rfRevision + 1, rfUpdatedAt := world.start + state.elapsed,
                            coverage := world.coverage(canonical));
      }
      state := state.(stations := state.stations[i := station]);
      state := state.(stationRevision := state.stationRevision + 1);
      state := state.(revision := state.revision + 1);
      ok, error := true, Invalid;
    }

    method RemoveStation(expected: nat, id: string) returns (ok: bool, error: Error)
      requires Valid()
      modifies this`state, store
      ensures Valid() && store.stations.Values <= old(store.stations.Values)
      ensures Answers(old(Value()), Spec.RemoveStation(old(Value()), expected, id), ok, error, Value())
    {
      hide Sound, WorldSound, store.Receivers, store.StationsValid, store.TargetsValue, FindStation, Spec.RemoveObservations;
      SoundRemove(world, Value(), expected, id);
      if expected != state.stationRevision {
        return false, Conflict;
      }
      var i := FindStation(state.stations, id);
      if i == |state.stations| {
        return false, NotFound;
      }
      if state.stationRevision == MAX_UINT64 || state.revision == MAX_UINT64 {
        return false, Limit;
      }
      state := state.(stations := state.stations[..i] + state.stations[i + 1..]);
      store.RemoveStation(id);
      state := state.(stationRevision := state.stationRevision + 1);
      state := state.(revision := state.revision + 1);
      ok, error := true, Invalid;
    }
  }

  ghost predicate AllValid(definitions: seq<Definition>) {
    forall d <- definitions :: Station.DefinitionValid(d)
  }

  lemma OneMoreValid(definitions: seq<Definition>, i: nat)
    requires i < |definitions|
    ensures AllValid(definitions[..i + 1]) <==> AllValid(definitions[..i]) && Station.DefinitionValid(definitions[i])
    ensures AllValid(definitions) ==> Station.DefinitionValid(definitions[i])
  {
    hide Station.DefinitionValid;
    assert definitions[..i + 1] == definitions[..i] + [definitions[i]];
    assert definitions[i] in definitions;
  }

  /** newStations: the initial definitions with IDs in order, or None for too many or an invalid one. */
  method NewStations(world: World, definitions: seq<Definition>) returns (r: Option<seq<Site>>)
    ensures r == if |definitions| <= MAX_STATIONS && AllValid(definitions) then Some(NewSites(world, definitions)) else None
  {
    if |definitions| > MAX_STATIONS {
      return None;
    }
    hide AllValid, Station.DefinitionValid, Station.CanonicalForm, StationId, NewSites;
    var stations: seq<Site> := [];
    NoSites(world);
    for i := 0 to |definitions|
      invariant AllValid(definitions[..i]) && stations == NewSites(world, definitions[..i])
    {
      OneMoreValid(definitions, i);
      OneMoreSite(world, definitions[..i], definitions[i]);
      assert definitions[..i + 1] == definitions[..i] + [definitions[i]];
      var checked := Station.CanonicalStation(definitions[i]);
      if checked.None? {
        return None;
      }
      stations := stations + [Site(StationId(i + 1), checked.value, 1, 1, world.start, world.start,
                                   world.coverage(checked.value))];
    }
    assert definitions[..|definitions|] == definitions;
    r := Some(stations);
  }

  lemma NoSites(w: World)
    ensures AllValid([]) && NewSites(w, []) == []
  {
  }

  lemma OneMoreSite(w: World, definitions: seq<Definition>, d: Definition)
    ensures var c := Station.CanonicalForm(d);
            NewSites(w, definitions + [d])
              == NewSites(w, definitions) + [Site(StationId(|definitions| + 1), c, 1, 1, w.start, w.start, w.coverage(c))]
  {
    hide StationId, Station.CanonicalForm;
    assert (definitions + [d])[..|definitions|] == definitions;
  }

  function NewReceivers(stations: seq<Site>): map<string, Receiver> {
    map st <- stations :: st.id := NewReceiver()
  }

  lemma OneMoreReceiver(stations: seq<Site>, st: Site)
    ensures NewReceivers(stations + [st]) == NewReceivers(stations)[st.id := NewReceiver()]
  {
    hide NewReceiver;
  }

  /** newReceptionStore. */
  method NewReceptionStore(stations: seq<Site>) returns (store: ReceptionStore)
    ensures fresh(store) && fresh(store.stations.Values) && store.Valid()
    ensures store.Value() == Store(NewReceivers(stations), TargetStore(map[], 0), 0, 0)
  {
    store := new ReceptionStore();
    hide store.StationsValid, store.TargetsValue, NewReceivers;
    NoReceivers();
    for i := 0 to |stations|
      invariant fresh(store) && fresh(store.stations.Values) && store.Valid()
      invariant store.Value() == Store(NewReceivers(stations[..i]), TargetStore(map[], 0), 0, 0)
    {
      store.AddStation(stations[i].id);
      OneMoreReceiver(stations[..i], stations[i]);
      assert stations[..i + 1] == stations[..i] + [stations[i]];
    }
    assert stations[..|stations|] == stations;
  }

  lemma NoReceivers()
    ensures NewReceivers([]) == map[]
  {
  }

  lemma BlankIs(w: World, source: nat, speed: int, definitions: seq<Definition>, store: Store)
    requires WorldSound(w) && 0 <= speed <= MAX_SPEED && |definitions| <= MAX_STATIONS && AllValid(definitions)
    requires store == Store(NewReceivers(NewSites(w, definitions)), TargetStore(map[], 0), 0, 0)
    ensures var stations := NewSites(w, definitions);
            Engine(State(0, source, [], FIRST_MMSI, 0, 0, 0, speed, w.start, stations, |stations|, 1), [], store)
              == Blank(w, source, speed, definitions)
    ensures Sound(w, Blank(w, source, speed, definitions))
  {
    hide WorldSound, Inv, NewSites, Station.DefinitionValid;
    BlankInv(w, source, speed, definitions);
  }

  lemma RevisionKeepsSound(w: World, e: Engine, revision: nat)
    requires Sound(w, e)
    ensures Sound(w, e.(state := e.state.(revision := revision)))
  {
    hide Inv;
    var tr :| Inv(w, e, tr);
    InvPace(w, e, tr);
    SpeedKeepsInv(w, e, tr, e.state.speed, revision);
  }

  lemma InvPace(w: World, e: Engine, tr: Trace)
    requires Inv(w, e, tr)
    ensures 0 <= e.state.speed <= MAX_SPEED
  {
  }

  lemma NewIs(w: World, source: nat, count: int, speed: real, definitions: seq<Definition>)
    requires NormalizeSpeed(speed).Some?
    ensures New(w, source, count, speed, definitions)
         == if !ConfigValid(w, count, speed, definitions) then Failed(Invalid)
            else match SetCount(w, Blank(w, source, NormalizeSpeed(speed).value, definitions), count)
              case Failed(error) => Failed(error)
              case Committed(e, sent) => Committed(e.(state := e.state.(revision := 1)), sent)
    ensures ConfigValid(w, count, speed, definitions) <==>
              && w.id != "" && 0 < w.start < YEAR_10000 && 0 <= count <= MAX_VESSELS
              && Station.TransmitterValid(w.transmitter) && |definitions| <= MAX_STATIONS && AllValid(definitions)
  {
    hide SetCount, Blank, NormalizeSpeed, Station.DefinitionValid, Station.TransmitterValid;
  }

  /** The run before its initial vessels. */
  method StartBlank(world: World, source: nat, speed: int, sites: seq<Site>, ghost definitions: seq<Definition>)
    returns (sim: Simulator)
    requires WorldSound(world) && 0 <= speed <= MAX_SPEED && |definitions| <= MAX_STATIONS && AllValid(definitions)
    requires sites == NewSites(world, definitions)
    ensures fresh(sim) && fresh(sim.store) && fresh(sim.store.stations.Values)
    ensures sim.world == world && sim.Valid() && sim.Value() == Blank(world, source, speed, definitions)
  {
    hide WorldSound, Sound, Blank, AllValid, NewSites, NewReceivers;
    var store := NewReceptionStore(sites);
    BlankIs(world, source, speed, definitions, store.Value());
    sim := new Simulator(world, State(0, source, [], FIRST_MMSI, 0, 0, 0, speed, world.start, sites, |sites|, 1), store);
  }

  /** The initial fleet, with the revision of a new run. */
  method StartFleet(sim: Simulator, count: int) returns (error: Option<Error>)
    requires sim.Valid()
    modifies sim`state, sim`messages, sim.store`targets, sim.store`evictions, sim.store`receptions,
             sim.store`receivedTransmissions, sim.store.stations.Values
    ensures sim.Valid() && Ready(old(sim.Value()))
    ensures match SetCount(sim.world, old(sim.Value()), count)
            case Failed(e) => error == Some(e)
            case Committed(e, _) => error == None && sim.Value() == e.(state := e.state.(revision := 1))
  {
    hide WorldSound, Sound, SetCount, ReceptionStore.Receivers, ReceptionStore.StationsValid, ReceptionStore.TargetsValue;
    var sent := sim.SetCount(count);
    if sent.Failure? {
      return Some(sent.error);
    }
    RevisionKeepsSound(sim.world, sim.Value(), 1);
    sim.state := sim.state.(revision := 1);
    error := None;
  }

  /** New: validates everything before the first random draw, then starts the run with its initial fleet. */
  method Start(world: World, source: nat, count: int, speed: real, definitions: seq<Definition>)
    returns (r: Result<Simulator>)
    requires world.id != "" && 0 < world.start < YEAR_10000 && Station.TransmitterValid(world.transmitter) ==> WorldSound(world)
    ensures match New(world, source, count, speed, definitions)
            case Failed(error) => r == Failure(error)
            case Committed(e, _) => r.Success? && fresh(r.value) && r.value.Valid() && r.value.Value() == e
  {
    hide WorldSound, Sound, SetCount, Blank, NormalizeSpeed, AllValid, New, NewSites, ConfigValid, Station.TransmitterValid,
         Simulator.Valid, Simulator.Value;
    var hundredths := NormalizeSpeed(speed);
    if hundredths.None? {
      NoSpeed(world, source, count, speed, definitions);
      return Failure(Invalid);
    }
    NewIs(world, source, count, speed, definitions);
    if world.id == "" || world.start <= 0 || world.start >= YEAR_10000 || count < 0 || count > MAX_VESSELS
       || !Station.TransmitterValid(world.transmitter) {
      return Failure(Invalid);
    }
    var sites := NewStations(world, definitions);
    if sites.None? {
      return Failure(Invalid);
    }
    SpeedInRange(speed);
    var sim := StartBlank(world, source, hundredths.value, sites.value, definitions);
    var error := StartFleet(sim, count);
    if error.Some? {
      return Failure(error.value);
    }
    r := Success(sim);
  }

  lemma NoSpeed(w: World, source: nat, count: int, speed: real, definitions: seq<Definition>)
    requires NormalizeSpeed(speed).None?
    ensures New(w, source, count, speed, definitions) == Failed(Invalid)
  {
  }

  /** The checks of an advance before its first tick, and what follows them. */
  lemma AdvanceStops(w: World, e: Engine, next: State, delta: int, budget: nat)
    requires delta >= 0 && next.elapsed >= 0 && Tracks(e.store, next.stations)
    ensures var q := AdvanceFrom(w, e, next, delta, budget);
            var first, ticks := next.elapsed / TICK_INTERVAL + 1, (next.elapsed + delta) / TICK_INTERVAL - next.elapsed / TICK_INTERVAL;
            if budget == 0 then q == Failed(Cancelled)
            else if delta > MAX_ADVANCE || next.elapsed > MAX_INT64 - delta || w.start + (next.elapsed + delta) >= YEAR_10000
                    || ticks * |next.vessels| > MAX_UINT64 - next.sequence || (delta > 0 && next.revision == MAX_UINT64)
            then q == Failed(Limit)
            else
              var revised := if delta > 0 then next.(revision := next.revision + 1) else next;
              var out := EmitTicks(w, Emitted(revised, [], None), first, Max(ticks, 0), budget);
              q == Spec.Settle(w, e, out, out.state.(elapsed := next.elapsed + delta, stations := next.stations), budget <= Max(ticks, 1))
  {
    hide EmitTicks, Spec.Settle;
  }

  lemma VesselStep(w: World, p: Emitted, at: int, i: nat)
    requires i < |p.state.vessels|
    ensures var q := EmitVessels(w, p, at, i);
            EmitVessels(w, p, at, i + 1) == if q.stop.Some? then q else EmitVessel(w, q, at, i)
  {
    hide EmitVessel;
  }

  lemma TickStep(w: World, p: Emitted, first: int, n: nat, budget: nat)
    ensures var q := EmitTicks(w, p, first, n, budget);
            EmitTicks(w, p, first, n + 1, budget)
              == if q.stop.Some? then q
                 else if n > 0 && budget <= n then q.(stop := Some(Cancelled))
                 else EmitTick(w, q, TickAt(w, first + n))
  {
    hide EmitTick;
  }

  lemma NoTicks(w: World, p: Emitted, first: int, budget: nat)
    ensures EmitTicks(w, p, first, 0, budget) == p
  {
  }

  /** A tick does not depend on what was sent before it. */
  lemma EmitTickShifts(w: World, q: Emitted, at: int, pre: seq<Transmission>)
    requires q.sent == []
    ensures var r := EmitTick(w, q, at);
            EmitTick(w, q.(sent := pre), at) == r.(sent := pre + r.sent)
  {
    hide EmitVessels;
    EmitVesselsShift(w, q, at, |q.state.vessels|, pre, q.state);
    assert pre + [] == pre;
    assert Shift(q, pre, q.state) == q.(sent := pre);
    VesselsKeepStations(w, q, at, |q.state.vessels|);
  }

  lemma TickKeepsStations(w: World, q: Emitted, at: int)
    ensures SamePace(EmitTick(w, q, at).state, q.state)
  {
    hide EmitVessels;
    VesselsKeepStations(w, q, at, |q.state.vessels|);
  }

  lemma NewStep(w: World, p: Emitted, now: int, i: nat)
    ensures var q := EmitNew(w, p, now, i);
            EmitNew(w, p, now, i + 1) == if q.stop.Some? then q else EmitSpawn(w, q, now)
  {
    hide EmitSpawn;
  }

  lemma {:induction false} NewKeepsStations(w: World, p: Emitted, now: int, k: nat)
    ensures EmitNew(w, p, now, k).state.stations == p.state.stations
  {
    hide SpawnVessel;
    if k > 0 {
      NewKeepsStations(w, p, now, k - 1);
    }
  }

  lemma NothingReceived(w: World, stations: seq<Site>, b: Batch)
    requires |stations| == |b.stats|
    ensures ReceiveAll(w, stations, b, []) == Some(b)
  {
  }

  lemma EmitNoneNew(w: World, p: Emitted, now: int)
    ensures EmitNew(w, p, now, 0) == p
  {
  }

  lemma ReceiveOneMore(w: World, stations: seq<Site>, b: Batch, sent: seq<Transmission>, t: Transmission)
    requires |stations| == |b.stats| && ReceiveAll(w, stations, b, sent).Some?
    ensures ReceiveAll(w, stations, b, sent + [t]) == Receive(w, stations, ReceiveAll(w, stations, b, sent).value, t)
  {
    assert (sent + [t])[..|sent|] == sent;
  }

  lemma {:induction false} UpToFails(w: World, stations: seq<Site>, b: Batch, t: Transmission, k: nat)
    requires k <= |stations| == |b.stats| && ReceiveUpTo(w, stations, b, t, k).None?
    ensures ReceiveUpTo(w, stations, b, t, |stations|).None?
    decreases |stations| - k
  {
    hide ReceiveAt;
    if k < |stations| {
      UpToFails(w, stations, b, t, k + 1);
    }
  }
}
