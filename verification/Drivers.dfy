/** The driver object: one lock's worth of steps per method, each against its specification in Pacing
    (internal/simdriver/driver.go). */
module Drivers {
  import opened Basics
  import opened Model
  import opened Worlds
  import opened Engine
  import opened Stores
  import opened Simulators
  import opened Split
  import opened Pacing
  import Spec = Engine
  import Station

  lemma ValidReady(sim: Simulator)
    requires sim.Valid()
    ensures Ready(sim.Value())
  {
    hide WorldSound, Sound;
    SoundReady(sim.world, sim.Value());
  }

  /** DeliverChunks, one chunk at a time. */
  lemma ChunkStep(w: World, e: Engine, elapsed: int, k: nat, patience: nat -> nat)
    requires Ready(e) && elapsed > 0
    ensures var chunk := Min(elapsed, ELAPSE_CHUNK);
            var q, d := Elapse(w, e, chunk, patience(k)), DeliverChunks(w, e, elapsed, k, patience);
            && (q.Failed? ==> d == Delivery(e, 0, Some(q.error), []))
            && (q.Committed? ==>
                  && Ready(q.engine)
                  && var rest := DeliverChunks(w, q.engine, elapsed - chunk, k + 1, patience);
                     d == rest.(delivered := chunk + rest.delivered, sent := q.sent + rest.sent))
  {
    hide Elapse;
    ElapseKeepsReady(w, e, Min(elapsed, ELAPSE_CHUNK), patience(k));
  }

  lemma NoChunks(w: World, e: Engine, elapsed: int, k: nat, patience: nat -> nat)
    requires Ready(e) && elapsed <= 0
    ensures DeliverChunks(w, e, elapsed, k, patience) == Delivery(e, 0, None, [])
  {
  }

  class Driver {
    const sim: Simulator
    var stopped: bool
    var baseline: int
    var running: bool

    ghost predicate Valid()
      reads this, sim, sim.store, sim.store.stations.Values
    {
      sim.Valid()
    }

    ghost function Value(): Pace
      reads this, sim, sim.store, sim.store.stations.Values
    {
      Pace(sim.Value(), baseline, stopped, running)
    }

    /** A driver for sim whose first baseline is the current real instant. */
    constructor (sim: Simulator, now: int)
      requires sim.Valid()
      ensures this.sim == sim && Valid() && Value() == Pace(sim.Value(), now, false, true)
    {
      hide Simulator.Valid, Simulator.Value;
      this.sim, stopped, baseline, running := sim, false, now, true;
    }

    /** The end of Run. */
    method Stop()
      requires Valid()
      modifies this`stopped, this`running
      ensures Valid() && Value() == old(Value()).(stopped := true, running := false)
    {
      hide Simulator.Valid, Simulator.Value;
      stopped, running := true, false;
    }

    /** The loop of DeliverChunks on the object: whenever it stops, baseline counts exactly the chunks the engine took. */
    method DeliverElapsed(due: int, c: Context) returns (error: Option<Error>)
      requires Valid()
      modifies this`baseline, sim`state, sim`messages, sim.store`targets, sim.store`evictions, sim.store`receptions,
               sim.store`receivedTransmissions, sim.store.stations.Values
      ensures Valid() && Ready(old(Value()).engine)
      ensures var d := DeliverChunks(sim.world, old(Value()).engine, due, 0, c.patience);
              Value() == old(Value()).(engine := d.engine, baseline := old(baseline) + d.delivered) && error == d.error
    {
      hide Spec.Elapse, Simulator.Valid, Simulator.Value, Ready, DeliverChunks;
      ValidReady(sim);
      ghost var whole := DeliverChunks(sim.world, sim.Value(), due, 0, c.patience);
      var elapsed, k := due, 0;
      while elapsed > 0
        invariant Valid() && stopped == old(stopped) && running == old(running) && sim.store.stations == old(sim.store.stations)
        invariant Ready(sim.Value()) && Ready(old(sim.Value()))
        invariant var d := DeliverChunks(sim.world, sim.Value(), elapsed, k, c.patience);
                  whole == d.(delivered := baseline - old(baseline) + d.delivered, sent := whole.sent)
        decreases elapsed
      {
        var chunk := Min(elapsed, ELAPSE_CHUNK);
        ChunkStep(sim.world, sim.Value(), elapsed, k, c.patience);
        var sent := sim.Elapse(chunk, c.patience(k));
        if sent.Failure? {
          return Some(sent.error);
        }
        baseline := baseline + chunk;
        elapsed := elapsed - chunk;
        k := k + 1;
      }
      NoChunks(sim.world, sim.Value(), elapsed, k, c.patience);
      error := None;
    }

    /** Settles up to the clock sample now. */
    method SettleLocked(now: int, c: Context) returns (error: Option<Error>)
      requires Valid()
      modifies this`baseline, sim`state, sim`messages, sim.store`targets, sim.store`evictions, sim.store`receptions,
               sim.store`receivedTransmissions, sim.store.stations.Values
      ensures Valid() && Ready(old(Value()).engine)
      ensures (Value(), error) == Settled(sim.world, old(Value()), now, c)
    {
      hide Simulator.Valid, Ready, DeliverChunks;
      ValidReady(sim);
      if stopped {
        return Some(Stopped);
      }
      if !c.atSettle {
        return Some(Cancelled);
      }
      var elapsed := now - baseline;
      if elapsed <= 0 {
        return None;
      }
      if sim.state.speed == 0 {
        baseline := now;
        return None;
      }
      if elapsed * sim.state.speed > MAX_CATCH_UP * SPEED_SCALE {
        return Some(CatchUp);
      }
      error := DeliverElapsed(elapsed, c);
    }

    /** One wakeup of Run. */
    method Beat(now: int, c: Context) returns (error: Option<Error>)
      requires Valid()
      modifies this`baseline, this`running, sim`state, sim`messages, sim.store`targets, sim.store`evictions,
               sim.store`receptions, sim.store`receivedTransmissions, sim.store.stations.Values
      ensures Valid() && Ready(old(Value()).engine)
      ensures (Value(), error) == Pacing.Beat(sim.world, old(Value()), now, c)
    {
      hide Simulator.Valid, Simulator.Value, Ready, Settled;
      ValidReady(sim);
      if !running {
        return Some(Stopped);
      }
      error := SettleLocked(now, c);
      if error.Some? {
        running := false;
      }
    }

    method SetCount(now: int, c: Context, count: int) returns (error: Option<Error>)
      requires Valid()
      modifies this`baseline, sim`state, sim`messages, sim.store, sim.store.stations.Values
      ensures Valid() && Ready(old(Value()).engine)
      ensures (Value(), error) == DriveCount(sim.world, old(Value()), now, c, count)
    {
      hide Simulator.Valid, Simulator.Value, Ready, Settled, Spec.SetCount;
      ValidReady(sim);
      if stopped {
        return Some(Stopped);
      }
      if count < 0 || count > MAX_VESSELS {
        return Some(Invalid);
      }
      error := SettleLocked(now, c);
      if error.Some? {
        return;
      }
      var sent := sim.SetCount(count);
      error := if sent.Failure? then Some(sent.error) else None;
    }

    method SetSpeed(now: int, c: Context, speed: real) returns (error: Option<Error>)
      requires Valid()
      modifies this`baseline, sim`state, sim`messages, sim.store, sim.store.stations.Values
      ensures Valid() && Ready(old(Value()).engine)
      ensures (Value(), error) == DriveSpeed(sim.world, old(Value()), now, c, speed)
    {
      hide Simulator.Valid, Simulator.Value, Ready, Settled, Spec.SetSpeed, NormalizeSpeed;
      ValidReady(sim);
      if stopped {
        return Some(Stopped);
      }
      if NormalizeSpeed(speed).None? {
        return Some(Invalid);
      }
      error := SettleLocked(now, c);
      if error.Some? {
        return;
      }
      var ok, failure := sim.SetSpeed(speed);
      error := if ok then None else Some(failure);
    }

    /** Rejects a stale revision or an unknown station, then settles. */
    method PrepareStationEdit(now: int, c: Context, run: string, expected: nat, id: string) returns (error: Option<Error>)
      requires Valid()
      modifies this`baseline, sim`state, sim`messages, sim.store`targets, sim.store`evictions, sim.store`receptions,
               sim.store`receivedTransmissions, sim.store.stations.Values
      ensures Valid() && Ready(old(Value()).engine)
      ensures (Value(), error) == Prepared(sim.world, old(Value()), now, c, run, expected, id)
    {
      hide Simulator.Valid, Ready, Settled, FindStation;
      ValidReady(sim);
      if stopped {
        return Some(Stopped);
      }
      if !c.before {
        return Some(Cancelled);
      }
      if sim.world.id != run {
        return Some(Conflict);
      }
      if sim.state.stationRevision != expected {
        return Some(Conflict);
      }
      if id != "" && FindStation(sim.state.stations, id) == |sim.state.stations| {
        return Some(NotFound);
      }
      if id == "" && |sim.state.stations| >= MAX_STATIONS {
        return Some(Invalid);
      }
      error := SettleLocked(now, c);
      if error.None? && !c.after {
        error := Some(Cancelled);
      }
    }

    method AddStation(now: int, c: Context, run: string, expected: nat, definition: Definition)
      returns (id: string, error: Option<Error>)
      requires Valid()
      modifies this`baseline, sim`state, sim`messages, sim.store, sim.store.stations.Values
      ensures Valid() && Ready(old(Value()).engine)
      ensures (Value(), error) == DriveAdd(sim.world, old(Value()), now, c, run, expected, definition)
    {
      hide Simulator.Valid, Simulator.Value, Ready, Prepared, Spec.AddStation, Station.DefinitionValid, Station.CanonicalForm;
      ValidReady(sim);
      id := "";
      if stopped {
        return id, Some(Stopped);
      }
      var canonical := Station.CanonicalStation(definition);
      if canonical.None? {
        return id, Some(Invalid);
      }
      error := PrepareStationEdit(now, c, run, expected, "");
      if error.Some? {
        return;
      }
      var added := sim.AddStation(expected, definition);
      id, error := if added.Success? then added.value else "", if added.Success? then None else Some(added.error);
    }

    method UpdateStation(now: int, c: Context, run: string, expected: nat, id: string, definition: Definition)
      returns (error: Option<Error>)
      requires Valid()
      modifies this`baseline, sim`state, sim`messages, sim.store, sim.store.stations.Values
      ensures Valid() && Ready(old(Value()).engine)
      ensures (Value(), error) == DriveUpdate(sim.world, old(Value()), now, c, run, expected, id, definition)
    {
      hide Simulator.Valid, Simulator.Value, Ready, Prepared, Spec.UpdateStation, Station.DefinitionValid,
           Station.CanonicalForm;
      ValidReady(sim);
      if stopped {
        return Some(Stopped);
      }
      var canonical := Station.CanonicalStation(definition);
      if canonical.None? {
        return Some(Invalid);
      }
      error := PrepareStationEdit(now, c, run, expected, id);
      if error.Some? {
        return;
      }
      var ok, failure := sim.UpdateStation(expected, id, definition);
      error := if ok then None else Some(failure);
    }

    method RemoveStation(now: int, c: Context, run: string, expected: nat, id: string) returns (error: Option<Error>)
      requires Valid()
      modifies this`baseline, sim`state, sim`messages, sim.store, sim.store.stations.Values
      ensures Valid() && Ready(old(Value()).engine)
      ensures (Value(), error) == DriveRemove(sim.world, old(Value()), now, c, run, expected, id)
    {
      hide Simulator.Valid, Simulator.Value, Ready, Prepared, Spec.RemoveStation;
      ValidReady(sim);
      error := PrepareStationEdit(now, c, run, expected, id);
      if error.Some? {
        return;
      }
      var ok, failure := sim.RemoveStation(expected, id);
      error := if ok then None else Some(failure);
    }
  }
}
