/** Settlement is resumable: however it is interrupted, what the engine becomes depends only on how much real time was
    delivered (internal/simdriver/driver.go). */
module Resumption {
  import opened Basics
  import opened Model
  import opened Worlds
  import opened Engine
  import opened Runs
  import opened Reachable
  import opened Split
  import opened Pacing
  import Station

  /** A chunk that commits under some context commits the same under a patient one. */
  lemma CommittedPatiently(w: World, e: Engine, delta: int, budget: nat, patient: nat)
    requires Ready(e) && Patient(patient) && Elapse(w, e, delta, budget).Committed?
    ensures Elapse(w, e, delta, patient) == Elapse(w, e, delta, budget)
  {
    hide AdvanceFrom;
    var s := e.state;
    assert delta * s.speed >= 0;
    var scaled := delta * s.speed + s.remainder;
    AdvancedPatiently(w, e, s.(remainder := scaled % SPEED_SCALE), scaled / SPEED_SCALE, budget, patient);
  }

  lemma AdvancedPatiently(w: World, e: Engine, next: State, delta: int, budget: nat, patient: nat)
    requires delta >= 0 && next.elapsed >= 0 && Tracks(e.store, next.stations) && Patient(patient)
    requires AdvanceFrom(w, e, next, delta, budget).Committed?
    ensures AdvanceFrom(w, e, next, delta, patient) == AdvanceFrom(w, e, next, delta, budget)
  {
    hide EmitTicks, Settle;
    TicksNonnegative(next.elapsed, delta);
    var n, first := Ticks(next.elapsed, delta), next.elapsed / TICK_INTERVAL + 1;
    var p := Emitted(Revised(next, delta), [], None);
    var out := EmitTicks(w, p, first, n, budget);
    SettledUncancelled(w, e, out, out.state.(elapsed := next.elapsed + delta, stations := next.stations), budget <= Max(n, 1));
    EmitTicksFrom(w, p, first, n, budget, patient);
  }

  lemma SettledUncancelled(w: World, e: Engine, out: Emitted, next: State, cancelled: bool)
    requires Tracks(e.store, next.stations)
    ensures Settle(w, e, out, next, cancelled).Committed? ==> !cancelled
  {
    hide ReceiveAll, Commit;
  }

  /** Delivering chunks cs patiently from e leaves d and sends sent. */
  ghost predicate DeliveredAs(w: World, e: Engine, d: Engine, sent: seq<Transmission>, delivered: int, cs: seq<int>,
                              patient: nat)
    requires Ready(e)
  {
    && AllShort(e.state.speed, cs) && Sum(cs) == delivered
    && Deliver(w, e, cs, patient) == Some((d, sent))
  }

  lemma {:induction false} ChunksAreDelivery(w: World, e: Engine, elapsed: int, k: nat, patience: nat -> nat, patient: nat)
    returns (cs: seq<int>)
    requires WorldSound(w) && Sound(w, e) && Ready(e) && Patient(patient)
    ensures var d := DeliverChunks(w, e, elapsed, k, patience);
            DeliveredAs(w, e, d.engine, d.sent, d.delivered, cs, patient)
    decreases elapsed
  {
    hide WorldSound, Sound, Elapse, Short;
    cs := [];
    if elapsed > 0 {
      var chunk := Min(elapsed, ELAPSE_CHUNK);
      SoundIsReady(w, e);
      ChunkFits(elapsed, e.state.speed, e.state.remainder);
      ElapseKeepsReady(w, e, chunk, patience(k));
      ElapseKeepsSound(w, e, chunk, patience(k));
      var r := Elapse(w, e, chunk, patience(k));
      if r.Committed? {
        CommittedPatiently(w, e, chunk, patience(k), patient);
        var rest := ChunksAreDelivery(w, r.engine, elapsed - chunk, k + 1, patience, patient);
        cs := [chunk] + rest;
        assert cs[1..] == rest;
      }
    }
  }

  lemma {:induction false} DeliverConcat(w: World, e: Engine, a: seq<int>, b: seq<int>, patient: nat)
    requires Ready(e) && Deliver(w, e, a, patient).Some?
    ensures Ready(Deliver(w, e, a, patient).value.0)
    ensures var d := Deliver(w, e, a, patient).value.0;
            && d.state.speed == e.state.speed
            && (Deliver(w, d, b, patient).Some? ==>
                  && Deliver(w, e, a + b, patient).Some?
                  && Deliver(w, e, a + b, patient).value.0 == Deliver(w, d, b, patient).value.0
                  && Deliver(w, e, a + b, patient).value.1
                     == Deliver(w, e, a, patient).value.1 + Deliver(w, d, b, patient).value.1)
    decreases |a|
  {
    hide Elapse;
    if a == [] {
      assert a + b == b;
    } else {
      ElapseKeepsReady(w, e, a[0], patient);
      DeliverConcat(w, Elapse(w, e, a[0], patient).engine, a[1..], b, patient);
      assert (a + b)[1..] == a[1..] + b;
    }
  }

  lemma {:induction false} SumConcat(a: seq<int>, b: seq<int>)
    ensures Sum(a + b) == Sum(a) + Sum(b)
  {
    if a == [] {
      assert a + b == b;
    } else {
      SumConcat(a[1..], b);
      assert (a + b)[1..] == a[1..] + b;
    }
  }

  // ----- Entries that apply nothing -----

  /** Whether an entry gets past its checks to settlement. */
  ghost predicate Settles(w: World, p: Pace, entry: Entry) {
    match entry
    case Heartbeat(_, _) => p.running
    case Count(_, _, count) => !p.stopped && 0 <= count <= MAX_VESSELS
    case Speed(_, _, speed) => !p.stopped && NormalizeSpeed(speed).Some?
    case AddOne(_, c, run, expected, d) =>
      !p.stopped && c.before && Station.DefinitionValid(d) && EditError(w, p.engine.state, run, expected, "").None?
    case UpdateOne(_, c, run, expected, id, d) =>
      !p.stopped && c.before && Station.DefinitionValid(d) && EditError(w, p.engine.state, run, expected, id).None?
    case RemoveOne(_, c, run, expected, id) => !p.stopped && c.before && EditError(w, p.engine.state, run, expected, id).None?
    case Stop => false
  }

  /** A heartbeat, the end of pacing, or a command that fails at any point or commits nothing beyond its settlement. */
  ghost predicate Unapplied(w: World, p: Pace, entry: Entry)
    requires Ready(p.engine)
  {
    entry.Heartbeat? || entry.Stop? || Drive(w, p, entry).1.Some?
    || Drive(w, p, entry).0.engine == Settled(w, p, entry.now, entry.c).0.engine
  }

  ghost predicate AllUnapplied(w: World, p: Pace, entries: seq<Entry>)
    requires WorldSound(w) && Sound(w, p.engine)
  {
    entries == []
    || (var n := |entries| - 1;
        var q := Driven(w, p, entries[..n]);
        AllUnapplied(w, p, entries[..n]) && Ready(q.engine) && Unapplied(w, q, entries[n]))
  }

  /** The reports a settlement sends. */
  ghost function SettlementSent(w: World, p: Pace, now: int, c: Context): seq<Transmission>
    requires Ready(p.engine)
  {
    var elapsed, speed := now - p.baseline, p.engine.state.speed;
    if p.stopped || !c.atSettle || elapsed <= 0 || speed == 0 || elapsed * speed > MAX_CATCH_UP * SPEED_SCALE then []
    else DeliverChunks(w, p.engine, elapsed, 0, c.patience).sent
  }

  /** The reports the settlements of a history send. */
  ghost function HistorySent(w: World, p: Pace, entries: seq<Entry>): seq<Transmission>
    requires WorldSound(w) && Sound(w, p.engine)
  {
    if entries == [] then []
    else
      var n := |entries| - 1;
      var q := Driven(w, p, entries[..n]);
      SoundIsReady(w, q.engine);
      HistorySent(w, p, entries[..n])
      + if Settles(w, q, entries[n]) then SettlementSent(w, q, entries[n].now, entries[n].c) else []
  }

  /** An entry that applies nothing leaves what its settlement left, if it reached one. */
  lemma UnappliedIsSettlement(w: World, p: Pace, entry: Entry)
    requires Ready(p.engine) && Unapplied(w, p, entry)
    ensures var q := Drive(w, p, entry).0;
            if Settles(w, p, entry)
            then var s := Settled(w, p, entry.now, entry.c).0; q.engine == s.engine && q.baseline == s.baseline
            else q.engine == p.engine && q.baseline == p.baseline
  {
    hide Settled, Execute, NormalizeSpeed, Station.DefinitionValid, EditError, Ready;
  }

  lemma SettlementDelivers(w: World, p: Pace, now: int, c: Context, patient: nat) returns (cs: seq<int>)
    requires WorldSound(w) && Sound(w, p.engine) && Ready(p.engine) && Patient(patient) && p.engine.state.speed > 0
    ensures var q := Settled(w, p, now, c).0;
            DeliveredAs(w, p.engine, q.engine, SettlementSent(w, p, now, c), q.baseline - p.baseline, cs, patient)
  {
    hide WorldSound, Sound, DeliverChunks, Short;
    cs := [];
    var elapsed := now - p.baseline;
    if !p.stopped && c.atSettle && elapsed > 0 && elapsed * p.engine.state.speed <= MAX_CATCH_UP * SPEED_SCALE {
      cs := ChunksAreDelivery(w, p.engine, elapsed, 0, c.patience, patient);
    }
  }

  lemma OneEntry(w: World, p: Pace, entry: Entry, patient: nat) returns (cs: seq<int>)
    requires WorldSound(w) && Sound(w, p.engine) && Ready(p.engine) && Patient(patient) && Unapplied(w, p, entry)
    requires p.engine.state.speed > 0
    ensures var q := Drive(w, p, entry).0;
            && DeliveredAs(w, p.engine, q.engine, if Settles(w, p, entry) then SettlementSent(w, p, entry.now, entry.c) else [],
                           q.baseline - p.baseline, cs, patient)
            && q.engine.state.speed == p.engine.state.speed
  {
    hide WorldSound, Sound, Settled, SettlementSent, Unapplied, Drive, NormalizeSpeed, EditError, Station.DefinitionValid;
    UnappliedIsSettlement(w, p, entry);
    if Settles(w, p, entry) {
      SettlementConserves(w, p, entry.now, entry.c);
      cs := SettlementDelivers(w, p, entry.now, entry.c, patient);
    } else {
      cs := [];
    }
  }

  /** Any history that applies nothing delivers the time its baseline moved, in some chunks, and sends what they send. */
  lemma {:induction false} HistoriesDeliver(w: World, p: Pace, entries: seq<Entry>, patient: nat) returns (cs: seq<int>)
    requires WorldSound(w) && Sound(w, p.engine) && Ready(p.engine) && Patient(patient) && AllUnapplied(w, p, entries)
    requires p.engine.state.speed > 0
    ensures var q := Driven(w, p, entries);
            && DeliveredAs(w, p.engine, q.engine, HistorySent(w, p, entries), q.baseline - p.baseline, cs, patient)
            && q.engine.state.speed == p.engine.state.speed
  {
    hide WorldSound, Sound, Drive, AllShort, Deliver, Sum, Ready, Unapplied, Settles, SettlementSent;
    if entries == [] {
      cs := [];
      NothingDelivered(w, p.engine, patient);
    } else {
      var n := |entries| - 1;
      var front := HistoriesDeliver(w, p, entries[..n], patient);
      var q := Driven(w, p, entries[..n]);
      SoundIsReady(w, q.engine);
      var last := OneEntry(w, q, entries[n], patient);
      DeliverConcat(w, p.engine, front, last, patient);
      SumConcat(front, last);
      AllShortConcat(p.engine.state.speed, front, last);
      cs := front + last;
    }
  }

  lemma NothingDelivered(w: World, e: Engine, patient: nat)
    requires Ready(e)
    ensures DeliveredAs(w, e, e, [], 0, [], patient)
  {
  }

  lemma AllShortConcat(speed: int, a: seq<int>, b: seq<int>)
    requires AllShort(speed, a) && AllShort(speed, b)
    ensures AllShort(speed, a + b)
  {
    hide Short;
  }

  /** Chunks take at least a nanosecond each. */
  lemma {:induction false} FewerThanTime(speed: int, cs: seq<int>)
    requires AllShort(speed, cs)
    ensures |cs| <= Sum(cs)
  {
    if cs != [] {
      assert Short(speed, cs[0]);
      FewerThanTime(speed, cs[1..]);
    }
  }

  lemma SameItself(e: Engine)
    ensures Same(e, e)
  {
  }

  /** Deliveries of the same time leave the same engine up to revision, and send the same. */
  lemma SameTimeSameEngine(w: World, e: Engine, a: Engine, b: Engine, x: seq<Transmission>, y: seq<Transmission>,
                           delivered: int, c: seq<int>, d: seq<int>, patient: nat)
    requires WorldSound(w) && Sound(w, e) && Ready(e) && Patient(patient)
    requires DeliveredAs(w, e, a, x, delivered, c, patient) && DeliveredAs(w, e, b, y, delivered, d, patient)
    requires e.state.revision + 2 * delivered <= MAX_UINT64
    ensures Same(a, b) && x == y
  {
    hide WorldSound, Sound, AllShort, Deliver, Same, Ready;
    FewerThanTime(e.state.speed, c);
    FewerThanTime(e.state.speed, d);
    SameItself(e);
    DivisionIrrelevant(w, e, e, c, d, patient);
  }

  /** While paused nothing is delivered, whatever the baseline does. */
  lemma {:induction false} PausedStays(w: World, p: Pace, entries: seq<Entry>)
    requires WorldSound(w) && Sound(w, p.engine) && AllUnapplied(w, p, entries) && p.engine.state.speed == 0
    ensures Driven(w, p, entries).engine == p.engine && HistorySent(w, p, entries) == []
  {
    hide WorldSound, Sound, Drive, Ready, Unapplied, Settles, DeliverChunks;
    if entries != [] {
      var n := |entries| - 1;
      PausedStays(w, p, entries[..n]);
      SoundIsReady(w, p.engine);
      UnappliedIsSettlement(w, Driven(w, p, entries[..n]), entries[n]);
    }
  }

  /** Two histories from the same moment, mixing heartbeats and commands that were not applied, with settlements
      interrupted anywhere and resumed by any later entry: once they have moved the baseline equally far, they have sent
      the same reports and made the same engine up to its revision. An uninterrupted settlement is one of them. */
  lemma SettlementResumes(w: World, p: Pace, interrupted: seq<Entry>, straight: seq<Entry>)
    requires WorldSound(w) && Sound(w, p.engine)
    requires AllUnapplied(w, p, interrupted) && AllUnapplied(w, p, straight)
    requires Driven(w, p, interrupted).baseline == Driven(w, p, straight).baseline
    requires p.engine.state.revision + 2 * (Driven(w, p, straight).baseline - p.baseline) <= MAX_UINT64
    ensures Same(Driven(w, p, interrupted).engine, Driven(w, p, straight).engine)
    ensures HistorySent(w, p, interrupted) == HistorySent(w, p, straight)
  {
    hide WorldSound, Sound, Driven, DeliveredAs, Same, Ready, AllUnapplied, HistorySent;
    var patient := MAX_ADVANCE / TICK_INTERVAL + 2;
    SoundIsReady(w, p.engine);
    var a, b := Driven(w, p, interrupted), Driven(w, p, straight);
    if p.engine.state.speed == 0 {
      PausedStays(w, p, interrupted);
      PausedStays(w, p, straight);
      SameItself(p.engine);
    } else {
      var c := HistoriesDeliver(w, p, interrupted, patient);
      var d := HistoriesDeliver(w, p, straight, patient);
      SameTimeSameEngine(w, p.engine, a.engine, b.engine, HistorySent(w, p, interrupted), HistorySent(w, p, straight),
                         a.baseline - p.baseline, c, d, patient);
    }
  }
}
