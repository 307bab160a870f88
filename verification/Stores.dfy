/** The reception store as the engine keeps it: objects and maps updated in place (simulation/observation.go). Each
    method leaves exactly the state its specification in Engine describes. */
module Stores {
  import opened Basics
  import opened Model
  import opened Engine
  import Spec = Engine
  import opened HistoryRing
  import opened Targets
  import opened Runs

  /** stationReceptions. */
  class StationReceptions {
    var stats: Stats
    var history: seq<Reception>
    var oldest: nat

    ghost function Value(): Receiver
      reads this
    {
      Receiver(stats, history, oldest)
    }

    constructor ()
      ensures Value() == NewReceiver()
    {
      stats, history, oldest := NoStats(), [], 0;
    }

    /** Appends r, replacing the oldest record of a full ring. */
    method Push(r: Reception)
      requires RingValid(Value())
      modifies this
      ensures Value() == Spec.Push(old(Value()), r) && RingValid(Value())
    {
      if |history| < HISTORY_LIMIT {
        history := history + [r];
      } else {
        history := history[oldest := r];
        oldest := (oldest + 1) % HISTORY_LIMIT;
      }
    }

    /** Of whatever log the ring retains, the record that far after the first retained one. */
    function RecordAt(i: nat): (r: Reception)
      requires i < |history|
      reads this
      ensures forall log: seq<Reception> :: HistoryRing.Retains(Value(), log) ==>
                |history| <= |log| && r == log[|log| - |history| + i]
    {
      assert forall log: seq<Reception> :: HistoryRing.Retains(Value(), log) ==>
               |history| <= |log| && history[(oldest + i) % |history|] == log[|log| - |history| + i] by {
        forall log: seq<Reception> | HistoryRing.Retains(Value(), log)
          ensures |history| <= |log| && history[(oldest + i) % |history|] == log[|log| - |history| + i]
        {
          HistoryRing.RetainedAt(Value(), log, i);
        }
      }
      history[(oldest + i) % |history|]
    }
  }

  class ReceptionStore {
    var stations: map<string, StationReceptions>
    var targets: map<nat, Target>
    var receptions: nat
    var receivedTransmissions: nat
    var evictions: nat

    /** Distinct stations have distinct records, and every ring is well formed. */
    ghost predicate StationsValid()
      reads this`stations, stations.Values
    {
      && (forall a <- stations, b <- stations :: stations[a] == stations[b] ==> a == b)
      && (forall id <- stations :: RingValid(stations[id].Value()))
    }

    ghost predicate Valid()
      reads this`stations, this`targets, stations.Values
    {
      StationsValid() && |targets| <= TARGET_LIMIT
    }

    ghost function Receivers(): (r: map<string, Receiver>)
      reads this`stations, stations.Values
      ensures r.Keys == stations.Keys
    {
      map id | id in stations :: stations[id].Value()
    }

    ghost function TargetsValue(): TargetStore
      reads this`targets, this`evictions
    {
      TargetStore(targets, evictions)
    }

    ghost function Value(): Store
      reads this, stations.Values
    {
      Store(Receivers(), TargetsValue(), receptions, receivedTransmissions)
    }

    constructor ()
      ensures Valid() && Value() == Store(map[], TargetStore(map[], 0), 0, 0)
    {
      stations, targets, receptions, receivedTransmissions, evictions := map[], map[], 0, 0, 0;
    }

    /** Removes the victim of Spec.Evict, found by walking the map. */
    method Evict()
      requires |targets| > 0
      modifies this`targets, this`evictions
      ensures TargetsValue() == Spec.Evict(old(TargetsValue()))
    {
      var victim := FindVictim(targets);
      VictimUnique(TargetsValue(), victim);
      targets := targets - {victim};
      evictions := evictions + 1;
    }

    /** Evicts only when r's MMSI is new to a full store, then stores r. */
    method Record(r: Reception)
      requires |targets| <= TARGET_LIMIT
      modifies this`targets, this`evictions
      ensures TargetsValue() == Spec.Record(old(TargetsValue()), r)
      ensures |targets| <= TARGET_LIMIT
    {
      ghost var before := TargetsValue();
      RoomFits(before, r);
      RecordIs(before, r);
      if r.mmsi !in targets && |targets| >= TARGET_LIMIT {
        Evict();
      }
      assert TargetsValue() == Room(before, r);
      hide Room, Spec.Record, Spec.Evict;
      var known := if r.mmsi in targets then targets[r.mmsi].observations else [];
      var i := IndexOf(known, r.stationId);
      var observations := if i < |known| then known[i := r] else known + [r];
      targets := targets[r.mmsi := Target(observations, r.timestamp)];
      assert targets.Keys == Room(before, r).targets.Keys + {r.mmsi};
      assert |targets| == |targets.Keys|;
    }

    /** Each key is visited once, in any order; a target whose observations all match goes. */
    method RemoveObservations(m: Match)
      modifies this`targets
      ensures TargetsValue() == Spec.RemoveObservations(old(TargetsValue()), m)
      ensures |targets| <= |old(targets)|
    {
      var before := targets;
      var rest := targets.Keys;
      hide Drop, Prune, Spec.RemoveObservations;
      while rest != {}
        invariant rest <= before.Keys && rest <= targets.Keys <= before.Keys
        invariant forall k <- rest :: targets[k] == before[k]
        invariant forall k <- before.Keys - rest ::
                    (k in targets <==> Drop(before[k].observations, m) != [])
                    && (k in targets ==> targets[k] == Prune(before[k], m))
        decreases |rest|
      {
        var mmsi :| mmsi in rest;
        var t := targets[mmsi];
        var kept := DeleteMatching(t.observations, m);
        PruneCases(t, m);
        if kept == [] {
          targets := targets - {mmsi};
        } else if |kept| < |t.observations| {
          var newest := NewestOfAll(kept);
          targets := targets[mmsi := Target(kept, newest)];
        }
        rest := rest - {mmsi};
      }
      FewerTargets(targets, before);
      RemovedPointwise(TargetStore(before, evictions), targets, m);
    }

    /** Removes observations aged EXPIRY_AGE or more. */
    method Expire(at: int)
      modifies this`targets
      ensures TargetsValue() == Spec.Expire(old(TargetsValue()), at)
      ensures |targets| <= |old(targets)|
    {
      RemoveObservations(Aged(at));
    }

    /** Adds an empty receiver for a station. */
    method AddStation(id: string)
      requires Valid()
      modifies this`stations
      ensures Valid() && fresh(stations.Values - old(stations.Values))
      ensures Value() == old(Value()).(receivers := old(Value()).receivers[id := NewReceiver()])
    {
      hide RingValid;
      var added := new StationReceptions();
      NewRing();
      stations := stations[id := added];
      assert stations.Values <= old(stations.Values) + {added};
      assert Receivers() == old(Receivers())[id := NewReceiver()];
    }

    /** Appends r to the history of its station. */
    method Push(r: Reception)
      requires Valid() && r.stationId in stations
      modifies stations.Values
      ensures Valid()
      ensures Receivers() == old(Receivers())[r.stationId := Spec.Push(old(Receivers())[r.stationId], r)]
    {
      hide RingValid, Spec.Push;
      stations[r.stationId].Push(r);
    }

    /** Assigns the counters of one station. */
    method SetStats(id: string, stats: Stats)
      requires Valid() && id in stations
      modifies stations.Values
      ensures Valid()
      ensures Receivers() == old(Receivers())[id := old(Receivers())[id].(stats := stats)]
    {
      hide RingValid;
      RingIgnoresStats(stations[id].Value(), stats);
      stations[id].stats := stats;
      assert stations[id].Value() == old(stations[id].Value()).(stats := stats);
    }

    method AssignStats(sites: seq<Site>, stats: seq<Stats>)
      requires Valid() && |sites| == |stats| && forall st <- sites :: st.id in stations
      modifies stations.Values
      ensures Valid()
      ensures Receivers() == Spec.SetStats(old(Receivers()), sites, stats, |sites|)
    {
      ghost var before := Receivers();
      hide Valid, RingValid;
      for i := 0 to |sites|
        invariant Valid() && Receivers() == Spec.SetStats(before, sites, stats, i)
      {
        assert sites[i] in sites && sites[i].id in stations;
        SetStats(sites[i].id, stats[i]);
      }
    }

    /** The store while records are applied, expired being the time of the last expiry. */
    ghost function Applied(expired: int): Applying
      reads this`stations, this`targets, this`evictions, stations.Values
    {
      Applying(Receivers(), TargetsValue(), expired)
    }

    method ApplyOne(r: Reception, expired: int) returns (at: int)
      requires Valid() && r.stationId in stations
      modifies this`targets, this`evictions, stations.Values
      ensures Valid() && Applied(at) == Spec.ApplyRecord(old(Applied(expired)), r)
    {
      hide StationsValid, Receivers, Spec.Push, Spec.Expire, Spec.Record;
      at := expired;
      if r.timestamp > expired {
        Expire(r.timestamp);
        at := r.timestamp;
      }
      Push(r);
      Record(r);
    }

    method ApplyAll(records: seq<Reception>)
      requires Valid() && forall r <- records :: r.stationId in stations
      modifies this`targets, this`evictions, stations.Values
      ensures Valid() && TargetsValue() == ApplyRecords(old(Applied(0)), records).targets
      ensures Receivers() == ApplyRecords(old(Applied(0)), records).receivers
    {
      hide Valid, RingValid, Spec.ApplyRecord;
      ghost var start := Applied(0);
      var expired := 0;
      for i := 0 to |records|
        invariant Valid() && Applied(expired) == ApplyRecords(start, records[..i])
      {
        assert records[..i + 1][..i] == records[..i] && records[i] in records;
        expired := ApplyOne(records[i], expired);
      }
      assert records[..|records|] == records;
    }

    /** applyReceptions: cannot fail, because every record belongs to a configured station. */
    method Apply(sites: seq<Site>, batch: Batch, now: int)
      requires Valid() && |sites| == |batch.stats|
      requires forall st <- sites :: st.id in stations
      requires forall r <- batch.records :: r.stationId in stations
      modifies this`targets, this`evictions, this`receptions, this`receivedTransmissions, stations.Values
      ensures Valid() && Tracks(old(Value()), sites)
      ensures Value() == ApplyReceptions(old(Value()), sites, batch, now)
    {
      hide StationsValid, Receivers, Spec.Expire, ApplyRecords, Spec.SetStats;
      AssignStats(sites, batch.stats);
      ApplyAll(batch.records);
      Expire(now);
      receptions := batch.receptions;
      receivedTransmissions := batch.receivedTransmissions;
    }

    method RemoveStation(id: string)
      requires Valid()
      modifies this
      ensures Valid() && stations.Values <= old(stations.Values)
      ensures Value() == old(Value()).(receivers := old(Value()).receivers - {id},
                                       targets := Spec.RemoveObservations(old(TargetsValue()), Of(id)))
    {
      hide RingValid, Spec.RemoveObservations;
      stations := stations - {id};
      assert Receivers() == old(Receivers()) - {id};
      RemoveObservations(Of(id));
    }
  }

  lemma RingIgnoresStats(rc: Receiver, stats: Stats)
    requires RingValid(rc)
    ensures RingValid(rc.(stats := stats))
  {
  }

  lemma NewRing()
    ensures RingValid(NewReceiver())
  {
  }

  /** The loop of evict, whatever order the map is walked in. */
  method FindVictim(targets: map<nat, Target>) returns (victim: nat)
    requires |targets| > 0
    ensures IsVictim(TargetStore(targets, 0), victim)
  {
    hide EvictedBefore, FirstOf, IsVictim;
    var rest, oldest, first := targets.Keys, 0, true;
    victim := 0;
    ghost var seen: set<nat> := {};
    while rest != {}
      invariant rest <= targets.Keys && seen == targets.Keys - rest && first == (seen == {})
      invariant !first ==> victim in seen && oldest == targets[victim].receivedAt && FirstOf(targets, seen, victim)
      decreases rest
    {
      var mmsi :| mmsi in rest;
      assert mmsi in targets && mmsi !in seen;
      var t := targets[mmsi];
      if first {
        FirstAlone(targets, mmsi);
      } else {
        NextVictim(targets, seen, victim, mmsi);
      }
      if first || t.receivedAt < oldest || (t.receivedAt == oldest && mmsi < victim) {
        victim, oldest, first := mmsi, t.receivedAt, false;
      }
      rest, seen := rest - {mmsi}, seen + {mmsi};
    }
    assert seen == targets.Keys;
    assert |targets.Keys| == |targets|;
    FirstIsVictim(targets, victim);
  }

  /** v is evicted before everything else in seen. */
  ghost predicate FirstOf(targets: map<nat, Target>, seen: set<nat>, v: nat)
    requires seen <= targets.Keys
  {
    v in seen && forall m <- seen :: m != v ==> EvictedBefore(TargetStore(targets, 0), v, m)
  }

  lemma FirstAlone(targets: map<nat, Target>, mmsi: nat)
    requires mmsi in targets
    ensures FirstOf(targets, {} + {mmsi}, mmsi)
  {
  }

  lemma NextVictim(targets: map<nat, Target>, seen: set<nat>, v: nat, mmsi: nat)
    requires seen <= targets.Keys && v in seen && FirstOf(targets, seen, v) && mmsi in targets && mmsi !in seen
    ensures var (a, b) := (targets[mmsi].receivedAt, targets[v].receivedAt);
            FirstOf(targets, seen + {mmsi}, if a < b || (a == b && mmsi < v) then mmsi else v)
  {
  }

  lemma FirstIsVictim(targets: map<nat, Target>, v: nat)
    requires FirstOf(targets, targets.Keys, v)
    ensures IsVictim(TargetStore(targets, 0), v)
  {
  }

  /** There is only one victim. */
  lemma VictimUnique(ts: TargetStore, victim: nat)
    requires IsVictim(TargetStore(ts.targets, 0), victim)
    ensures |ts.targets| > 0 && Evict(ts) == TargetStore(ts.targets - {victim}, ts.evictions + 1)
  {
    assert victim in ts.targets.Keys;
    assert |ts.targets.Keys| > 0;
    var v := Victim(ts);
    NotBothBefore(ts, v, victim);
    assert v != victim ==> EvictedBefore(TargetStore(ts.targets, 0), victim, v);
  }

  lemma NotBothBefore(ts: TargetStore, a: nat, b: nat)
    requires a in ts.targets && b in ts.targets
    ensures !(EvictedBefore(ts, a, b) && EvictedBefore(ts, b, a))
  {
  }

  /** slices.DeleteFunc. */
  method DeleteMatching(observations: seq<Reception>, m: Match) returns (kept: seq<Reception>)
    ensures kept == Drop(observations, m)
  {
    kept := [];
    for i := 0 to |observations|
      invariant kept == Drop(observations[..i], m)
    {
      assert observations[..i + 1][..i] == observations[..i];
      if !Matches(m, observations[i]) {
        kept := kept + [observations[i]];
      }
    }
    assert observations[..|observations|] == observations;
  }

  method NewestOfAll(observations: seq<Reception>) returns (newest: int)
    ensures newest == NewestTime(observations)
  {
    newest := 0;
    for i := 0 to |observations|
      invariant newest == NewestTime(observations[..i])
    {
      assert observations[..i + 1][..i] == observations[..i];
      if observations[i].timestamp > newest {
        newest := observations[i].timestamp;
      }
    }
    assert observations[..|observations|] == observations;
  }

  lemma PruneCases(t: Target, m: Match)
    ensures |Drop(t.observations, m)| <= |t.observations|
    ensures Prune(t, m) == if |Drop(t.observations, m)| < |t.observations|
                           then Target(Drop(t.observations, m), NewestTime(Drop(t.observations, m))) else t
  {
    DropMembers(t.observations, m);
    if |Drop(t.observations, m)| == |t.observations| {
      DropNothing(t.observations, m);
    }
  }

  lemma RemovedPointwise(ts: TargetStore, after: map<nat, Target>, m: Match)
    requires after.Keys <= ts.targets.Keys
    requires forall k <- ts.targets ::
               (k in after <==> Drop(ts.targets[k].observations, m) != []) && (k in after ==> after[k] == Prune(ts.targets[k], m))
    ensures RemoveObservations(ts, m) == ts.(targets := after)
  {
    hide Drop, Prune;
  }
}
