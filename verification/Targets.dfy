/** The bounded target store against the unbounded reception log (simulation/observation.go). */
module Targets {
  import opened Basics
  import opened Model
  import opened Engine
  import opened Receiving

  // ----- What every stored target keeps -----

  ghost predicate DistinctStations(observations: seq<Reception>) {
    forall i, j :: 0 <= i < j < |observations| ==> observations[i].stationId != observations[j].stationId
  }

  ghost predicate TargetOk(mmsi: nat, t: Target) {
    && t.observations != []
    && DistinctStations(t.observations)
    && (forall r <- t.observations :: r.mmsi == mmsi && r.timestamp > 0)
    && t.receivedAt == NewestTime(t.observations)
  }

  ghost predicate TargetsOk(ts: TargetStore) {
    && (forall m <- ts.targets :: TargetOk(m, ts.targets[m]))
    && |ts.targets| <= TARGET_LIMIT
  }

  /** No observation is later than now nor aged EXPIRY_AGE at now. */
  ghost predicate YoungTarget(t: Target, now: int) {
    forall r <- t.observations :: r.timestamp <= now && !Matches(Aged(now), r)
  }

  ghost predicate Young(ts: TargetStore, now: int) {
    forall m <- ts.targets :: YoungTarget(ts.targets[m], now)
  }

  /** Every observation of a satisfies what every observation of b does. */
  ghost predicate Subsumed(a: map<nat, Target>, b: map<nat, Target>) {
    forall m <- a :: m in b && forall x <- a[m].observations :: x in b[m].observations
  }

  lemma {:induction false} DropMembers(s: seq<Reception>, m: Match)
    ensures |Drop(s, m)| <= |s|
    ensures forall r :: r in Drop(s, m) <==> r in s && !Matches(m, r)
  {
    if s != [] {
      var front, last := s[..|s| - 1], s[|s| - 1];
      DropMembers(front, m);
      assert s == front + [last];
    }
  }

  lemma {:induction false} NewestTimeBounds(s: seq<Reception>)
    ensures NewestTime(s) >= 0
    ensures forall r <- s :: r.timestamp <= NewestTime(s)
    ensures NewestTime(s) == 0 || exists r <- s :: r.timestamp == NewestTime(s)
  {
    if s != [] {
      NewestTimeBounds(s[..|s| - 1]);
      assert s == s[..|s| - 1] + [s[|s| - 1]];
      assert s[|s| - 1] in s;
    }
  }

  lemma {:induction false} DropKeepsOrder(s: seq<Reception>, m: Match)
    requires DistinctStations(s)
    ensures DistinctStations(Drop(s, m))
  {
    if s != [] {
      var front, last := s[..|s| - 1], s[|s| - 1];
      DropKeepsOrder(front, m);
      DropMembers(front, m);
      forall r | r in Drop(front, m)
        ensures r.stationId != last.stationId
      {
        var i :| 0 <= i < |front| && front[i] == r;
        assert s[i].stationId != s[|s| - 1].stationId;
      }
    }
  }

  lemma {:induction false} DropNothing(s: seq<Reception>, m: Match)
    requires |Drop(s, m)| == |s|
    ensures Drop(s, m) == s
  {
    if s != [] {
      DropMembers(s[..|s| - 1], m);
      DropNothing(s[..|s| - 1], m);
    }
  }

  lemma PruneKeepsTarget(mmsi: nat, t: Target, m: Match)
    requires TargetOk(mmsi, t) && Drop(t.observations, m) != []
    ensures TargetOk(mmsi, Prune(t, m))
  {
    DropMembers(t.observations, m);
    DropKeepsOrder(t.observations, m);
    if |Drop(t.observations, m)| == |t.observations| {
      DropNothing(t.observations, m);
    }
  }

  lemma FewerTargets(a: map<nat, Target>, b: map<nat, Target>)
    requires a.Keys <= b.Keys
    ensures |a| <= |b|
  {
    SubsetSize(a.Keys, b.Keys);
  }

  lemma {:induction false} SubsetSize<T>(a: set<T>, b: set<T>)
    requires a <= b
    ensures |a| <= |b|
  {
    assert b == a + (b - a);
  }

  lemma RemovalKeepsTargets(ts: TargetStore, m: Match)
    requires TargetsOk(ts)
    ensures TargetsOk(RemoveObservations(ts, m))
  {
    hide TargetOk, Drop, Prune;
    var next := RemoveObservations(ts, m);
    forall mmsi | mmsi in next.targets
      ensures TargetOk(mmsi, next.targets[mmsi])
    {
      PruneKeepsTarget(mmsi, ts.targets[mmsi], m);
    }
    FewerTargets(next.targets, ts.targets);
  }

  /** Removing by m and then by a wider n is removing by n. */
  lemma {:induction false} DropTwice(s: seq<Reception>, m: Match, n: Match)
    requires forall r :: Matches(m, r) ==> Matches(n, r)
    ensures Drop(Drop(s, m), n) == Drop(s, n)
  {
    if s != [] {
      var front, last := s[..|s| - 1], s[|s| - 1];
      DropTwice(front, m, n);
      if !Matches(m, last) {
        assert (Drop(front, m) + [last])[..|Drop(front, m)|] == Drop(front, m);
      }
    }
  }

  lemma PruneTwice(t: Target, m: Match, n: Match)
    requires forall r :: Matches(m, r) ==> Matches(n, r)
    ensures Prune(Prune(t, m), n) == Prune(t, n)
  {
    var a, b, c := t.observations, Drop(t.observations, m), Drop(t.observations, n);
    DropTwice(a, m, n);
    DropMembers(a, m);
    DropMembers(b, n);
    if |b| == |a| {
      DropNothing(a, m);
    } else if |c| == |b| {
      DropNothing(b, n);
    }
  }

  lemma RemovedAt(ts: TargetStore, m: Match, k: nat)
    ensures var after := RemoveObservations(ts, m).targets;
            && (k in after <==> k in ts.targets && Drop(ts.targets[k].observations, m) != [])
            && (k in after ==> after[k] == Prune(ts.targets[k], m))
  {
    hide Drop, Prune;
  }

  lemma RemoveTwiceAt(ts: TargetStore, m: Match, n: Match, k: nat)
    requires forall r :: Matches(m, r) ==> Matches(n, r)
    ensures var twice, once := RemoveObservations(RemoveObservations(ts, m), n).targets, RemoveObservations(ts, n).targets;
            (k in twice <==> k in once) && (k in once ==> twice[k] == once[k])
  {
    hide Prune, Drop, Matches, RemoveObservations;
    var first := RemoveObservations(ts, m);
    RemovedAt(ts, m, k);
    RemovedAt(ts, n, k);
    RemovedAt(first, n, k);
    if k in ts.targets {
      DropTwice(ts.targets[k].observations, m, n);
      PruneTwice(ts.targets[k], m, n);
      PruneObservations(ts.targets[k], m);
      NothingDropped(n);
    }
  }

  lemma NothingDropped(n: Match)
    ensures Drop([], n) == []
  {
  }

  lemma RemoveTwice(ts: TargetStore, m: Match, n: Match)
    requires forall r :: Matches(m, r) ==> Matches(n, r)
    ensures RemoveObservations(RemoveObservations(ts, m), n) == RemoveObservations(ts, n)
  {
    hide Prune, Drop, Matches;
    var once, twice := RemoveObservations(ts, n), RemoveObservations(RemoveObservations(ts, m), n);
    assert once.evictions == twice.evictions;
    hide RemoveObservations;
    forall k: nat
      ensures k in twice.targets <==> k in once.targets
      ensures k in once.targets ==> twice.targets[k] == once.targets[k]
    {
      RemoveTwiceAt(ts, m, n, k);
    }
    assert once.targets == twice.targets;
  }

  lemma PruneObservations(t: Target, m: Match)
    ensures Prune(t, m).observations == Drop(t.observations, m)
  {
  }

  /** Expiring at an earlier instant first makes no difference. */
  lemma ExpireTwice(ts: TargetStore, a: int, b: int)
    requires a <= b
    ensures Expire(Expire(ts, a), b) == Expire(ts, b)
  {
    RemoveTwice(ts, Aged(a), Aged(b));
  }

  lemma {:induction false} DropNone(s: seq<Reception>, m: Match)
    requires forall r <- s :: !Matches(m, r)
    ensures Drop(s, m) == s
  {
    if s != [] {
      DropNone(s[..|s| - 1], m);
      assert s == s[..|s| - 1] + [s[|s| - 1]];
    }
  }

  /** Expiring a store with nothing aged changes nothing. */
  lemma ExpireYoung(ts: TargetStore, now: int)
    requires TargetsOk(ts) && Young(ts, now)
    ensures Expire(ts, now) == ts
  {
    forall m | m in ts.targets
      ensures Drop(ts.targets[m].observations, Aged(now)) == ts.targets[m].observations != []
      ensures Prune(ts.targets[m], Aged(now)) == ts.targets[m]
    {
      assert TargetOk(m, ts.targets[m]) && YoungTarget(ts.targets[m], now);
      DropNone(ts.targets[m].observations, Aged(now));
    }
    hide Drop, Prune, TargetOk;
    assert Expire(ts, now).targets == ts.targets;
  }

  lemma ExpiredTarget(t: Target, from: int, now: int)
    requires YoungTarget(t, from) && from <= now
    ensures YoungTarget(Prune(t, Aged(now)), now)
    ensures forall x <- Prune(t, Aged(now)).observations :: x in t.observations
  {
    DropMembers(t.observations, Aged(now));
  }

  lemma ExpireKeeps(ts: TargetStore, from: int, now: int)
    requires TargetsOk(ts) && Young(ts, from) && from <= now
    ensures TargetsOk(Expire(ts, now)) && Young(Expire(ts, now), now)
    ensures Expire(ts, now).evictions == ts.evictions
    ensures Subsumed(Expire(ts, now).targets, ts.targets)
  {
    RemovalKeepsTargets(ts, Aged(now));
    hide YoungTarget, Prune, Drop, TargetOk;
    forall m | m in Expire(ts, now).targets
      ensures m in ts.targets && YoungTarget(Expire(ts, now).targets[m], now)
      ensures forall x <- Expire(ts, now).targets[m].observations :: x in ts.targets[m].observations
    {
      ExpiredTarget(ts.targets[m], from, now);
    }
  }

  // ----- Recording -----

  lemma ObserveKeeps(s: seq<Reception>, r: Reception)
    requires DistinctStations(s)
    ensures DistinctStations(Observe(s, r)) && r in Observe(s, r)
    ensures forall x <- Observe(s, r) :: x == r || (x in s && x.stationId != r.stationId)
  {
    var i := IndexOf(s, r.stationId);
    var t := Observe(s, r);
    if i < |s| {
      assert t[i] == r;
      forall x | x in t
        ensures x == r || (x in s && x.stationId != r.stationId)
      {
        var k :| 0 <= k < |t| && t[k] == x;
        assert k != i ==> s[k] == x && (k < i || i < k);
      }
    } else {
      assert t[|s|] == r;
    }
  }

  lemma NewestOf(s: seq<Reception>, r: Reception)
    requires r in s && r.timestamp > 0 && forall x <- s :: x.timestamp <= r.timestamp
    ensures NewestTime(s) == r.timestamp
  {
    NewestTimeBounds(s);
  }

  /** Room for one more target. */
  lemma EvictionMakesRoom(ts: TargetStore)
    requires |ts.targets| > 0
    ensures |Evict(ts).targets| == |ts.targets| - 1
    ensures Evict(ts).targets.Keys == ts.targets.Keys - {Victim(ts)}
  {
    assert Evict(ts).targets.Keys == ts.targets.Keys - {Victim(ts)};
    assert |Evict(ts).targets.Keys| == |ts.targets.Keys| - 1;
  }

  /** The store after making room for r. */
  ghost function Room(ts: TargetStore, r: Reception): TargetStore {
    if r.mmsi !in ts.targets && |ts.targets| >= TARGET_LIMIT then Evict(ts) else ts
  }

  lemma RoomFits(ts: TargetStore, r: Reception)
    requires |ts.targets| <= TARGET_LIMIT
    ensures var room := Room(ts, r);
            && |room.targets.Keys + {r.mmsi}| <= TARGET_LIMIT
            && (forall m <- room.targets :: m in ts.targets && room.targets[m] == ts.targets[m])
            && (r.mmsi in room.targets <==> r.mmsi in ts.targets)
            && ts.evictions <= room.evictions <= ts.evictions + 1
  {
    var room := Room(ts, r);
    if r.mmsi !in ts.targets && |ts.targets| >= TARGET_LIMIT {
      EvictionMakesRoom(ts);
      assert |room.targets.Keys| == TARGET_LIMIT - 1;
    } else if r.mmsi in ts.targets {
      assert room.targets.Keys + {r.mmsi} == ts.targets.Keys;
    } else {
      assert |room.targets.Keys| < TARGET_LIMIT;
    }
  }

  function Known(room: TargetStore, mmsi: nat): seq<Reception> {
    if mmsi in room.targets then room.targets[mmsi].observations else []
  }

  lemma RecordIs(ts: TargetStore, r: Reception)
    ensures var room := Room(ts, r);
            && Record(ts, r).targets == room.targets[r.mmsi := Target(Observe(Known(room, r.mmsi), r), r.timestamp)]
            && Record(ts, r).evictions == room.evictions
  {
  }

  lemma ObservedTarget(mmsi: nat, known: seq<Reception>, r: Reception)
    requires r.mmsi == mmsi && r.timestamp > 0 && DistinctStations(known)
    requires forall x <- known :: x.mmsi == mmsi && 0 < x.timestamp <= r.timestamp && !Matches(Aged(r.timestamp), x)
    ensures var t := Target(Observe(known, r), r.timestamp);
            && TargetOk(mmsi, t) && YoungTarget(t, r.timestamp) && r in t.observations
            && forall x <- t.observations :: x == r || x in known
  {
    ObserveKeeps(known, r);
    NewestOf(Observe(known, r), r);
  }

  lemma KnownOk(ts: TargetStore, r: Reception)
    requires TargetsOk(ts) && Young(ts, r.timestamp)
    ensures var known := Known(Room(ts, r), r.mmsi);
            && DistinctStations(known)
            && (forall x <- known :: x.mmsi == r.mmsi && 0 < x.timestamp <= r.timestamp && !Matches(Aged(r.timestamp), x))
            && (forall x <- known :: r.mmsi in ts.targets && x in ts.targets[r.mmsi].observations)
  {
    RoomFits(ts, r);
    hide Room;
    if r.mmsi in ts.targets {
      assert TargetOk(r.mmsi, ts.targets[r.mmsi]) && YoungTarget(ts.targets[r.mmsi], r.timestamp);
    }
  }

  /** Recording a reception at least as new as everything stored. */
  lemma RecordKeepsTargets(ts: TargetStore, r: Reception)
    requires TargetsOk(ts) && Young(ts, r.timestamp) && r.timestamp > 0
    ensures TargetsOk(Record(ts, r)) && Young(Record(ts, r), r.timestamp)
    ensures r.mmsi in Record(ts, r).targets && r in Record(ts, r).targets[r.mmsi].observations
    ensures Record(ts, r).targets[r.mmsi].receivedAt == r.timestamp
    ensures Record(ts, r).targets.Keys == Room(ts, r).targets.Keys + {r.mmsi}
    ensures forall m <- Record(ts, r).targets :: m == r.mmsi || (m in ts.targets && Record(ts, r).targets[m] == ts.targets[m])
    ensures ts.evictions <= Record(ts, r).evictions <= ts.evictions + 1
    ensures forall x <- Record(ts, r).targets[r.mmsi].observations ::
              x == r || (r.mmsi in ts.targets && x in ts.targets[r.mmsi].observations)
  {
    hide Observe, Room, Record, TargetOk, YoungTarget, Known, DistinctStations;
    var room, next := Room(ts, r), Record(ts, r);
    RoomFits(ts, r);
    RecordIs(ts, r);
    KnownOk(ts, r);
    ObservedTarget(r.mmsi, Known(room, r.mmsi), r);
    assert next.targets.Keys == room.targets.Keys + {r.mmsi};
    assert |next.targets.Keys| <= TARGET_LIMIT;
  }

  // ----- Applying a batch, receivers and targets apart -----

  /** The targets while recording, with the time of the last expiry. */
  datatype Recording = Recording(targets: TargetStore, expired: int)

  ghost function RecordNext(a: Recording, r: Reception): Recording {
    var targets := if r.timestamp > a.expired then Expire(a.targets, r.timestamp) else a.targets;
    Recording(Record(targets, r), Max(r.timestamp, a.expired))
  }

  ghost function RecordAll(a: Recording, records: seq<Reception>): Recording {
    if records == [] then a else RecordNext(RecordAll(a, records[..|records| - 1]), records[|records| - 1])
  }

  function PushAll(rc: Receiver, records: seq<Reception>): Receiver {
    if records == [] then rc else Push(PushAll(rc, records[..|records| - 1]), records[|records| - 1])
  }

  lemma ApplyRecordApart(a: Applying, r: Reception)
    requires r.stationId in a.receivers
    ensures var b := ApplyRecord(a, r);
            && b.receivers == a.receivers[r.stationId := Push(a.receivers[r.stationId], r)]
            && Recording(b.targets, b.expired) == RecordNext(Recording(a.targets, a.expired), r)
  {
    hide Record, Expire, Push;
  }

  lemma PushOwn(rc: Receiver, records: seq<Reception>, r: Reception, id: string)
    ensures PushAll(rc, OfStation(records + [r], id))
         == if r.stationId == id then Push(PushAll(rc, OfStation(records, id)), r) else PushAll(rc, OfStation(records, id))
  {
    OfStationAppend(records, r, id);
    if r.stationId == id {
      assert (OfStation(records, id) + [r])[..|OfStation(records, id)|] == OfStation(records, id);
    }
  }

  lemma {:induction false} ApplyRecordsTargets(a: Applying, records: seq<Reception>)
    requires forall r <- records :: r.stationId in a.receivers
    ensures ApplyRecords(a, records).receivers.Keys == a.receivers.Keys
    ensures var b := ApplyRecords(a, records);
            RecordAll(Recording(a.targets, a.expired), records) == Recording(b.targets, b.expired)
  {
    if records != [] {
      var front, r := records[..|records| - 1], records[|records| - 1];
      ApplyRecordsTargets(a, front);
      ApplyRecordApart(ApplyRecords(a, front), r);
      hide ApplyRecord, RecordNext;
    }
  }

  lemma ApplyLast(a: Applying, records: seq<Reception>)
    requires records != []
    requires records[|records| - 1].stationId in ApplyRecords(a, records[..|records| - 1]).receivers
    ensures var b, r := ApplyRecords(a, records[..|records| - 1]), records[|records| - 1];
            ApplyRecords(a, records).receivers == b.receivers[r.stationId := Push(b.receivers[r.stationId], r)]
  {
    hide Record, Expire, Push;
  }

  lemma {:induction false} ApplyRecordsReceiver(a: Applying, records: seq<Reception>, id: string)
    requires forall r <- records :: r.stationId in a.receivers
    requires id in a.receivers
    ensures ApplyRecords(a, records).receivers.Keys == a.receivers.Keys
    ensures ApplyRecords(a, records).receivers[id] == PushAll(a.receivers[id], OfStation(records, id))
  {
    hide OfStation, Push, ApplyRecord;
    if records == [] {
      NothingOfStation(id);
    } else {
      var front, r := records[..|records| - 1], records[|records| - 1];
      ApplyRecordsReceiver(a, front, id);
      ApplyLast(a, records);
      PushOwn(a.receivers[id], front, r, id);
      assert records == front + [r];
    }
  }

  lemma NothingOfStation(id: string)
    ensures OfStation([], id) == []
  {
  }

  lemma {:induction false} PushAllConcat(rc: Receiver, a: seq<Reception>, b: seq<Reception>)
    ensures PushAll(rc, a + b) == PushAll(PushAll(rc, a), b)
  {
    if b == [] {
      assert a + b == a;
    } else {
      var n := |b| - 1;
      PushAllConcat(rc, a, b[..n]);
      assert a + b == a + b[..n] + [b[n]];
      assert (a + b)[..|a + b| - 1] == a + b[..n];
    }
  }

  lemma {:induction false} RecordAllConcat(a: Recording, x: seq<Reception>, y: seq<Reception>)
    ensures RecordAll(a, x + y) == RecordAll(RecordAll(a, x), y)
  {
    hide RecordNext;
    if y == [] {
      assert x + y == x;
    } else {
      var n := |y| - 1;
      RecordAllConcat(a, x, y[..n]);
      assert (x + y)[..|x + y| - 1] == x + y[..n];
    }
  }

  ghost predicate TimeOrdered(records: seq<Reception>) {
    forall i, j :: 0 <= i < j < |records| ==> records[i].timestamp <= records[j].timestamp
  }

  /** The instant of the newest record. */
  function LastTime(records: seq<Reception>, otherwise: int): int {
    if records == [] then otherwise else records[|records| - 1].timestamp
  }

  /** Every observation of b is a record or was in a. */
  ghost predicate Gained(b: map<nat, Target>, a: map<nat, Target>, records: seq<Reception>) {
    forall m <- b :: forall x <- b[m].observations :: x in records || (m in a && x in a[m].observations)
  }

  /** Recording a batch in time order keeps the targets. */
  lemma {:induction false} RecordAllKeepsTargets(a: Recording, records: seq<Reception>, from: int)
    requires TargetsOk(a.targets) && Young(a.targets, from) && 0 <= a.expired && (a.expired == 0 || a.expired == from)
    requires TimeOrdered(records) && forall r <- records :: r.timestamp >= from && r.timestamp > 0
    ensures var b := RecordAll(a, records);
            && TargetsOk(b.targets) && Young(b.targets, LastTime(records, from))
            && (b.expired == if records == [] then a.expired else LastTime(records, from))
            && a.targets.evictions <= b.targets.evictions <= a.targets.evictions + |records|
            && Gained(b.targets.targets, a.targets.targets, records)
  {
    hide TargetsOk, Record, Expire, Young, Room;
    if records != [] {
      var n := |records| - 1;
      var front, r := records[..n], records[n];
      RecordAllKeepsTargets(a, front, from);
      assert r in records;
      var b := RecordAll(a, front);
      assert b.expired <= r.timestamp;
      var current := if r.timestamp > b.expired then Expire(b.targets, r.timestamp) else b.targets;
      if r.timestamp > b.expired {
        ExpireKeeps(b.targets, LastTime(front, from), r.timestamp);
      } else {
        assert r.timestamp == LastTime(front, from);
      }
      RecordKeepsTargets(current, r);
    }
  }

  // ----- The greatest targets -----

  /** The newest reception of an MMSI in the log. */
  function LastOf(log: seq<Reception>, mmsi: nat): Option<Reception> {
    if log == [] then None
    else if log[|log| - 1].mmsi == mmsi then Some(log[|log| - 1])
    else LastOf(log[..|log| - 1], mmsi)
  }

  /** An MMSI whose newest reception has not expired. */
  predicate Alive(log: seq<Reception>, now: int, mmsi: nat) {
    LastOf(log, mmsi).Some? && now - LastOf(log, mmsi).value.timestamp < EXPIRY_AGE
  }

  /** The order of targets: by last reception, then by MMSI. */
  predicate Below(log: seq<Reception>, a: nat, b: nat)
    requires LastOf(log, a).Some? && LastOf(log, b).Some?
  {
    var x, y := LastOf(log, a).value.timestamp, LastOf(log, b).value.timestamp;
    x < y || (x == y && a < b)
  }

  /** The stored MMSIs are exactly the TARGET_LIMIT greatest living ones, each with its newest reception. */
  ghost predicate Greatest(ts: TargetStore, log: seq<Reception>, now: int) {
    && |ts.targets| <= TARGET_LIMIT
    && (forall m <- ts.targets ::
          && Alive(log, now, m)
          && LastOf(log, m).value in ts.targets[m].observations
          && ts.targets[m].receivedAt == LastOf(log, m).value.timestamp)
    && (forall m: nat {:trigger Alive(log, now, m)} :: Alive(log, now, m) && m !in ts.targets ==>
          |ts.targets| == TARGET_LIMIT && forall k <- ts.targets :: Below(log, m, k))
  }

  lemma {:induction false} LastOfIsIn(log: seq<Reception>, mmsi: nat)
    requires LastOf(log, mmsi).Some?
    ensures LastOf(log, mmsi).value in log && LastOf(log, mmsi).value.mmsi == mmsi
  {
    if log[|log| - 1].mmsi != mmsi {
      LastOfIsIn(log[..|log| - 1], mmsi);
    }
  }

  lemma LastOfAppend(log: seq<Reception>, r: Reception, mmsi: nat)
    ensures LastOf(log + [r], mmsi) == if r.mmsi == mmsi then Some(r) else LastOf(log, mmsi)
  {
    assert (log + [r])[..|log|] == log;
  }

  lemma ExpireTarget(mmsi: nat, t: Target, last: Reception, now: int)
    requires TargetOk(mmsi, t) && last in t.observations && t.receivedAt == last.timestamp
    ensures Drop(t.observations, Aged(now)) != [] <==> now - last.timestamp < EXPIRY_AGE
    ensures now - last.timestamp < EXPIRY_AGE ==>
              last in Prune(t, Aged(now)).observations && Prune(t, Aged(now)).receivedAt == last.timestamp
  {
    var kept := Drop(t.observations, Aged(now));
    DropMembers(t.observations, Aged(now));
    NewestTimeBounds(t.observations);
    assert kept != [] ==> kept[0] in kept;
    if now - last.timestamp < EXPIRY_AGE {
      assert last in kept;
      NewestOf(kept, last);
    }
  }

  /** Time passing removes exactly the targets that die, and none of them could have displaced another. */
  lemma ExpireKeepsGreatest(ts: TargetStore, log: seq<Reception>, from: int, now: int)
    requires TargetsOk(ts) && Greatest(ts, log, from) && from <= now
    ensures Greatest(Expire(ts, now), log, now)
  {
    var next := Expire(ts, now);
    hide LastOf, Drop, Prune, TargetOk;
    forall m | m in ts.targets
      ensures m in next.targets <==> Alive(log, now, m)
      ensures m in next.targets ==> LastOf(log, m).value in next.targets[m].observations
                                    && next.targets[m].receivedAt == LastOf(log, m).value.timestamp
    {
      assert Alive(log, from, m);
      ExpireTarget(m, ts.targets[m], LastOf(log, m).value, now);
    }
    FewerTargets(next.targets, ts.targets);
    forall m: nat | Alive(log, now, m) && m !in next.targets
      ensures |next.targets| == TARGET_LIMIT && forall k <- next.targets :: Below(log, m, k)
    {
      assert Alive(log, from, m) && m !in ts.targets;
      hide Expire;
      forall k | k in ts.targets
        ensures k in next.targets
      {
        assert Below(log, m, k) && Alive(log, now, k);
      }
      assert next.targets.Keys == ts.targets.Keys;
      assert |next.targets.Keys| == |ts.targets.Keys|;
    }
  }

  /** r is the greatest of the log with r. */
  lemma NewestIsGreatest(log: seq<Reception>, r: Reception, m: nat)
    requires forall x <- log :: x.timestamp < r.timestamp || (x.timestamp == r.timestamp && x.mmsi <= r.mmsi)
    ensures LastOf(log + [r], m) == if r.mmsi == m then Some(r) else LastOf(log, m)
    ensures LastOf(log + [r], r.mmsi) == Some(r)
    ensures LastOf(log, m).Some? && m != r.mmsi ==> Below(log + [r], m, r.mmsi)
  {
    LastOfAppend(log, r, m);
    LastOfAppend(log, r, r.mmsi);
    if LastOf(log, m).Some? {
      LastOfIsIn(log, m);
    }
  }

  /** Whoever is left outside after recording r was outside before, or was just evicted. */
  lemma LeftOutIsBelow(ts: TargetStore, log: seq<Reception>, r: Reception, m: nat, k: nat)
    requires Greatest(ts, log, r.timestamp) && Alive(log, r.timestamp, m) && m != r.mmsi
    requires m !in Room(ts, r).targets && k in Room(ts, r).targets && |ts.targets| <= TARGET_LIMIT
    ensures k in ts.targets && LastOf(log, k).Some? && Below(log, m, k)
    ensures |ts.targets| == TARGET_LIMIT
  {
    RoomFits(ts, r);
    hide LastOf;
    if m in ts.targets {
      EvictionMakesRoom(ts);
      assert m == Victim(ts) && EvictedBefore(ts, m, k);
    }
  }

  /** A reception no earlier in (time, MMSI) than the log becomes the greatest target, displacing at most the least. */
  lemma RecordKeepsGreatest(ts: TargetStore, log: seq<Reception>, r: Reception)
    requires TargetsOk(ts) && Greatest(ts, log, r.timestamp) && Young(ts, r.timestamp) && r.timestamp > 0
    requires forall x <- log :: x.timestamp < r.timestamp || (x.timestamp == r.timestamp && x.mmsi <= r.mmsi)
    ensures Greatest(Record(ts, r), log + [r], r.timestamp)
  {
    hide LastOf, Record, Room, YoungTarget, TargetOk;
    var next, all := Record(ts, r), log + [r];
    RecordKeepsTargets(ts, r);
    forall m: nat
      ensures LastOf(all, m) == if r.mmsi == m then Some(r) else LastOf(log, m)
      ensures LastOf(all, r.mmsi) == Some(r)
      ensures LastOf(log, m).Some? && m != r.mmsi ==> Below(all, m, r.mmsi)
    {
      NewestIsGreatest(log, r, m);
    }
    forall m: nat | Alive(all, r.timestamp, m) && m !in next.targets
      ensures |next.targets| == TARGET_LIMIT && forall k <- next.targets :: Below(all, m, k)
    {
      assert m != r.mmsi && Alive(log, r.timestamp, m);
      forall k | k in next.targets
        ensures Below(all, m, k)
      {
        if k != r.mmsi {
          LeftOutIsBelow(ts, log, r, m, k);
        }
      }
      LeftOutFillsStore(ts, log, r, m);
      assert |next.targets.Keys| == TARGET_LIMIT;
    }
  }

  lemma LeftOutFillsStore(ts: TargetStore, log: seq<Reception>, r: Reception, m: nat)
    requires Greatest(ts, log, r.timestamp) && Alive(log, r.timestamp, m) && m != r.mmsi
    requires m !in Room(ts, r).targets && |ts.targets| <= TARGET_LIMIT
    ensures |Room(ts, r).targets.Keys + {r.mmsi}| == TARGET_LIMIT
  {
    hide LastOf;
    if r.mmsi !in ts.targets && |ts.targets| >= TARGET_LIMIT {
      EvictionMakesRoom(ts);
      assert |Room(ts, r).targets.Keys| == TARGET_LIMIT - 1;
    } else {
      assert m !in ts.targets;
      assert ts.targets.Keys + {r.mmsi} == ts.targets.Keys;
      assert |ts.targets.Keys| == TARGET_LIMIT;
    }
  }

  /** Receptions in order of (time, MMSI). */
  ghost predicate KeyOrdered(log: seq<Reception>) {
    forall i, j :: 0 <= i < j < |log| ==>
      log[i].timestamp < log[j].timestamp || (log[i].timestamp == log[j].timestamp && log[i].mmsi <= log[j].mmsi)
  }

  /** A whole batch, with the expiry before each new record time, keeps the greatest targets. */
  lemma {:induction false} RecordAllKeepsGreatest(a: Recording, log: seq<Reception>, records: seq<Reception>, from: int)
    requires TargetsOk(a.targets) && Young(a.targets, from) && 0 <= a.expired && (a.expired == 0 || a.expired == from)
    requires Greatest(a.targets, log, from) && KeyOrdered(log + records)
    requires forall r <- records :: r.timestamp >= from && r.timestamp > 0
    ensures Greatest(RecordAll(a, records).targets, log + records, LastTime(records, from))
  {
    hide Greatest, RecordNext, TargetsOk, Young;
    if records == [] {
      assert log + records == log;
    } else {
      var n := |records| - 1;
      var front, r := records[..n], records[n];
      assert log + records == log + front + [r];
      KeyOrderedPrefix(log + front, r);
      TailOrdered(log, records);
      RecordAllKeepsGreatest(a, log, front, from);
      RecordAllKeepsTargets(a, front, from);
      assert r in records && records[..n] == front;
      RecordNextKeepsGreatest(RecordAll(a, front), log + front, r, LastTime(front, from));
    }
  }

  lemma RecordNextKeepsGreatest(b: Recording, log: seq<Reception>, r: Reception, t: int)
    requires TargetsOk(b.targets) && Young(b.targets, t) && Greatest(b.targets, log, t)
    requires t <= r.timestamp && 0 < r.timestamp && (b.expired == 0 || b.expired == t)
    requires forall x <- log :: x.timestamp < r.timestamp || (x.timestamp == r.timestamp && x.mmsi <= r.mmsi)
    ensures Greatest(RecordNext(b, r).targets, log + [r], r.timestamp)
  {
    hide Greatest, Record, Expire, TargetsOk, Young, Room;
    if r.timestamp > b.expired {
      ExpireKeeps(b.targets, t, r.timestamp);
      ExpireKeepsGreatest(b.targets, log, t, r.timestamp);
      RecordKeepsGreatest(Expire(b.targets, r.timestamp), log, r);
    } else {
      RecordKeepsGreatest(b.targets, log, r);
    }
  }

  lemma KeyOrderedPrefix(log: seq<Reception>, r: Reception)
    requires KeyOrdered(log + [r])
    ensures KeyOrdered(log)
    ensures forall x <- log :: x.timestamp < r.timestamp || (x.timestamp == r.timestamp && x.mmsi <= r.mmsi)
  {
    var all := log + [r];
    assert forall i :: 0 <= i < |log| ==> all[i] == log[i];
    assert all[|log|] == r;
  }

  lemma TailOrdered(log: seq<Reception>, records: seq<Reception>)
    requires KeyOrdered(log + records)
    ensures TimeOrdered(records) && TimeOrdered(records[..|records| - if records == [] then 0 else 1])
  {
    var all := log + records;
    assert forall i :: 0 <= i < |records| ==> all[|log| + i] == records[i];
  }
}
