/** Station counters and the modulo ring of one-second buckets against the full event log
    (simulation/observation.go). */
module RateWindow {
  import opened Basics
  import opened Model
  import opened Engine

  /** One reception opportunity of one station. */
  datatype Hearing = Hearing(outcome: Outcome, channel: Channel, second: int)

  function CountHearing(s: Stats, h: Hearing): Stats {
    Count(s, h.outcome, h.channel, h.second)
  }

  // ----- Lifetime counters -----

  function Tally(events: seq<Hearing>): Counters {
    if events == [] then NO_COUNTERS
    else
      var h := events[|events| - 1];
      CountOutcome(Tally(events[..|events| - 1]), h.outcome, h.channel)
  }

  function Heard(events: seq<Hearing>): nat {
    if events == [] then 0 else Heard(events[..|events| - 1]) + if events[|events| - 1].outcome == Received then 1 else 0
  }

  /** Outcomes and channels both partition the opportunities. */
  predicate Partitioned(c: Counters) {
    && c.received + c.stationDisabled + c.channelDisabled + c.outsideHorizon + c.insufficientMargin
       + c.probabilisticLoss == c.opportunities
    && c.channelA.opportunities + c.channelB.opportunities == c.opportunities
    && c.channelA.received + c.channelB.received == c.received
    && c.channelA.received <= c.channelA.opportunities && c.channelB.received <= c.channelB.opportunities
  }

  lemma {:induction false} TallyPartitions(events: seq<Hearing>)
    ensures Partitioned(Tally(events))
    ensures Tally(events).opportunities == |events| && Tally(events).received == Heard(events)
  {
    hide CountOutcome;
    if events == [] {
      assert Partitioned(NO_COUNTERS);
    } else {
      var h := events[|events| - 1];
      TallyPartitions(events[..|events| - 1]);
      CountPartitions(Tally(events[..|events| - 1]), h.outcome, h.channel);
    }
  }

  lemma CountPartitions(c: Counters, o: Outcome, channel: Channel)
    requires Partitioned(c)
    ensures var d := CountOutcome(c, o, channel);
            Partitioned(d) && d.opportunities == c.opportunities + 1
            && d.received == c.received + if o == Received then 1 else 0
  {
  }

  // ----- The window -----

  /** Events of one virtual second. */
  function InSecond(events: seq<Hearing>, second: int): (nat, nat) {
    if events == [] then (0, 0)
    else
      var (o, r) := InSecond(events[..|events| - 1], second);
      var h := events[|events| - 1];
      if h.second != second then (o, r) else (o + 1, if h.outcome == Received then r + 1 else r)
  }

  /** The specification: opportunities and receptions with second in (current - 60, current]. */
  function InWindow(events: seq<Hearing>, current: int): (nat, nat) {
    if events == [] then (0, 0)
    else
      var (o, r) := InWindow(events[..|events| - 1], current);
      var h := events[|events| - 1];
      if !Fresh(h.second, current) then (o, r) else (o + 1, if h.outcome == Received then r + 1 else r)
  }

  predicate Fresh(second: int, current: int) {
    current - RATE_BUCKETS < second <= current
  }

  /** The loop of observation over the first n buckets. */
  function SumFresh(buckets: seq<Bucket>, current: int, n: nat): (nat, nat)
    requires n <= |buckets|
  {
    if n == 0 then (0, 0)
    else
      var (o, r) := SumFresh(buckets, current, n - 1);
      var b := buckets[n - 1];
      if Fresh(b.second, current) then (o + b.opportunities, r + b.received) else (o, r)
  }

  /** Bucket k holds the newest second of its residue class that had an event, or nothing. */
  ghost predicate BucketOk(b: Bucket, k: int, events: seq<Hearing>) {
    && b.second >= 0
    && (b.second % RATE_BUCKETS == k || b == Bucket(0, 0, 0))
    && (b.opportunities > 0 || b == Bucket(0, 0, 0))
    && (b.second % RATE_BUCKETS == k ==> (b.opportunities, b.received) == InSecond(events, b.second))
    && (forall h <- events :: h.second % RATE_BUCKETS == k ==> h.second <= b.second)
  }

  ghost predicate BucketsOk(buckets: seq<Bucket>, events: seq<Hearing>) {
    |buckets| == RATE_BUCKETS && forall k :: 0 <= k < RATE_BUCKETS ==> BucketOk(buckets[k], k, events)
  }

  /** Event seconds never decrease and never exceed the bound. */
  ghost predicate InOrder(events: seq<Hearing>, bound: int) {
    && (forall i :: 0 <= i < |events| ==> 0 <= events[i].second <= bound)
    && (forall i, j :: 0 <= i < j < |events| ==> events[i].second <= events[j].second)
  }

  lemma {:induction false} NothingLater(events: seq<Hearing>, second: int)
    requires forall h <- events :: h.second < second
    ensures InSecond(events, second) == (0, 0)
  {
    if events != [] {
      NothingLater(events[..|events| - 1], second);
    }
  }

  lemma NoEvents()
    ensures BucketsOk(NoStats().buckets, [])
  {
  }

  lemma BucketNotLater(b: Bucket, k: int, events: seq<Hearing>, bound: int)
    requires BucketOk(b, k, events) && InOrder(events, bound) && 0 <= bound
    ensures b.second <= bound
  {
    if b.opportunities > 0 {
      SecondHasEvent(events, b.second);
      var h :| h in events && h.second == b.second;
      var i :| 0 <= i < |events| && events[i] == h;
    }
  }

  lemma BucketCounts(buckets: seq<Bucket>, events: seq<Hearing>, h: Hearing, k: int)
    requires BucketsOk(buckets, events) && InOrder(events, h.second) && 0 <= h.second && 0 <= k < RATE_BUCKETS
    ensures BucketOk(CountBucket(buckets, h.second, h.outcome == Received)[k], k, events + [h])
  {
    var all := events + [h];
    assert all[..|events|] == events;
    var b := buckets[k];
    assert BucketOk(b, k, events);
    BucketNotLater(b, k, events, h.second);
    if k == h.second % RATE_BUCKETS {
      if b.second != h.second {
        forall x | x in events
          ensures x.second < h.second
        {
          var i :| 0 <= i < |events| && events[i] == x;
          assert x.second % RATE_BUCKETS == k ==> x.second <= b.second;
        }
        NothingLater(events, h.second);
      }
    }
  }

  /** Counting one more event keeps every bucket right. */
  lemma BucketsCount(buckets: seq<Bucket>, events: seq<Hearing>, h: Hearing)
    requires BucketsOk(buckets, events) && InOrder(events, h.second) && 0 <= h.second
    ensures BucketsOk(CountBucket(buckets, h.second, h.outcome == Received), events + [h])
  {
    var next := CountBucket(buckets, h.second, h.outcome == Received);
    forall k | 0 <= k < RATE_BUCKETS
      ensures BucketOk(next[k], k, events + [h])
    {
      BucketCounts(buckets, events, h, k);
    }
  }

  /** The second of residue class k inside the window. */
  function WindowSecond(current: int, k: int): int {
    current - (current - k) % RATE_BUCKETS
  }

  /** Window events of the residue classes below n. */
  function InClasses(events: seq<Hearing>, current: int, n: nat): (nat, nat) {
    if n == 0 then (0, 0)
    else
      var (o, r) := InClasses(events, current, n - 1);
      var (p, q) := InSecond(events, WindowSecond(current, n - 1));
      (o + p, r + q)
  }

  lemma NoneOfClass(events: seq<Hearing>, current: int, k: int, last: int, second: int)
    requires InOrder(events, current) && forall h <- events :: h.second % RATE_BUCKETS == k ==> h.second <= last
    requires second % RATE_BUCKETS == k && (second > last || second < 0)
    ensures InSecond(events, second) == (0, 0)
  {
    hide InSecond;
    forall h | h in events
      ensures h.second != second
    {
      var i :| 0 <= i < |events| && events[i] == h;
      assert 0 <= h.second;
    }
    NoneInSecond(events, second);
  }

  lemma WindowSecondFits(current: int, k: int)
    requires 0 <= k < RATE_BUCKETS
    ensures WindowSecond(current, k) % RATE_BUCKETS == k && Fresh(WindowSecond(current, k), current)
  {
  }

  /** A bucket counts, if it is fresh, exactly the events of its class's second in the window. */
  lemma FreshBucketCounts(b: Bucket, k: int, events: seq<Hearing>, current: int)
    requires BucketOk(b, k, events) && InOrder(events, current) && 0 <= current && 0 <= k < RATE_BUCKETS
    ensures (if Fresh(b.second, current) then (b.opportunities, b.received) else (0, 0))
         == InSecond(events, WindowSecond(current, k))
  {
    hide InSecond, InOrder, WindowSecond;
    var s := WindowSecond(current, k);
    WindowSecondFits(current, k);
    WindowSecondIs(current, k, b.second);
    BucketNotLater(b, k, events, current);
    if b.second % RATE_BUCKETS != k {
      NoneOfClass(events, current, k, 0, s);
    } else if b.second != s {
      NoneOfClass(events, current, k, b.second, s);
    }
  }

  lemma {:induction false} SecondHasEvent(events: seq<Hearing>, second: int)
    requires InSecond(events, second) != (0, 0)
    ensures exists h :: h in events && h.second == second
  {
    if events[|events| - 1].second != second {
      SecondHasEvent(events[..|events| - 1], second);
      var h :| h in events[..|events| - 1] && h.second == second;
      assert h in events;
    } else {
      assert events[|events| - 1] in events;
    }
  }

  lemma {:induction false} NoneInSecond(events: seq<Hearing>, second: int)
    requires forall h <- events :: h.second != second
    ensures InSecond(events, second) == (0, 0)
  {
    if events != [] {
      NoneInSecond(events[..|events| - 1], second);
    }
  }

  lemma {:induction false} FreshBucketsCountClasses(buckets: seq<Bucket>, events: seq<Hearing>, current: int, n: nat)
    requires BucketsOk(buckets, events) && InOrder(events, current) && 0 <= current && n <= RATE_BUCKETS
    ensures SumFresh(buckets, current, n) == InClasses(events, current, n)
  {
    if n > 0 {
      FreshBucketsCountClasses(buckets, events, current, n - 1);
      FreshBucketCounts(buckets[n - 1], n - 1, events, current);
    }
  }

  lemma WindowSecondIs(current: int, k: int, second: int)
    requires 0 <= k < RATE_BUCKETS
    ensures Fresh(second, current) && second % RATE_BUCKETS == k <==> second == WindowSecond(current, k)
  {
  }

  lemma InSecondAppend(events: seq<Hearing>, h: Hearing, second: int)
    ensures var (o, r) := InSecond(events, second);
            InSecond(events + [h], second)
              == if h.second != second then (o, r) else (o + 1, if h.outcome == Received then r + 1 else r)
  {
    assert (events + [h])[..|events|] == events;
  }

  lemma {:induction false} ClassesOfAppend(events: seq<Hearing>, h: Hearing, current: int, n: nat)
    requires n <= RATE_BUCKETS
    ensures var (o, r), (p, q) := InClasses(events, current, n), InClasses(events + [h], current, n);
            var hit := Fresh(h.second, current) && h.second % RATE_BUCKETS < n;
            p == o + (if hit then 1 else 0) && q == r + (if hit && h.outcome == Received then 1 else 0)
  {
    hide WindowSecond, InSecond, Fresh;
    if n > 0 {
      ClassesOfAppend(events, h, current, n - 1);
      WindowSecondIs(current, n - 1, h.second);
      InSecondAppend(events, h, WindowSecond(current, n - 1));
    }
  }

  lemma {:induction false} NoClasses(current: int, n: nat)
    ensures InClasses([], current, n) == (0, 0)
  {
    if n > 0 {
      NoClasses(current, n - 1);
    }
  }

  lemma {:induction false} ClassesAreWindow(events: seq<Hearing>, current: int)
    ensures InClasses(events, current, RATE_BUCKETS) == InWindow(events, current)
  {
    if events == [] {
      NoClasses(current, RATE_BUCKETS);
    } else {
      var front, h := events[..|events| - 1], events[|events| - 1];
      ClassesAreWindow(front, current);
      ClassesOfAppend(front, h, current, RATE_BUCKETS);
      assert events == front + [h];
    }
  }

  /** The modulo ring equals a sliding window over the full event log. */
  lemma RingIsSlidingWindow(buckets: seq<Bucket>, events: seq<Hearing>, current: int)
    requires BucketsOk(buckets, events) && InOrder(events, current) && 0 <= current
    ensures SumFresh(buckets, current, RATE_BUCKETS) == InWindow(events, current)
  {
    FreshBucketsCountClasses(buckets, events, current, RATE_BUCKETS);
    ClassesAreWindow(events, current);
  }

  /** A window never counts more than the lifetime. */
  lemma {:induction false} WindowWithinLifetime(events: seq<Hearing>, current: int)
    ensures var (o, r) := InWindow(events, current); r <= o <= |events| && r <= Heard(events)
  {
    if events != [] {
      WindowWithinLifetime(events[..|events| - 1], current);
    }
  }
}
