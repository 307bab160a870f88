/** Every station an engine shows passes the display's station checks, in every state that keeps the invariant
    (simulation/observation.go against display/validate.go). */
module HonestStations {
  import opened Basics
  import opened Model
  import opened Sorting
  import opened Worlds
  import opened Engine
  import opened Emission
  import opened RateWindow
  import opened HistoryRing
  import opened Receiving
  import opened Targets
  import opened Listening
  import opened Runs
  import opened CoverageCut
  import opened Wire
  import opened Projections
  import opened Snapshots
  import Station

  // ----- Order of IDs -----

  lemma StringOrder()
    ensures TotalOrder(StringAtMost)
    ensures forall a, b :: StringAtMost(a, b) && StringAtMost(b, a) ==> a == b
    ensures forall a, b :: a != b && StringAtMost(a, b) ==> StringLess(a, b)
  {
    hide StringLess;
    forall a: string, b: string
      ensures StringAtMost(a, b) || StringAtMost(b, a)
      ensures StringAtMost(a, b) && StringAtMost(b, a) ==> a == b
      ensures a != b && StringAtMost(a, b) ==> StringLess(a, b)
    {
      StringsCompare(a, b);
    }
    forall a: string, b: string, c: string | StringAtMost(a, b) && StringAtMost(b, c)
      ensures StringAtMost(a, c)
    {
      StringsChain(a, b, c);
    }
  }

  lemma StringsCompare(a: string, b: string)
    ensures !(StringLess(a, b) && StringLess(b, a))
    ensures a == b || StringLess(a, b) || StringLess(b, a)
  {
    hide StringLess;
    StringLessTotal(a, b);
    if StringLess(a, b) && StringLess(b, a) {
      StringLessTransitive(a, b, a);
      StringLessIrreflexive(a);
    }
  }

  lemma StringsChain(a: string, b: string, c: string)
    requires StringAtMost(a, b) && StringAtMost(b, c)
    ensures StringAtMost(a, c)
  {
    hide StringLess;
    StringLessTotal(a, b);
    StringLessTotal(b, c);
    if StringLess(c, a) {
      if StringLess(a, b) {
        StringLessTransitive(c, a, b);
      }
    }
  }

  // ----- Counters -----

  function Total(values: seq<nat>): nat {
    if values == [] then 0 else Total(values[..|values| - 1]) + values[|values| - 1]
  }

  lemma {:induction false} SumFits(values: seq<nat>)
    requires Total(values) <= MAX_UINT64
    ensures Sum64(values) == Some(Total(values))
  {
    if values != [] {
      SumFits(values[..|values| - 1]);
    }
  }

  lemma TotalAppend(values: seq<nat>, x: nat)
    ensures Total(values + [x]) == Total(values) + x
  {
    assert (values + [x])[..|values|] == values;
  }

  lemma TotalOfTwo(a: nat, b: nat)
    ensures Total([a, b]) == a + b
  {
    assert [a, b] == [] + [a] + [b];
    TotalAppend([], a);
    TotalAppend([] + [a], b);
  }

  lemma TotalOfSix(a: nat, b: nat, c: nat, d: nat, e: nat, f: nat)
    ensures Total([a, b, c, d, e, f]) == a + b + c + d + e + f
  {
    hide Total;
    TotalOfTwo(a, b);
    TotalAppend([a, b], c);
    TotalAppend([a, b] + [c], d);
    TotalAppend([a, b] + [c] + [d], e);
    TotalAppend([a, b] + [c] + [d] + [e], f);
    assert [a, b, c, d, e, f] == [a, b] + [c] + [d] + [e] + [f];
  }

  lemma PartitionAdds(c: Counters)
    requires Partitioned(c) && c.opportunities <= MAX_UINT64
    ensures Sum64([c.received, c.stationDisabled, c.channelDisabled, c.outsideHorizon, c.insufficientMargin, c.probabilisticLoss])
            == Some(c.opportunities)
    ensures Sum64([c.channelA.opportunities, c.channelB.opportunities]) == Some(c.opportunities)
    ensures Sum64([c.channelA.received, c.channelB.received]) == Some(c.received)
  {
    TotalOfSix(c.received, c.stationDisabled, c.channelDisabled, c.outsideHorizon, c.insufficientMargin, c.probabilisticLoss);
    TotalOfTwo(c.channelA.opportunities, c.channelB.opportunities);
    TotalOfTwo(c.channelA.received, c.channelB.received);
    hide Sum64, Total;
    SumFits([c.received, c.stationDisabled, c.channelDisabled, c.outsideHorizon, c.insufficientMargin, c.probabilisticLoss]);
    SumFits([c.channelA.opportunities, c.channelB.opportunities]);
    SumFits([c.channelA.received, c.channelB.received]);
  }

  lemma RatioInRange(part: nat, whole: nat)
    requires part <= whole
    ensures RatioAccepted(Ratio(part, whole), whole)
  {
    if whole > 0 {
      var x, y := part as real, whole as real;
      assert x <= y && y > 0.0;
      assert x / y <= 1.0 by {
        assert x / y * y == x;
      }
    }
  }

  lemma RateIsSome(count: nat, duration: int)
    ensures Rate(count, duration).Some? <==> duration > 0
    ensures Rate(count, duration).Some? ==> Rate(count, duration).value >= 0.0
  {
    if duration > 0 {
      var seconds := duration as real / SECOND as real;
      assert seconds > 0.0;
    }
  }

  lemma MillisOf(d: int)
    requires d >= 0
    ensures 0 <= Millis(d) && (Millis(d) > 0 ==> d > 0)
    ensures forall limit :: d <= limit * MILLISECOND ==> Millis(d) <= limit
  {
  }

  /** Listening so far, the events are in order up to the current second. */
  lemma EventsUpToNow(w: World, sent: seq<Transmission>, elapsed: int, events: seq<Hearing>)
    requires SentOk(w, sent) && InOrder(events, LastSecond(w, sent, |sent|)) && 0 <= elapsed
    requires forall t <- sent :: t.message.timestamp <= w.start + elapsed
    ensures InOrder(events, elapsed / SECOND) && 0 <= elapsed / SECOND
  {
    if sent != [] {
      var n := |sent| - 1;
      assert sent[n] in sent;
      DivMonotone(sent[n].message.timestamp - w.start, elapsed);
    }
    DivMonotone(0, elapsed);
  }

  lemma RecentHonest(w: World, sent: seq<Transmission>, st: Site, rc: Receiver, wit: Witness, elapsed: int, now: int)
    requires SentOk(w, sent) && Listens(w, sent, |sent|, st, rc, wit) && 0 <= elapsed && now == w.start + elapsed
    requires forall t <- sent :: t.message.timestamp <= now
    requires st.createdAt <= now
    ensures RecentAccepted(RecentOf(rc, st, elapsed, now), rc.stats.counters, PublishedLimits())
  {
    hide SentOk, LogOk, Retains, SumFresh, InWindow, Tally, InOrder, Rate, Ratio, RatioAccepted, Millis;
    EventsUpToNow(w, sent, elapsed, wit.events);
    RingIsSlidingWindow(rc.stats.buckets, wit.events, elapsed / SECOND);
    WindowWithinLifetime(wit.events, elapsed / SECOND);
    TallyPartitions(wit.events);
    var (o, r) := SumFresh(rc.stats.buckets, elapsed / SECOND, RATE_BUCKETS);
    var duration := Min(RATE_WINDOW, now - st.createdAt);
    RatioInRange(r, o);
    RateIsSome(o, duration);
    RateIsSome(r, duration);
    MillisOf(duration);
    assert RATE_WINDOW == 60_000 * MILLISECOND;
    assert |rc.stats.buckets| == RATE_BUCKETS;
  }

  lemma BoundsHonest(rc: Receiver, log: seq<Reception>)
    requires Retains(rc, log) && Contiguous(log) && rc.stats.last == |log|
    ensures BoundsAccepted(OldestOf(rc), if rc.history == [] then None else Some(rc.stats.last), |log|, PublishedLimits())
  {
    RetainedSequences(rc, log);
    hide HistoryRing.At, Retains;
  }

  // ----- Targets at a station -----

  lemma {:induction false} StationCountBound(targets: map<nat, Target>, mmsis: seq<nat>, id: string, now: int)
    requires forall m <- mmsis :: m in targets
    ensures StationCount(targets, mmsis, id, now, false) + StationCount(targets, mmsis, id, now, true) <= |mmsis|
  {
    hide ObservationAt, TargetStatus;
    if mmsis != [] {
      StationCountBound(targets, mmsis[..|mmsis| - 1], id, now);
    }
  }

  // ----- Coverage -----

  lemma CoverageHonest(coverage: seq<Coverage>)
    requires CoverageFits(coverage)
    ensures CoverageAccepted(ContoursToWire(coverage), [0.9, 0.5])
  {
    hide Geometry, GeometryAccepted;
    var wire := ContoursToWire(coverage);
    forall i | 0 <= i < 4
      ensures GeometryAccepted(wire[i].geometry) && 0.0 <= wire[i].minRadius <= wire[i].maxRadius
    {
      assert coverage[i] in coverage;
      GeometryIsAccepted(coverage[i].ring);
    }
  }

  // ----- One station -----

  lemma CountersHonest(w: World, e: Engine, tr: Trace, mmsis: seq<nat>, st: Site, now: int)
    requires Inv(w, e, tr) && st in e.state.stations && now == Now(w, e.state)
    requires forall m <- mmsis :: m in e.store.targets.targets
    requires |mmsis| <= TARGET_LIMIT
    ensures st.id in e.store.receivers
    ensures CountersAccepted(StationToWire(e, mmsis, st, e.store.receivers[st.id], now), PublishedLimits())
  {
    hide SentOk, FleetOk, LogOk, TargetsOk, Young, TargetsLogged, HeardOk, Sum64, RecentAccepted, BoundsAccepted, Retains, Tally,
         RecentOf, StationCount, Ratio, RatioAccepted, BucketsOk, InOrder, Partitioned, SiteOk, Allocated;
    assert st.id in Ids(e.state.stations);
    var rc, wit := e.store.receivers[st.id], tr.witnesses[st.id];
    assert Listens(w, tr.sent, |tr.sent|, st, rc, wit);
    TallyPartitions(wit.events);
    PartitionAdds(rc.stats.counters);
    PartitionChannels(rc.stats.counters);
    assert SiteTimesOk(w, now, st);
    RecentHonest(w, tr.sent, st, rc, wit, e.state.elapsed, now);
    LogContiguous(tr.sent, |tr.sent|, st, wit.log);
    BoundsHonest(rc, wit.log);
    StationCountBound(e.store.targets.targets, mmsis, st.id, now);
    HeardWithin(wit.events);
    RatioInRange(rc.stats.counters.received, rc.stats.counters.opportunities);
  }

  lemma PartitionChannels(c: Counters)
    requires Partitioned(c)
    ensures c.channelA.received <= c.channelA.opportunities && c.channelB.received <= c.channelB.opportunities
  {
  }

  lemma LogContiguous(sent: seq<Transmission>, n: nat, st: Site, log: seq<Reception>)
    requires LogOk(sent, n, st, log)
    ensures Contiguous(log)
  {
  }

  lemma {:induction false} HeardWithin(events: seq<Hearing>)
    ensures Heard(events) <= |events|
  {
    if events != [] {
      HeardWithin(events[..|events| - 1]);
    }
  }

  lemma StationHonest(w: World, e: Engine, tr: Trace, mmsis: seq<nat>, st: Site, now: int)
    requires WorldSound(w) && Inv(w, e, tr) && st in e.state.stations && now == Now(w, e.state)
    requires forall m <- mmsis :: m in e.store.targets.targets
    requires |mmsis| <= TARGET_LIMIT
    ensures st.id in e.store.receivers
    ensures StationAccepted(StationToWire(e, mmsis, st, e.store.receivers[st.id], now), PublishedLimits(), w.start, now)
  {
    hide SentOk, FleetOk, Listens, TargetsOk, Young, TargetsLogged, HeardOk, CountersAccepted, RecentOf, StationCount, Ratio,
         CoverageAccepted, CoverageFits, CodecSound, LinksSound, CoverageIgnoresName, Station.NameValid, Station.Disjoint,
         ContoursToWire, WitnessesOk, TotalsOk, ClockOk;
    CountersHonest(w, e, tr, mmsis, st, now);
    assert SiteOk(w, st) && SiteTimesOk(w, now, st) && Allocated(st.id, e.state.lastStationId);
    CoverageHonest(st.coverage);
    IdNotEmpty(st.id, e.state.lastStationId);
  }

  lemma IdNotEmpty(id: string, last: nat)
    requires Allocated(id, last)
    ensures id != ""
  {
  }
}
