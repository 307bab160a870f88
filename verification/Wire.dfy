/** The snapshot and page the simulator serves, and what the display requires of each part on its own
    (simulatorapi/stations.go, display/validate.go, display/project.go). */
module Wire {
  import opened Basics
  import opened Model
  import opened Engine
  import opened RateWindow
  import opened CoverageCut
  import Station

  // ----- Values -----

  /** Published settings; the display takes them from the snapshot rather than from the engine. */
  datatype Limits = Limits(maxStations: int, targetLimit: int, recentLimit: int, historyLimit: int, freshMs: int,
                           staleMs: int, expiryMs: int, rateWindowMs: int, thresholds: seq<real>, minSpeed: real,
                           maxSpeed: real, speedStep: real)

  datatype Clock = Clock(now: int, elapsedMs: int, speed: real, paused: bool)

  datatype WireCoverage = WireCoverage(channel: string, threshold: real, minRadius: real, maxRadius: real,
                                       geometry: seq<seq<seq<Point>>>)

  datatype Recent = Recent(durationMs: int, opportunities: nat, received: nat, opportunityRate: Option<real>,
                           receptionRate: Option<real>, receiveRatio: Option<real>)

  datatype WireStation = WireStation(id: string, definition: Definition, configRevision: nat, rfRevision: nat,
                                     createdAt: int, rfUpdatedAt: int, coverage: seq<WireCoverage>, counters: Counters,
                                     receiveRatio: Option<real>, recent: Recent, oldest: Option<nat>, latest: Option<nat>,
                                     currentTargets: int, lostTargets: int)

  datatype WireReception = WireReception(stationId: string, sequence: nat, transmission: nat, mmsi: nat, channel: string,
                                         timestamp: int, sentence: string, vesselType: string, configRevision: nat,
                                         rfRevision: nat, receiver: ReceiverSnapshot, link: Link)

  datatype WireProvenance = WireProvenance(stationId: string, stationEnabled: bool, sequence: nat, transmission: nat,
                                           timestamp: int, channel: string, power: real, rfRevision: nat, ageMs: int,
                                           status: string, chosen: bool)

  datatype WireTarget = WireTarget(mmsi: nat, report: WireReception, ageMs: int, status: string,
                                   stations: seq<WireProvenance>)

  datatype WireSnapshot = WireSnapshot(limits: Limits, startedAt: int, clock: Clock, snapshotAt: int, stateRevision: nat,
                                       stationSetRevision: nat, selection: seq<string>, stations: seq<WireStation>,
                                       targets: seq<WireTarget>, currentTargets: int, lostTargets: int,
                                       recent: seq<WireReception>, recentIsSample: bool, transmissions: nat,
                                       receivedTransmissions: nat, receptions: nat, evictions: nat)

  datatype WirePage = WirePage(simulationId: string, stationId: string, tail: bool, oldest: Option<nat>,
                               latest: Option<nat>, truncatedBefore: Option<nat>, receptions: seq<WireReception>,
                               nextAfter: nat, hasMore: bool, gap: bool)

  datatype HistoryRequest = HistoryRequest(simulationId: string, after: Option<nat>, limit: int)

  // ----- Stations -----

  predicate ChannelName(channel: string) {
    channel == "A" || channel == "B"
  }

  /** Milliseconds truncates toward zero. */
  function Millis(d: int): int {
    if d >= 0 then d / MILLISECOND else -(-d / MILLISECOND)
  }

  predicate DefinitionAccepted(d: Definition) {
    && Station.NameValid(d.name)
    && Station.SiteValid(d.latitude, d.longitude, d.height, d.gain, d.feederLoss) && d.longitude != 180.0
    && |d.sectors| <= MAX_SECTORS && Station.ChannelValid(d.channelA) && Station.ChannelValid(d.channelB)
    && forall s <- d.sectors :: Station.SectorInRange(s)
  }

  predicate ReceiverAccepted(r: ReceiverSnapshot) {
    DefinitionAccepted(Definition(r.name, r.latitude, r.longitude, true, r.height, r.gain, r.feederLoss, r.channel,
                                  r.channel, []))
  }

  /** A sum that fits 64 bits, or None. */
  function Sum64(values: seq<nat>): Option<nat> {
    if values == [] then Some(0)
    else
      var front := Sum64(values[..|values| - 1]);
      if front.None? || front.value + values[|values| - 1] > MAX_UINT64 then None
      else Some(front.value + values[|values| - 1])
  }

  predicate RatioAccepted(ratio: Option<real>, whole: nat) {
    ratio.None? == (whole == 0) && (ratio.Some? ==> 0.0 <= ratio.value <= 1.0)
  }

  predicate RecentAccepted(recent: Recent, c: Counters, limits: Limits) {
    && 0 <= recent.durationMs <= limits.rateWindowMs
    && recent.received <= recent.opportunities <= c.opportunities && recent.received <= c.received
    && recent.opportunityRate.None? == recent.receptionRate.None?
    && (recent.durationMs > 0 ==> recent.opportunityRate.Some?)
    && (recent.opportunityRate.Some? ==> recent.opportunityRate.value >= 0.0 && recent.receptionRate.value >= 0.0)
    && RatioAccepted(recent.receiveRatio, recent.opportunities)
  }

  /** History bounds match a contiguous reception sequence that ends at the number of receptions. */
  predicate BoundsAccepted(oldest: Option<nat>, latest: Option<nat>, received: nat, limits: Limits) {
    && oldest.None? == latest.None? && latest.None? == (received == 0)
    && (latest.Some? ==> 0 < oldest.value <= latest.value == received && latest.value - oldest.value < limits.historyLimit)
  }

  predicate CountersAccepted(s: WireStation, limits: Limits) {
    var c := s.counters;
    && Sum64([c.received, c.stationDisabled, c.channelDisabled, c.outsideHorizon, c.insufficientMargin, c.probabilisticLoss])
       == Some(c.opportunities)
    && Sum64([c.channelA.opportunities, c.channelB.opportunities]) == Some(c.opportunities)
    && Sum64([c.channelA.received, c.channelB.received]) == Some(c.received)
    && c.channelA.received <= c.channelA.opportunities && c.channelB.received <= c.channelB.opportunities
    && RecentAccepted(s.recent, c, limits) && BoundsAccepted(s.oldest, s.latest, c.received, limits)
    && 0 <= s.currentTargets && 0 <= s.lostTargets && s.currentTargets + s.lostTargets <= limits.targetLimit
    && RatioAccepted(s.receiveRatio, c.opportunities)
  }

  /** One contour for every channel and threshold, and no other. */
  ghost predicate CoverageAccepted(coverage: seq<WireCoverage>, thresholds: seq<real>) {
    && |coverage| == 2 * |thresholds|
    && (forall c <- coverage :: ChannelName(c.channel) && c.threshold in thresholds && 0.0 <= c.minRadius <= c.maxRadius
                                && GeometryAccepted(c.geometry))
    && (forall i, j :: 0 <= i < j < |coverage| ==>
          coverage[i].channel != coverage[j].channel || coverage[i].threshold != coverage[j].threshold)
  }

  ghost predicate StationAccepted(s: WireStation, limits: Limits, startedAt: int, now: int) {
    && s.id != "" && s.configRevision > 0 && s.rfRevision > 0
    && startedAt <= s.createdAt <= now && s.createdAt <= s.rfUpdatedAt <= now
    && DefinitionAccepted(s.definition) && CountersAccepted(s, limits)
    && CoverageAccepted(s.coverage, limits.thresholds)
  }

  predicate ClockAccepted(c: Clock, startedAt: int, limits: Limits) {
    && startedAt <= c.now && 0 <= c.elapsedMs
    && 0.0 < limits.minSpeed <= limits.maxSpeed && 0.0 < limits.speedStep
    && (c.speed != 0.0 ==>
          limits.minSpeed <= c.speed <= limits.maxSpeed
          && -0.000001 <= c.speed / limits.speedStep - Round(c.speed / limits.speedStep) as real <= 0.000001)
    && c.paused == (c.speed == 0.0)
  }

  // ----- Checks as the display makes them -----

  method Sum(values: seq<nat>) returns (total: nat, overflow: bool)
    ensures overflow <==> Sum64(values).None?
    ensures !overflow ==> Some(total) == Sum64(values)
  {
    total, overflow := 0, false;
    for i := 0 to |values|
      invariant total <= MAX_UINT64
      invariant overflow <==> Sum64(values[..i]).None?
      invariant !overflow ==> Some(total) == Sum64(values[..i])
    {
      assert values[..i + 1][..i] == values[..i];
      var carried := total + values[i];
      overflow := overflow || carried > MAX_UINT64;
      total := carried % (MAX_UINT64 + 1);
    }
    assert values[..|values|] == values;
  }

  /** validateCounters. */
  method ValidateCounters(s: WireStation, limits: Limits) returns (ok: bool)
    ensures ok <==> CountersAccepted(s, limits)
  {
    hide Sum64;
    var c, recent := s.counters, s.recent;
    var outcomes, overflow := Sum([c.received, c.stationDisabled, c.channelDisabled, c.outsideHorizon,
                                   c.insufficientMargin, c.probabilisticLoss]);
    var opportunities, overflowA := Sum([c.channelA.opportunities, c.channelB.opportunities]);
    var received, overflowB := Sum([c.channelA.received, c.channelB.received]);
    if overflow || outcomes != c.opportunities {
      return false;
    }
    if overflowA || overflowB || opportunities != c.opportunities || received != c.received
       || c.channelA.received > c.channelA.opportunities || c.channelB.received > c.channelB.opportunities {
      return false;
    }
    if recent.durationMs < 0 || recent.durationMs > limits.rateWindowMs {
      return false;
    }
    if recent.received > recent.opportunities || recent.opportunities > c.opportunities || recent.received > c.received {
      return false;
    }
    if recent.opportunityRate.None? != recent.receptionRate.None? || (recent.durationMs > 0 && recent.opportunityRate.None?) {
      return false;
    }
    if recent.opportunityRate.Some? && (!(recent.opportunityRate.value >= 0.0) || !(recent.receptionRate.value >= 0.0)) {
      return false;
    }
    if s.oldest.None? != s.latest.None? || s.latest.None? != (c.received == 0) {
      return false;
    }
    if s.latest.Some? && (s.oldest.value == 0 || s.oldest.value > s.latest.value || s.latest.value != c.received
                          || s.latest.value - s.oldest.value >= limits.historyLimit) {
      return false;
    }
    if s.currentTargets < 0 || s.lostTargets < 0 || s.currentTargets + s.lostTargets > limits.targetLimit {
      return false;
    }
    ok := RatioAccepted(s.receiveRatio, c.opportunities) && RatioAccepted(recent.receiveRatio, recent.opportunities);
  }

  /** validateStation. */
  method ValidateStation(s: WireStation, limits: Limits, startedAt: int, now: int) returns (ok: bool)
    ensures ok <==> StationAccepted(s, limits, startedAt, now)
  {
    if s.id == "" || s.configRevision == 0 || s.rfRevision == 0 {
      return false;
    }
    if s.createdAt < startedAt || s.createdAt > now || s.rfUpdatedAt < s.createdAt || s.rfUpdatedAt > now {
      return false;
    }
    if !DefinitionAccepted(s.definition) {
      return false;
    }
    var countersOk := ValidateCounters(s, limits);
    if !countersOk {
      return false;
    }
    ok := ValidateCoverage(s.coverage, limits.thresholds);
  }

  /** validateCoverage: seen holds the keys so far, so that a repeated one is refused. */
  method ValidateCoverage(coverage: seq<WireCoverage>, thresholds: seq<real>) returns (ok: bool)
    ensures ok <==> CoverageAccepted(coverage, thresholds)
  {
    if |coverage| != 2 * |thresholds| {
      return false;
    }
    hide GeometryAccepted;
    var seen: set<(string, real)> := {};
    for i := 0 to |coverage|
      invariant forall k :: 0 <= k < i ==>
                  var c := coverage[k];
                  ChannelName(c.channel) && c.threshold in thresholds && 0.0 <= c.minRadius <= c.maxRadius
                  && GeometryAccepted(c.geometry)
      invariant forall key :: key in seen <==> exists k :: 0 <= k < i && key == (coverage[k].channel, coverage[k].threshold)
      invariant forall j, k :: 0 <= j < k < i ==>
                  coverage[j].channel != coverage[k].channel || coverage[j].threshold != coverage[k].threshold
    {
      var c := coverage[i];
      var key := (c.channel, c.threshold);
      if !ChannelName(c.channel) || c.threshold !in thresholds || key in seen {
        return false;
      }
      if !(c.minRadius >= 0.0) || !(c.maxRadius >= c.minRadius) {
        return false;
      }
      seen := seen + {key};
      var geometryOk := ValidateGeometry(c.geometry);
      if !geometryOk {
        return false;
      }
    }
    ok := true;
  }

  // Keys of contours, and all keys there are.

  function Key(c: WireCoverage): (string, real) {
    (c.channel, c.threshold)
  }

  function Keys(coverage: seq<WireCoverage>): set<(string, real)> {
    if coverage == [] then {} else Keys(coverage[..|coverage| - 1]) + {Key(coverage[|coverage| - 1])}
  }

  function AllKeys(thresholds: seq<real>): set<(string, real)> {
    if thresholds == [] then {}
    else AllKeys(thresholds[..|thresholds| - 1]) + {("A", thresholds[|thresholds| - 1]), ("B", thresholds[|thresholds| - 1])}
  }

  /** A key comes from some contour. */
  lemma {:induction false} KeyHasIndex(coverage: seq<WireCoverage>, k: (string, real))
    requires k in Keys(coverage)
    ensures exists i :: 0 <= i < |coverage| && Key(coverage[i]) == k
  {
    var n := |coverage| - 1;
    if k == Key(coverage[n]) {
      assert Key(coverage[n]) == k;
    } else {
      KeyHasIndex(coverage[..n], k);
      var i :| 0 <= i < n && Key(coverage[..n][i]) == k;
      assert Key(coverage[i]) == k;
    }
  }

  lemma {:induction false} NewKey(coverage: seq<WireCoverage>, k: (string, real))
    requires forall i :: 0 <= i < |coverage| ==> Key(coverage[i]) != k
    ensures k !in Keys(coverage)
  {
    if coverage != [] {
      NewKey(coverage[..|coverage| - 1], k);
    }
  }

  lemma {:induction false} DistinctKeysCount(coverage: seq<WireCoverage>, keys: set<(string, real)>)
    requires forall i, j :: 0 <= i < j < |coverage| ==> Key(coverage[i]) != Key(coverage[j])
    requires forall i :: 0 <= i < |coverage| ==> Key(coverage[i]) in keys
    ensures |Keys(coverage)| == |coverage| && Keys(coverage) <= keys
  {
    if coverage != [] {
      var n := |coverage| - 1;
      DistinctKeysCount(coverage[..n], keys);
      NewKey(coverage[..n], Key(coverage[n]));
    }
  }

  lemma {:induction false} AllKeysAre(thresholds: seq<real>)
    ensures forall k :: k in AllKeys(thresholds) <==> ChannelName(k.0) && k.1 in thresholds
    ensures |AllKeys(thresholds)| <= 2 * |thresholds|
  {
    if thresholds != [] {
      var n := |thresholds| - 1;
      AllKeysAre(thresholds[..n]);
      assert thresholds == thresholds[..n] + [thresholds[n]];
      UnionSize(AllKeys(thresholds[..n]), {("A", thresholds[n]), ("B", thresholds[n])});
    }
  }

  lemma UnionSize<T>(a: set<T>, b: set<T>)
    ensures |a + b| <= |a| + |b|
  {
    assert a + b == a + (b - a);
    assert b == (b - a) + (b * a);
  }

  lemma SubsetOfSameSize<T>(a: set<T>, b: set<T>)
    requires a <= b && |a| >= |b|
    ensures a == b
  {
    assert b == a + (b - a);
  }

  /** The contours are then exactly the product of channels and thresholds: counting leaves no room for a gap. */
  lemma ContoursComplete(coverage: seq<WireCoverage>, thresholds: seq<real>, channel: string, threshold: real)
    requires CoverageAccepted(coverage, thresholds) && ChannelName(channel) && threshold in thresholds
    ensures exists c <- coverage :: c.channel == channel && c.threshold == threshold
  {
    AllKeysAre(thresholds);
    DistinctKeysCount(coverage, AllKeys(thresholds));
    SubsetOfSameSize(Keys(coverage), AllKeys(thresholds));
    KeyHasIndex(coverage, (channel, threshold));
  }
}
