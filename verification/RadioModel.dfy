/** The reception model and its coverage contours over exact reals (simulation/reception.go). */
module RadioModel {
  import opened Basics
  import opened Model
  import opened Reals
  import opened Sorting
  import Station

  /** The transcendental functions and spherical geometry, uninterpreted. */
  datatype Maths = Maths(log10: real -> real, sqrt: real -> real,
                         geodesic: (real, real, real, real) -> (real, real),
                         destination: (real, real, real, real) -> Point)

  /** What the model relies on: log10 is monotone, roots of positives are positive, distances are not negative,
      bearings are normalised, and a destination stays within half a turn of its start. */
  ghost predicate Sound(m: Maths) {
    && (forall a, b :: 0.0 < a <= b ==> m.log10(a) <= m.log10(b))
    && (forall a :: 0.0 < a ==> 0.0 < m.sqrt(a))
    && (forall a, b, c, d :: 0.0 <= m.geodesic(a, b, c, d).0 && Station.Bearing(m.geodesic(a, b, c, d).1))
    && (forall a, b, c, d :: -90.0 <= m.destination(a, b, c, d).latitude <= 90.0
                             && b - 180.0 <= m.destination(a, b, c, d).longitude <= b + 180.0)
  }

  function Larger(a: real, b: real): real { if a < b then b else a }
  function Smaller(a: real, b: real): real { if b < a then b else a }

  function MarginProbability(margin: real): real {
    if margin <= -12.0 then 0.0
    else if margin < 0.0 then 0.8 * (margin + 12.0) / 12.0
    else if margin < 6.0 then 0.8 + 0.2 * margin / 6.0
    else 1.0
  }

  function HorizonProbability(distance: real, horizon: real): real {
    var start := 0.8 * horizon;
    if distance <= start then 1.0
    else if distance < horizon then (horizon - distance) / (horizon - start)
    else 0.0
  }

  /** Decode probability of an enabled channel. */
  function DecodeProbability(margin: real, distance: real, horizon: real, drop: real): real {
    MarginProbability(margin) * HorizonProbability(distance, horizon) * (1.0 - drop)
  }

  function HorizonMeters(m: Maths, txHeight: real, rxHeight: real): real {
    3570.0 * m.sqrt(4.0 / 3.0) * (m.sqrt(txHeight) + m.sqrt(rxHeight))
  }

  function Frequency(channel: Channel): real {
    if channel == ChannelB then 162.025 else 161.975
  }

  /** Propagation loss without shadow sectors. */
  function PathLoss(m: Maths, channel: Channel, distance: real): real {
    var kilometers := Larger(distance / 1000.0, 0.01);
    var freeSpace := 32.4 + 20.0 * m.log10(Frequency(channel)) + 20.0 * m.log10(kilometers);
    var excess := 15.0 + 15.0 * m.log10(Larger(kilometers, 1.0));
    freeSpace + excess
  }

  /** linkAt: without a bearing no sector applies, as when the transmitter is at the station. */
  function LinkAt(m: Maths, tx: Transmitter, station: Definition, channel: Channel, distance: real,
                  bearing: Option<real>): Link
  {
    var receiver := station.Receiver(channel);
    var sectorLoss := if bearing.Some? then Station.ShadowLoss(station.sectors, bearing.value) else 0.0;
    var power := 10.0 * m.log10(tx.power * 1000.0) + tx.gain + station.gain - tx.feederLoss - station.feederLoss
                 - PathLoss(m, channel, distance) - sectorLoss;
    var sensitivity := receiver.sensitivity + receiver.noisePenalty;
    var horizon := HorizonMeters(m, tx.height, station.height);
    Link(distance, bearing, horizon, sectorLoss, power, sensitivity, power - sensitivity,
         if station.enabled && receiver.enabled
         then DecodeProbability(power - sensitivity, distance, horizon, receiver.drop)
         else 0.0)
  }

  function EvaluateLink(m: Maths, tx: Transmitter, latitude: real, longitude: real, station: Definition,
                        channel: Channel): Link
  {
    var (distance, bearing) := m.geodesic(station.latitude, station.longitude, latitude, longitude);
    if distance == 0.0 then LinkAt(m, tx, station, channel, 0.0, None)
    else LinkAt(m, tx, station, channel, distance, Some(bearing))
  }

  /** decide: the first applicable outcome in declaration order. */
  function Decide(station: Definition, channel: Channel, l: Link, draw: real): Outcome {
    if !station.enabled then StationDisabled
    else if !station.Receiver(channel).enabled then ChannelDisabled
    else if l.distance >= l.horizon then OutsideHorizon
    else if l.margin <= -12.0 then InsufficientMargin
    else if draw < l.probability then Received
    else ProbabilisticLoss
  }

  lemma HorizonProbabilityBounds(d: real, h: real)
    requires 0.0 < h
    ensures 0.0 <= HorizonProbability(d, h) <= 1.0
  {
    if 0.8 * h < d < h {
      QuotientBounds(h - d, h - 0.8 * h);
    }
  }

  lemma HorizonProbabilityMonotone(d: real, e: real, h: real)
    requires 0.0 < h && d <= e
    ensures HorizonProbability(e, h) <= HorizonProbability(d, h)
  {
    HorizonProbabilityBounds(d, h);
    HorizonProbabilityBounds(e, h);
    if 0.8 * h < d && e < h {
      assert (h - e) / (h - 0.8 * h) <= (h - d) / (h - 0.8 * h);
    }
  }

  lemma HorizonPositive(m: Maths, tx: Transmitter, station: Definition)
    requires Sound(m) && 0.0 < tx.height && 0.0 < station.height
    ensures 0.0 < HorizonMeters(m, tx.height, station.height)
  {
    assert 0.0 < m.sqrt(4.0 / 3.0) && 0.0 < m.sqrt(tx.height) && 0.0 < m.sqrt(station.height);
    var root, sum := m.sqrt(4.0 / 3.0), m.sqrt(tx.height) + m.sqrt(station.height);
    assert 0.0 < 3570.0 * root;
    assert 0.0 < (3570.0 * root) * sum;
  }

  lemma DecodeProbabilityBounds(margin: real, d: real, h: real, drop: real)
    requires 0.0 < h && 0.0 <= drop <= 1.0
    ensures 0.0 <= DecodeProbability(margin, d, h, drop) <= 1.0
  {
    HorizonProbabilityBounds(d, h);
    var a, b := MarginProbability(margin), HorizonProbability(d, h);
    assert 0.0 <= a <= 1.0;
    hide MarginProbability, HorizonProbability;
    ProductBounds(a, b);
    ProductBounds(a * b, 1.0 - drop);
  }

  /** Lower margin and longer distance never raise the probability; at the horizon it is 0. */
  lemma DecodeProbabilityMonotone(x: real, y: real, d: real, e: real, h: real, drop: real)
    requires 0.0 < h && 0.0 <= drop <= 1.0 && x <= y && d <= e
    ensures DecodeProbability(x, e, h, drop) <= DecodeProbability(y, d, h, drop)
    ensures h <= e ==> DecodeProbability(x, e, h, drop) == 0.0
  {
    HorizonProbabilityBounds(d, h);
    HorizonProbabilityBounds(e, h);
    HorizonProbabilityMonotone(d, e, h);
    var a, b := MarginProbability(x), MarginProbability(y);
    assert 0.0 <= a <= b;
    assert h <= e ==> HorizonProbability(e, h) == 0.0;
    hide MarginProbability, HorizonProbability;
    ProductMonotone(a, b, HorizonProbability(e, h), HorizonProbability(d, h));
    ProductMonotone(a * HorizonProbability(e, h), b * HorizonProbability(d, h), 1.0 - drop, 1.0 - drop);
  }

  /** What the display checks of a link: finite values in their published ranges. */
  predicate LinkInRange(l: Link) {
    && 0.0 <= l.distance && 0.0 <= l.horizon && 0.0 <= l.shadowLoss <= 60.0 && 0.0 <= l.probability <= 1.0
    && (l.bearing.Some? ==> Station.Bearing(l.bearing.value))
  }

  lemma {:induction false} ShadowLossRange(sectors: seq<Sector>, b: real)
    requires forall s <- sectors :: Station.SectorInRange(s)
    ensures 0.0 <= Station.ShadowLoss(sectors, b) <= 60.0
  {
    if sectors != [] {
      assert Station.SectorInRange(sectors[0]);
      ShadowLossRange(sectors[1..], b);
    }
  }

  lemma LinksAtAreInRange(m: Maths, tx: Transmitter, d: Definition, channel: Channel, distance: real, bearing: Option<real>)
    requires Sound(m) && Station.TransmitterValid(tx) && Station.DefinitionValid(d)
    requires 0.0 <= distance && (bearing.Some? ==> Station.Bearing(bearing.value))
    ensures LinkInRange(LinkAt(m, tx, d, channel, distance, bearing))
  {
    hide DecodeProbability, PathLoss, Station.ShadowLoss, HorizonMeters;
    var l := LinkAt(m, tx, d, channel, distance, bearing);
    HorizonPositive(m, tx, d);
    DecodeProbabilityBounds(l.margin, distance, l.horizon, d.Receiver(channel).drop);
    if bearing.Some? {
      ShadowLossRange(d.sectors, bearing.value);
    }
  }

  /** Every link evaluated for a valid station is in range. */
  lemma LinksAreInRange(m: Maths, tx: Transmitter, latitude: real, longitude: real, d: Definition, channel: Channel)
    requires Sound(m) && Station.TransmitterValid(tx) && Station.DefinitionValid(d)
    ensures LinkInRange(EvaluateLink(m, tx, latitude, longitude, d, channel))
  {
    hide LinkAt;
    var (distance, bearing) := m.geodesic(d.latitude, d.longitude, latitude, longitude);
    LinksAtAreInRange(m, tx, d, channel, 0.0, None);
    LinksAtAreInRange(m, tx, d, channel, distance, Some(bearing));
  }

  // ----- Coverage contours -----

  /** One contour computation. */
  datatype Query = Query(m: Maths, tx: Transmitter, station: Definition, channel: Channel, threshold: real)
  {
    function Horizon(): real {
      HorizonMeters(m, tx.height, station.height)
    }

    function Probability(bearing: Option<real>, distance: real): real {
      LinkAt(m, tx, station, channel, distance, bearing).probability
    }

    predicate Reaches(bearing: real, distance: real) {
      Probability(Some(bearing), distance) >= threshold
    }

    ghost predicate Valid() {
      Sound(m) && Station.TransmitterValid(tx) && Station.DefinitionValid(station) && 0.0 < threshold
    }
  }

  /** Farther out along a bearing, or none, the probability is never higher. */
  lemma ProbabilityFallsWithDistance(q: Query, bearing: Option<real>, d: real, e: real)
    requires q.Valid() && 0.0 <= d <= e
    ensures q.Probability(bearing, e) <= q.Probability(bearing, d)
  {
    hide DecodeProbability, HorizonMeters;
    var near, far := LinkAt(q.m, q.tx, q.station, q.channel, d, bearing), LinkAt(q.m, q.tx, q.station, q.channel, e, bearing);
    var km, kn := Larger(d / 1000.0, 0.01), Larger(e / 1000.0, 0.01);
    assert q.m.log10(km) <= q.m.log10(kn);
    assert q.m.log10(Larger(km, 1.0)) <= q.m.log10(Larger(kn, 1.0));
    assert far.margin <= near.margin;
    HorizonPositive(q.m, q.tx, q.station);
    DecodeProbabilityMonotone(far.margin, near.margin, d, e, q.Horizon(), q.station.Receiver(q.channel).drop);
  }

  lemma NothingAtTheHorizon(q: Query, bearing: real)
    requires q.Valid()
    ensures !q.Reaches(bearing, q.Horizon())
  {
    hide DecodeProbability, HorizonMeters, PathLoss;
    var h := q.Horizon();
    HorizonPositive(q.m, q.tx, q.station);
    var l := LinkAt(q.m, q.tx, q.station, q.channel, h, Some(bearing));
    DecodeProbabilityMonotone(l.margin, l.margin, h, h, h, q.station.Receiver(q.channel).drop);
  }

  const ITERATIONS: nat := 16

  /** The bracket after n bisections of [0, horizon]. */
  function Bracket(q: Query, bearing: real, n: nat): (real, real) {
    if n == 0 then (0.0, q.Horizon())
    else
      var (low, high) := Bracket(q, bearing, n - 1);
      var mid := (low + high) / 2.0;
      if q.Reaches(bearing, mid) then (mid, high) else (low, mid)
  }

  function Radius(q: Query, bearing: real): real {
    Bracket(q, bearing, ITERATIONS).0
  }

  function Width(horizon: real, n: nat): real {
    if n == 0 then horizon else Width(horizon, n - 1) / 2.0
  }

  lemma {:induction false} BracketInvariant(q: Query, bearing: real, n: nat)
    requires q.Valid()
    ensures var (low, high) := Bracket(q, bearing, n);
            && 0.0 <= low < high <= q.Horizon()
            && high - low == Width(q.Horizon(), n)
            && (low == 0.0 || q.Reaches(bearing, low)) && !q.Reaches(bearing, high)
  {
    hide Query.Reaches, HorizonMeters;
    HorizonPositive(q.m, q.tx, q.station);
    if n == 0 {
      NothingAtTheHorizon(q, bearing);
    } else {
      BracketInvariant(q, bearing, n - 1);
    }
  }

  lemma FinalWidth(h: real)
    ensures Width(h, ITERATIONS) == h / 65536.0
  {
    assert Width(h, 1) == h / 2.0;
    assert Width(h, 2) == h / 4.0;
    assert Width(h, 4) == h / 16.0;
    assert Width(h, 6) == h / 64.0;
    assert Width(h, 8) == h / 256.0;
    assert Width(h, 10) == h / 1024.0;
    assert Width(h, 12) == h / 4096.0;
    assert Width(h, 14) == h / 16384.0;
  }

  /** A contour radius brackets the reach along its bearing to 1/65536 of the horizon: every shorter distance
      reaches the threshold (unless the bearing is shadowed below it at the station), every distance past the
      bracket does not. */
  lemma RadiusBracketsReach(q: Query, bearing: real)
    requires q.Valid()
    ensures var r, step := Radius(q, bearing), q.Horizon() / 65536.0;
            && 0.0 <= r < q.Horizon()
            && (r == 0.0 || q.Reaches(bearing, r)) && !q.Reaches(bearing, r + step)
            && (forall d :: q.Reaches(bearing, 0.0) && 0.0 <= d <= r ==> q.Reaches(bearing, d))
            && (forall d :: d >= r + step ==> !q.Reaches(bearing, d))
  {
    hide LinkAt, HorizonMeters, Bracket;
    var r, step := Radius(q, bearing), q.Horizon() / 65536.0;
    var high := Bracket(q, bearing, ITERATIONS).1;
    BracketInvariant(q, bearing, ITERATIONS);
    FinalWidth(q.Horizon());
    assert high == r + step;
    forall d | q.Reaches(bearing, 0.0) && 0.0 <= d <= r
      ensures q.Reaches(bearing, d)
    {
      ProbabilityFallsWithDistance(q, Some(bearing), d, r);
    }
    forall d | d >= r + step
      ensures !q.Reaches(bearing, d)
    {
      ProbabilityFallsWithDistance(q, Some(bearing), r + step, d);
    }
  }

  /** Exactly when a radius reaches the threshold along its bearing: when the threshold is reached at the station itself,
      the bearing's shadow included. The entry test ignores the bearing, so it does not promise that. */
  lemma RadiusReachesExactly(q: Query, bearing: real)
    requires q.Valid()
    ensures q.Reaches(bearing, Radius(q, bearing)) <==> q.Reaches(bearing, 0.0)
    ensures !q.Reaches(bearing, 0.0) ==> Radius(q, bearing) == 0.0
  {
    hide LinkAt, HorizonMeters, Bracket;
    RadiusBracketsReach(q, bearing);
    if q.Reaches(bearing, Radius(q, bearing)) {
      ProbabilityFallsWithDistance(q, Some(bearing), 0.0, Radius(q, bearing));
    }
  }

  /** Common logarithms to one or two digits, as far as Shadowed needs them. */
  function RoughLog(x: real): real {
    if x < 0.1 then -2.0 else if x < 10.0 then 0.0 else if x < 1000.0 then 2.2 else 4.1
  }

  /** A noisy station with a sector of 60 dB to the east, for a 12.5 W transmitter. */
  function Shadowed(): Query {
    var channel := ReceiverChannel(true, -80.0, 40.0, 0.0);
    var station := Definition("Pier", 0.0, 0.0, true, 1.0, 0.0, 0.0, channel, channel, [Sector(45.0, 135.0, 60.0)]);
    Query(Maths(RoughLog, x => 1.0, (a, b, c, d) => (0.0, 0.0), (a, b, c, d) => Point(b, 0.0)),
          Transmitter(12.5, 1.0, 0.0, 0.0), station, ChannelA, 0.9)
  }

  lemma ShadowedIsValid()
    ensures Shadowed().Valid()
  {
    var d := Shadowed().station;
    assert !Station.Space(d.name[0]);
    hide Station.Space;
    assert Station.Disjoint(d.sectors);
    assert Sound(Shadowed().m);
  }

  lemma ShadowedMargins()
    ensures Shadowed().Probability(None, 0.0) == 1.0 && Shadowed().Probability(Some(90.0), 0.0) == 0.0
  {
    var q := Shadowed();
    assert PathLoss(q.m, ChannelA, 0.0) == 32.4 + 20.0 * 2.2 - 20.0 * 2.0 + 15.0;
    hide PathLoss;
    var open, east := LinkAt(q.m, q.tx, q.station, ChannelA, 0.0, None), LinkAt(q.m, q.tx, q.station, ChannelA, 0.0, Some(90.0));
    assert HorizonMeters(q.m, 1.0, 1.0) == 7140.0;
    assert open.margin == 29.6 && east.margin == -30.4;
  }

  /** A station whose contour is not empty, yet at whose shadowed bearing the radius is 0 and below the threshold. */
  lemma ShadowedRadiusMisses()
    ensures var q := Shadowed();
            && q.Valid() && ContourOf(q, [0.0, 90.0]).ring != []
            && Radius(q, 90.0) == 0.0 && !q.Reaches(90.0, Radius(q, 90.0))
  {
    hide Shadowed, LinkAt, Bracket;
    ShadowedIsValid();
    ShadowedMargins();
    assert Shadowed().threshold == 0.9 by { ShadowedThreshold(); }
    RadiusReachesExactly(Shadowed(), 90.0);
  }

  lemma ShadowedThreshold()
    ensures Shadowed().threshold == 0.9
  {
  }

  /** The entry test ignores the bearing, so it settles exactly the unshadowed bearings. */
  lemma UnshadowedRadiusReaches(q: Query, bearing: real)
    requires q.Valid() && q.Probability(None, 0.0) >= q.threshold
    requires Station.ShadowLoss(q.station.sectors, bearing) == 0.0
    ensures q.Reaches(bearing, Radius(q, bearing))
  {
    hide DecodeProbability, HorizonMeters, Bracket;
    RadiusBracketsReach(q, bearing);
    assert q.Probability(Some(bearing), 0.0) == q.Probability(None, 0.0);
  }

  /** A lower threshold never gives a shorter radius. */
  lemma {:induction false} BracketsNest(q: Query, lower: real, bearing: real, n: nat)
    requires q.Valid() && 0.0 < lower <= q.threshold
    ensures var (a, b), (c, d) := Bracket(q, bearing, n), Bracket(q.(threshold := lower), bearing, n);
            (a == c && b == d) || b <= c
  {
    hide LinkAt, HorizonMeters, Station.ShadowLoss;
    if n > 0 {
      BracketsNest(q, lower, bearing, n - 1);
      BracketInvariant(q, bearing, n - 1);
      BracketInvariant(q.(threshold := lower), bearing, n - 1);
      var (low, high) := Bracket(q, bearing, n - 1);
      var mid := (low + high) / 2.0;
      assert q.Probability(Some(bearing), mid) == q.(threshold := lower).Probability(Some(bearing), mid);
    }
  }

  lemma LowerThresholdReachesFurther(q: Query, lower: real, bearing: real)
    requires q.Valid() && 0.0 < lower <= q.threshold
    ensures Radius(q, bearing) <= Radius(q.(threshold := lower), bearing)
  {
    BracketsNest(q, lower, bearing, ITERATIONS);
    BracketInvariant(q, bearing, ITERATIONS);
  }

  function MinRadius(q: Query, bearings: seq<real>): real {
    if bearings == [] then q.Horizon()
    else Smaller(MinRadius(q, bearings[..|bearings| - 1]), Radius(q, bearings[|bearings| - 1]))
  }

  function MaxRadius(q: Query, bearings: seq<real>): real {
    if bearings == [] then 0.0
    else Larger(MaxRadius(q, bearings[..|bearings| - 1]), Radius(q, bearings[|bearings| - 1]))
  }

  function RingPoint(q: Query, bearing: real): Point {
    q.m.destination(q.station.latitude, q.station.longitude, bearing, Radius(q, bearing))
  }

  /** The contour as a value: empty when even the station itself is below the threshold. */
  function ContourOf(q: Query, bearings: seq<real>): Coverage
    requires bearings != []
  {
    if q.Probability(None, 0.0) < q.threshold then Coverage(q.channel, q.threshold, 0.0, 0.0, [])
    else
      Coverage(q.channel, q.threshold, MinRadius(q, bearings), MaxRadius(q, bearings),
               seq(|bearings|, i requires 0 <= i < |bearings| => RingPoint(q, bearings[i])) + [RingPoint(q, bearings[0])])
  }

  /** contour, with the bisection inlined; ContourOf says what it computes. */
  method Contour(q: Query, bearings: seq<real>) returns (result: Coverage)
    requires bearings != []
    ensures result == ContourOf(q, bearings)
  {
    hide LinkAt, HorizonMeters;
    result := Coverage(q.channel, q.threshold, 0.0, 0.0, []);
    if q.Probability(None, 0.0) < q.threshold {
      return;
    }
    var horizon := q.Horizon();
    result := result.(minRadius := horizon);
    for i := 0 to |bearings|
      invariant result.channel == q.channel && result.threshold == q.threshold
      invariant result.minRadius == MinRadius(q, bearings[..i]) && result.maxRadius == MaxRadius(q, bearings[..i])
      invariant result.ring == seq(i, k requires 0 <= k < i => RingPoint(q, bearings[k]))
    {
      var bearing := bearings[i];
      var low, high := 0.0, horizon;
      for n := 0 to ITERATIONS
        invariant (low, high) == Bracket(q, bearing, n)
      {
        var mid := (low + high) / 2.0;
        if q.Reaches(bearing, mid) {
          low := mid;
        } else {
          high := mid;
        }
      }
      assert bearings[..i + 1][..i] == bearings[..i];
      result := result.(minRadius := Smaller(result.minRadius, low), maxRadius := Larger(result.maxRadius, low));
      var at := q.m.destination(q.station.latitude, q.station.longitude, bearing, low);
      result := result.(ring := result.ring + [at]);
    }
    assert bearings[..|bearings|] == bearings;
    result := result.(ring := result.ring + [result.ring[0]]);
  }

  lemma {:induction false} RadiiBound(q: Query, bearings: seq<real>, i: nat)
    requires i < |bearings|
    ensures MinRadius(q, bearings) <= Radius(q, bearings[i]) <= MaxRadius(q, bearings)
  {
    hide LinkAt, HorizonMeters, Radius;
    if i < |bearings| - 1 {
      RadiiBound(q, bearings[..|bearings| - 1], i);
    }
  }

  /** The least and greatest radius are radii. */
  lemma {:induction false} RadiiAreTaken(q: Query, bearings: seq<real>) returns (i: nat, k: nat)
    requires q.Valid() && bearings != []
    ensures i < |bearings| && k < |bearings|
    ensures Radius(q, bearings[i]) == MinRadius(q, bearings) && Radius(q, bearings[k]) == MaxRadius(q, bearings)
  {
    hide LinkAt, HorizonMeters, Radius, Query.Valid;
    var n := |bearings| - 1;
    RadiusBracketsReach(q, bearings[n]);
    i, k := n, n;
    if n > 0 {
      i, k := RadiiAreTaken(q, bearings[..n]);
      i := if Radius(q, bearings[n]) < Radius(q, bearings[i]) then n else i;
      k := if Radius(q, bearings[k]) < Radius(q, bearings[n]) then n else k;
    } else {
      FirstRadius(q, bearings);
    }
  }

  lemma FirstRadius(q: Query, bearings: seq<real>)
    requires q.Valid() && |bearings| == 1
    ensures MinRadius(q, bearings) == MaxRadius(q, bearings) == Radius(q, bearings[0])
  {
    hide LinkAt, HorizonMeters, Radius, Query.Valid;
    RadiusBracketsReach(q, bearings[0]);
    assert bearings[..0] == [];
  }

  lemma RadiiBounds(q: Query, bearings: seq<real>)
    requires q.Valid() && bearings != []
    ensures 0.0 <= MinRadius(q, bearings) <= MaxRadius(q, bearings)
  {
    hide LinkAt, HorizonMeters, Radius, MinRadius, MaxRadius, Query.Valid;
    var i, k := RadiiAreTaken(q, bearings);
    RadiusBracketsReach(q, bearings[i]);
    RadiiBound(q, bearings, i);
  }

  lemma {:induction false} RadiiNest(q: Query, lower: real, bearings: seq<real>)
    requires q.Valid() && 0.0 < lower <= q.threshold
    ensures MinRadius(q, bearings) <= MinRadius(q.(threshold := lower), bearings)
    ensures MaxRadius(q, bearings) <= MaxRadius(q.(threshold := lower), bearings)
  {
    hide LinkAt, Radius, HorizonMeters;
    if bearings != [] {
      RadiiNest(q, lower, bearings[..|bearings| - 1]);
      LowerThresholdReachesFurther(q, lower, bearings[|bearings| - 1]);
    }
  }

  /** Whole contours nest: for a lower threshold neither radius is smaller, and no contour vanishes. */
  lemma ContoursNest(q: Query, lower: real, bearings: seq<real>)
    requires q.Valid() && 0.0 < lower <= q.threshold && bearings != []
    ensures var inner, outer := ContourOf(q, bearings), ContourOf(q.(threshold := lower), bearings);
            && inner.minRadius <= outer.minRadius && inner.maxRadius <= outer.maxRadius
            && (inner.ring != [] ==> outer.ring != [])
  {
    hide LinkAt, Radius, HorizonMeters;
    RadiiNest(q, lower, bearings);
    RadiiBounds(q.(threshold := lower), bearings);
    SameProbability(q, lower);
  }

  lemma SameProbability(q: Query, lower: real)
    ensures q.(threshold := lower).Probability(None, 0.0) == q.Probability(None, 0.0)
  {
  }

  // ----- Sampled bearings -----

  function Mod360(x: real): real
  {
    x - 360.0 * ((x / 360.0).Floor as real)
  }

  lemma Mod360Range(x: real)
    ensures Station.Bearing(Mod360(x))
  {
    var k := (x / 360.0).Floor as real;
    assert k <= x / 360.0 < k + 1.0;
  }

  function SectorBearings(s: Sector): seq<real> {
    [Mod360(s.start + 360.0), Mod360(s.start - 0.000001 + 360.0),
     Mod360(s.end + 360.0), Mod360(s.end - 0.000001 + 360.0)]
  }

  function BoundaryBearings(sectors: seq<Sector>): (r: seq<real>)
    ensures |r| == 4 * |sectors|
  {
    if sectors == [] then []
    else BoundaryBearings(sectors[..|sectors| - 1]) + SectorBearings(sectors[|sectors| - 1])
  }

  function StepBearings(n: nat): (r: seq<real>)
    ensures |r| == n && forall k :: 0 <= k < n ==> r[k] == (5 * k) as real
  {
    if n == 0 then [] else StepBearings(n - 1) + [(5 * (n - 1)) as real]
  }

  /** slices.Compact of a sorted list. */
  function Compact(s: seq<real>): (r: seq<real>)
    ensures |r| <= |s|
    ensures s != [] ==> r != [] && r[0] == s[0]
  {
    if |s| <= 1 then s
    else if s[0] == s[1] then Compact(s[1..])
    else [s[0]] + Compact(s[1..])
  }

  predicate AtMost(a: real, b: real) {
    a <= b
  }

  function Bearings(sectors: seq<Sector>): seq<real> {
    Compact(Sort(StepBearings(72) + BoundaryBearings(sectors), AtMost))
  }

  lemma {:induction false} CompactStrictlyIncreasing(s: seq<real>)
    requires SortedBy(s, AtMost)
    ensures forall i, j :: 0 <= i < j < |Compact(s)| ==> Compact(s)[i] < Compact(s)[j]
    ensures forall x :: x in Compact(s) <==> x in s
  {
    if |s| > 1 {
      CompactStrictlyIncreasing(s[1..]);
      assert s == [s[0]] + s[1..];
      var tail := Compact(s[1..]);
      if s[0] != s[1] {
        forall j | 0 <= j < |tail|
          ensures s[0] < tail[j]
        {
          assert j > 0 ==> tail[0] < tail[j];
          assert tail[0] == s[1] && AtMost(s[0], s[1]);
        }
      }
    }
  }

  lemma {:induction false} BoundaryBearingsInRange(sectors: seq<Sector>)
    ensures forall b <- BoundaryBearings(sectors) :: Station.Bearing(b)
  {
    if sectors != [] {
      var s := sectors[|sectors| - 1];
      BoundaryBearingsInRange(sectors[..|sectors| - 1]);
      Mod360Range(s.start + 360.0);
      Mod360Range(s.start - 0.000001 + 360.0);
      Mod360Range(s.end + 360.0);
      Mod360Range(s.end - 0.000001 + 360.0);
    }
  }

  /** The sampled bearings increase strictly, are normalised, and are the steps and sector sides and nothing else. */
  lemma BearingsCorrect(sectors: seq<Sector>)
    ensures var b := Bearings(sectors);
            && 0 < |b| <= 72 + 4 * |sectors|
            && (forall i, j :: 0 <= i < j < |b| ==> b[i] < b[j])
            && (forall x :: x in b <==> x in StepBearings(72) || x in BoundaryBearings(sectors))
            && (forall x <- b :: Station.Bearing(x))
  {
    hide Compact, Sort, StepBearings, BoundaryBearings;
    var raw := StepBearings(72) + BoundaryBearings(sectors);
    assert TotalOrder(AtMost);
    SortCorrect(raw, AtMost);
    CompactStrictlyIncreasing(Sort(raw, AtMost));
    BoundaryBearingsInRange(sectors);
  }

  /** coverageBearings. */
  method CoverageBearings(sectors: seq<Sector>) returns (bearings: seq<real>)
    ensures bearings == Bearings(sectors)
  {
    bearings := [];
    var b := 0;
    while b < 360
      invariant 0 <= b <= 360 && b % 5 == 0 && bearings == StepBearings(b / 5)
    {
      bearings := bearings + [b as real];
      b := b + 5;
    }
    for i := 0 to |sectors|
      invariant bearings == StepBearings(72) + BoundaryBearings(sectors[..i])
    {
      assert sectors[..i + 1][..i] == sectors[..i];
      bearings := bearings + SectorBearings(sectors[i]);
    }
    assert sectors[..|sectors|] == sectors;
    bearings := Compact(Sort(bearings, AtMost));
  }

  /** computeCoverage: the four queries of a station over the same bearings. */
  function CoverageOf(m: Maths, tx: Transmitter, station: Definition): seq<Coverage> {
    BearingsCorrect(station.sectors);
    var b := Bearings(station.sectors);
    [ContourOf(Query(m, tx, station, ChannelA, 0.9), b), ContourOf(Query(m, tx, station, ChannelA, 0.5), b),
     ContourOf(Query(m, tx, station, ChannelB, 0.9), b), ContourOf(Query(m, tx, station, ChannelB, 0.5), b)]
  }

  method ComputeCoverage(m: Maths, tx: Transmitter, station: Definition) returns (result: seq<Coverage>)
    ensures result == CoverageOf(m, tx, station)
  {
    BearingsCorrect(station.sectors);
    var bearings := CoverageBearings(station.sectors);
    result := [];
    var channels, thresholds := [ChannelA, ChannelB], [0.9, 0.5];
    for i := 0 to 2
      invariant result == CoverageOf(m, tx, station)[..2 * i]
    {
      for j := 0 to 2
        invariant result == CoverageOf(m, tx, station)[..2 * i + j]
      {
        var contour := Contour(Query(m, tx, station, channels[i], thresholds[j]), bearings);
        result := result + [contour];
      }
    }
  }

  /** What the geometry conversion and the display rely on: a closed ring of at most 105 points around the station. */
  ghost predicate CoverageSound(c: Coverage) {
    && 0.0 <= c.minRadius <= c.maxRadius
    && |c.ring| <= 105
    && (c.ring != [] ==> c.ring[0] == c.ring[|c.ring| - 1])
    && (forall p <- c.ring :: -540.0 <= p.longitude <= 540.0 && -90.0 <= p.latitude <= 90.0)
  }

  lemma ContourIsSound(q: Query, bearings: seq<real>)
    requires q.Valid() && 0 < |bearings| <= 104
    ensures CoverageSound(ContourOf(q, bearings))
  {
    RadiiBounds(q, bearings);
    forall p | p in ContourOf(q, bearings).ring
      ensures -540.0 <= p.longitude <= 540.0 && -90.0 <= p.latitude <= 90.0
    {
      if b :| b in bearings && p == RingPoint(q, b) {
        assert -180.0 <= q.station.longitude <= 180.0;
      }
    }
  }

  lemma CoverageIsSound(m: Maths, tx: Transmitter, station: Definition)
    requires Sound(m) && Station.TransmitterValid(tx) && Station.DefinitionValid(station)
    ensures forall c <- CoverageOf(m, tx, station) :: CoverageSound(c)
  {
    BearingsCorrect(station.sectors);
    var b := Bearings(station.sectors);
    ContourIsSound(Query(m, tx, station, ChannelA, 0.9), b);
    ContourIsSound(Query(m, tx, station, ChannelA, 0.5), b);
    ContourIsSound(Query(m, tx, station, ChannelB, 0.9), b);
    ContourIsSound(Query(m, tx, station, ChannelB, 0.5), b);
  }

  /** On either channel the contour for 0.9 lies within the one for 0.5. */
  lemma CoverageNests(m: Maths, tx: Transmitter, station: Definition, channel: Channel)
    requires Sound(m) && Station.TransmitterValid(tx) && Station.DefinitionValid(station)
    ensures var i := if channel == ChannelA then 0 else 2;
            var inner, outer := CoverageOf(m, tx, station)[i], CoverageOf(m, tx, station)[i + 1];
            && inner.channel == outer.channel == channel && inner.threshold == 0.9 && outer.threshold == 0.5
            && inner.minRadius <= outer.minRadius && inner.maxRadius <= outer.maxRadius
            && (inner.ring != [] ==> outer.ring != [])
  {
    hide Sound, Station.TransmitterValid, Station.DefinitionValid, MinRadius, MaxRadius, LinkAt;
    BearingsCorrect(station.sectors);
    ContoursNest(Query(m, tx, station, channel, 0.9), 0.5, Bearings(station.sectors));
  }
}
