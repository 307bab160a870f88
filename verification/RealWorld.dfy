/** The world of the shipped program: its AIS codec, radio model and coverage satisfy everything the engine theorems rely
    on, so those theorems are about that program. */
module RealWorld {
  import opened Basics
  import opened Model
  import opened Worlds
  import opened Engine
  import opened Runs
  import opened Reachable
  import AisCodec
  import HonestRuns
  import RadioModel
  import Station
  import Wire

  /** Generation, motion and draws stay arbitrary; m stands for the mathematical library. */
  function Shipped(id: string, start: int, m: RadioModel.Maths, tx: Transmitter, spawn: nat -> Spawn,
                   sail: (Position, int) -> Point, draw: (string, nat, nat) -> real): World {
    World(id, start, tx, spawn, sail, (p, c) => AisCodec.EncodePosition(p, c), s => AisCodec.DecodePosition(s),
          (latitude, longitude, d, c) => RadioModel.EvaluateLink(m, tx, latitude, longitude, d, c), draw,
          d => RadioModel.CoverageOf(m, tx, d))
  }

  lemma CodecIsSound(p: Position, c: Channel)
    requires AisCodec.EncodePosition(p, c).Some?
    ensures 100_000_000 <= p.mmsi <= 999_999_999
    ensures var r := AisCodec.DecodePosition(AisCodec.EncodePosition(p, c).value);
            r.Some? && r.value.mmsi == p.mmsi && r.value.channel == c && r.value.second == Some(UtcSecond(p.updatedAt))
  {
    hide AisCodec.Parse, AisCodec.Encoded, AisCodec.DecodePosition, UtcSecond;
    AisCodec.RoundTrip(p, c);
  }

  lemma CoverageFitsDisplay(m: RadioModel.Maths, tx: Transmitter, d: Definition)
    requires RadioModel.Sound(m) && Station.TransmitterValid(tx) && Station.DefinitionValid(d)
    ensures CoverageFits(RadioModel.CoverageOf(m, tx, d))
  {
    hide RadioModel.CoverageSound, Station.DefinitionValid;
    RadioModel.CoverageIsSound(m, tx, d);
  }

  /** The same contour query for a renamed station. */
  ghost predicate Renamed(p: RadioModel.Query, q: RadioModel.Query) {
    p.(station := q.station) == q && p.station == q.station.(name := p.station.name)
  }

  lemma SameReach(p: RadioModel.Query, q: RadioModel.Query, bearing: real, distance: real)
    requires Renamed(p, q)
    ensures p.Reaches(bearing, distance) == q.Reaches(bearing, distance)
    ensures p.Probability(None, distance) == q.Probability(None, distance) && p.Horizon() == q.Horizon()
  {
    hide RadioModel.DecodeProbability, RadioModel.PathLoss, RadioModel.HorizonMeters, Station.ShadowLoss;
  }

  lemma {:induction false} SameBracket(p: RadioModel.Query, q: RadioModel.Query, bearing: real, n: nat)
    requires Renamed(p, q)
    ensures RadioModel.Bracket(p, bearing, n) == RadioModel.Bracket(q, bearing, n)
  {
    hide RadioModel.LinkAt, RadioModel.HorizonMeters;
    SameReach(p, q, bearing, 0.0);
    if n > 0 {
      SameBracket(p, q, bearing, n - 1);
      var (low, high) := RadioModel.Bracket(q, bearing, n - 1);
      SameReach(p, q, bearing, (low + high) / 2.0);
    }
  }

  lemma SameRadius(p: RadioModel.Query, q: RadioModel.Query, bearing: real)
    requires Renamed(p, q)
    ensures RadioModel.Radius(p, bearing) == RadioModel.Radius(q, bearing)
    ensures RadioModel.RingPoint(p, bearing) == RadioModel.RingPoint(q, bearing)
  {
    hide RadioModel.Bracket;
    SameBracket(p, q, bearing, 16);
  }

  lemma {:induction false} SameRadii(p: RadioModel.Query, q: RadioModel.Query, bearings: seq<real>)
    requires Renamed(p, q)
    ensures RadioModel.MinRadius(p, bearings) == RadioModel.MinRadius(q, bearings)
    ensures RadioModel.MaxRadius(p, bearings) == RadioModel.MaxRadius(q, bearings)
  {
    hide RadioModel.Radius, RadioModel.RingPoint, RadioModel.LinkAt, RadioModel.HorizonMeters;
    SameReach(p, q, 0.0, 0.0);
    if bearings != [] {
      SameRadii(p, q, bearings[..|bearings| - 1]);
      SameRadius(p, q, bearings[|bearings| - 1]);
    }
  }

  lemma SameContour(p: RadioModel.Query, q: RadioModel.Query, bearings: seq<real>)
    requires Renamed(p, q) && bearings != []
    ensures RadioModel.ContourOf(p, bearings) == RadioModel.ContourOf(q, bearings)
  {
    hide RadioModel.Radius, RadioModel.RingPoint, RadioModel.LinkAt, RadioModel.MinRadius, RadioModel.MaxRadius;
    SameRadii(p, q, bearings);
    SameReach(p, q, 0.0, 0.0);
    forall i | 0 <= i < |bearings|
      ensures RadioModel.RingPoint(p, bearings[i]) == RadioModel.RingPoint(q, bearings[i])
    {
      SameRadius(p, q, bearings[i]);
    }
    assert RadioModel.ContourOf(p, bearings).ring == RadioModel.ContourOf(q, bearings).ring;
  }

  /** Coverage is computed from everything but the name. */
  lemma CoverageIgnores(m: RadioModel.Maths, tx: Transmitter, a: Definition, b: Definition)
    requires a == b.(name := a.name)
    ensures RadioModel.CoverageOf(m, tx, a) == RadioModel.CoverageOf(m, tx, b)
  {
    hide RadioModel.ContourOf, RadioModel.Bearings;
    RadioModel.BearingsCorrect(a.sectors);
    var bearings := RadioModel.Bearings(a.sectors);
    forall channel: Channel, threshold: real
      ensures RadioModel.ContourOf(RadioModel.Query(m, tx, a, channel, threshold), bearings)
           == RadioModel.ContourOf(RadioModel.Query(m, tx, b, channel, threshold), bearings)
    {
      SameContour(RadioModel.Query(m, tx, a, channel, threshold), RadioModel.Query(m, tx, b, channel, threshold), bearings);
    }
  }

  /** Whatever generation, motion and draws do, the shipped world is sound. */
  lemma ShippedIsSound(id: string, start: int, m: RadioModel.Maths, tx: Transmitter, spawn: nat -> Spawn,
                       sail: (Position, int) -> Point, draw: (string, nat, nat) -> real)
    requires id != "" && 0 < start < YEAR_10000 && RadioModel.Sound(m) && Station.TransmitterValid(tx)
    ensures WorldSound(Shipped(id, start, m, tx, spawn, sail, draw))
  {
    hide AisCodec.EncodePosition, AisCodec.DecodePosition, RadioModel.EvaluateLink, RadioModel.CoverageOf, Station.DefinitionValid,
         CoverageFits, RadioModel.LinkInRange, UtcSecond, RadioModel.Sound, Station.TransmitterValid;
    var w := Shipped(id, start, m, tx, spawn, sail, draw);
    forall p: Position, c: Channel | w.encode(p, c).Some?
      ensures && 100_000_000 <= p.mmsi <= 999_999_999
              && w.decode(w.encode(p, c).value).Some?
              && w.decode(w.encode(p, c).value).value.mmsi == p.mmsi
              && w.decode(w.encode(p, c).value).value.channel == c
              && w.decode(w.encode(p, c).value).value.second == Some(UtcSecond(p.updatedAt))
    {
      CodecIsSound(p, c);
    }
    forall latitude, longitude, d: Definition, c | Station.DefinitionValid(d)
      ensures RadioModel.LinkInRange(w.link(latitude, longitude, d, c))
    {
      RadioModel.LinksAreInRange(m, tx, latitude, longitude, d, c);
    }
    forall a: Definition, b: Definition | a == b.(name := a.name)
      ensures w.coverage(a) == w.coverage(b)
    {
      CoverageIgnores(m, tx, a, b);
    }
    forall d | Station.DefinitionValid(d)
      ensures CoverageFits(w.coverage(d))
    {
      CoverageFitsDisplay(m, tx, d);
    }
  }

  /** The display never rejects the shipped program: no assumption is left but the soundness of the mathematical library. */
  lemma ShippedNeverRejected(id: string, start: int, m: RadioModel.Maths, tx: Transmitter, spawn: nat -> Spawn,
                             sail: (Position, int) -> Point, draw: (string, nat, nat) -> real, source: nat, count: int,
                             speed: real, definitions: seq<Definition>, commands: seq<Command>,
                             requested: Option<seq<string>>, station: string, req: Wire.HistoryRequest)
    requires RadioModel.Sound(m) && req.simulationId == id
    requires New(Shipped(id, start, m, tx, spawn, sail, draw), source, count, speed, definitions).Committed?
    ensures var w := Shipped(id, start, m, tx, spawn, sail, draw);
            && WorldSound(w)
            && var e0, t0 := New(w, source, count, speed, definitions).engine, NewTrace(w, source, count, speed, definitions);
            && Inv(w, e0, t0)
            && HonestRuns.DisplayAccepts(w, Run(w, e0, t0, commands).0, requested, station, req)
  {
    hide RadioModel.Sound, WorldSound, Inv, Run, NewTrace, HonestRuns.DisplayAccepts, Station.DefinitionValid, SetCount, Blank,
         Station.TransmitterValid;
    ShippedIsSound(id, start, m, tx, spawn, sail, draw);
    HonestRuns.HonestEngineNeverRejected(Shipped(id, start, m, tx, spawn, sail, draw), source, count, speed, definitions,
                                         commands, requested, station, req);
  }
}
