/** The parts of a run that the engine only calls: PRNG, great-circle motion, AIS encoding, link evaluation,
    the reception draw and coverage. They are arbitrary functions; WorldSound says what is relied on. */
module Worlds {
  import opened Basics
  import opened Model
  import Station
  import RadioModel

  /** The random properties of one new vessel and the generator state after drawing them. */
  datatype Spawn = Spawn(source: nat, course: int, latitude: real, longitude: real, speed: real)

  datatype World = World(id: string, start: int, transmitter: Transmitter,
                         spawn: nat -> Spawn,
                         sail: (Position, int) -> Point,
                         encode: (Position, Channel) -> Option<string>,
                         decode: string -> Option<Report>,
                         link: (real, real, Definition, Channel) -> Link,
                         draw: (string, nat, nat) -> real,
                         coverage: Definition -> seq<Coverage>)

  /** Encoding succeeds only for nine-digit MMSIs, and decoding gives back the identity, channel and UTC second. */
  ghost predicate CodecSound(w: World) {
    forall p: Position, c: Channel {:trigger w.encode(p, c)} :: w.encode(p, c).Some? ==>
      && 100_000_000 <= p.mmsi <= 999_999_999
      && w.decode(w.encode(p, c).value).Some?
      && w.decode(w.encode(p, c).value).value.mmsi == p.mmsi
      && w.decode(w.encode(p, c).value).value.channel == c
      && w.decode(w.encode(p, c).value).value.second == Some(UtcSecond(p.updatedAt))
  }

  ghost predicate LinksSound(w: World) {
    forall latitude, longitude, d: Definition, c {:trigger w.link(latitude, longitude, d, c)} ::
      Station.DefinitionValid(d) ==> RadioModel.LinkInRange(w.link(latitude, longitude, d, c))
  }

  ghost predicate CoverageFits(coverage: seq<Coverage>) {
    && |coverage| == 4
    && coverage[0].channel == coverage[1].channel == ChannelA && coverage[2].channel == coverage[3].channel == ChannelB
    && coverage[0].threshold == coverage[2].threshold == 0.9 && coverage[1].threshold == coverage[3].threshold == 0.5
    && forall c <- coverage :: RadioModel.CoverageSound(c)
  }

  /** Coverage depends on everything but the name. */
  ghost predicate CoverageIgnoresName(w: World) {
    forall a: Definition, b: Definition {:trigger w.coverage(a), w.coverage(b)} :: a == b.(name := a.name) ==> w.coverage(a) == w.coverage(b)
  }

  ghost predicate WorldSound(w: World) {
    && w.id != "" && 0 < w.start < YEAR_10000
    && CodecSound(w) && LinksSound(w) && CoverageIgnoresName(w)
    && forall d {:trigger w.coverage(d)} :: Station.DefinitionValid(d) ==> CoverageFits(w.coverage(d))
  }
}
