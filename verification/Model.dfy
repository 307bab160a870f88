/** Values shared by the engine, the reception model and the display (simulation/types.go). */
module Model {
  import opened Basics

  // Instants are nanoseconds since the zero time, 0001-01-01T00:00:00Z; durations are nanoseconds.
  const SECOND: int := 1_000_000_000
  const MILLISECOND: int := 1_000_000
  const YEAR_10000: int := 315_537_897_600 * SECOND
  const MAX_INT64: int := 0x7FFF_FFFF_FFFF_FFFF
  const MAX_UINT64: nat := 0xFFFF_FFFF_FFFF_FFFF

  // Engine limits (simulation/simulator.go, observation.go, station.go).
  const MAX_VESSELS := 100
  const MESSAGE_LIMIT := 1000
  const TICK_INTERVAL: int := SECOND
  const MAX_ADVANCE: int := 60 * SECOND
  const SPEED_SCALE := 100
  const MAX_SPEED := 10_000 // Hundredths.
  const FIRST_MMSI: nat := 200_000_000
  const HISTORY_LIMIT: nat := 1000
  const TARGET_LIMIT: nat := 1000
  const RECENT_LIMIT: nat := 50
  const FRESH_AGE: int := 10 * SECOND
  const STALE_AGE: int := 60 * SECOND
  const EXPIRY_AGE: int := 600 * SECOND
  const RATE_WINDOW: int := 60 * SECOND
  const RATE_BUCKETS := 60
  const MAX_STATIONS := 16
  const MAX_NAME_RUNES := 80
  const MAX_SECTORS := 8

  datatype Error = Invalid | Limit | NotFound | Conflict | Encoding | Cancelled | Stopped | CatchUp

  datatype Channel = ChannelA | ChannelB

  datatype Transmitter = Transmitter(power: real, height: real, gain: real, feederLoss: real)

  datatype ReceiverChannel = ReceiverChannel(enabled: bool, sensitivity: real, noisePenalty: real, drop: real)

  datatype Sector = Sector(start: real, end: real, loss: real)

  datatype Definition = Definition(name: string, latitude: real, longitude: real, enabled: bool, height: real,
                                   gain: real, feederLoss: real, channelA: ReceiverChannel,
                                   channelB: ReceiverChannel, sectors: seq<Sector>)
  {
    function Receiver(channel: Channel): ReceiverChannel {
      if channel == ChannelB then channelB else channelA
    }
  }

  datatype Point = Point(longitude: real, latitude: real)

  datatype Coverage = Coverage(channel: Channel, threshold: real, minRadius: real, maxRadius: real, ring: seq<Point>)

  datatype Position = Position(mmsi: nat, latitude: real, longitude: real, speed: real, course: real,
                               heading: int, updatedAt: int)

  /** What RadioModel computes between a transmitter and a receiving channel. */
  datatype Link = Link(distance: real, bearing: Option<real>, horizon: real, shadowLoss: real, power: real,
                       sensitivity: real, margin: real, probability: real)

  datatype Outcome = StationDisabled | ChannelDisabled | OutsideHorizon | InsufficientMargin
                   | ProbabilisticLoss | Received

  datatype Message = Message(sequence: nat, mmsi: nat, timestamp: int, sentence: string)

  /** A message together with the channel and the place it was sent from, which receivers evaluate. */
  datatype Transmission = Transmission(message: Message, channel: Channel, latitude: real, longitude: real,
                                       name: string, typeId: string)

  datatype ReceiverSnapshot = ReceiverSnapshot(name: string, latitude: real, longitude: real, height: real,
                                               gain: real, feederLoss: real, channel: ReceiverChannel)

  /** A record of a station's log, see Listening.LogOk. */
  datatype Reception = Reception(stationId: string, sequence: nat, transmission: nat, mmsi: nat, channel: Channel,
                                 timestamp: int, sentence: string, vesselName: string, vesselType: string,
                                 configRevision: nat, rfRevision: nat, receiver: ReceiverSnapshot, link: Link)

  /** A decoded AIS position report; None marks an unavailable value. */
  datatype Report = Report(mmsi: nat, channel: Channel, longitude: Option<real>, latitude: Option<real>,
                           speed: Option<real>, course: Option<real>, heading: Option<int>, second: Option<int>)

  datatype Status = Fresh | Stale | Lost

  function TargetStatus(age: int): Status {
    if age <= FRESH_AGE then Fresh else if age <= STALE_AGE then Stale else Lost
  }

  /** UTC second of minute of an instant. */
  function UtcSecond(at: int): int {
    at / SECOND % 60
  }
}
