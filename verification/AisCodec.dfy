/** AIS type 1 position reports: bit fields, armouring and the NMEA frame, and the round trip through them
    (internal/ais/position.go, decode.go; Annex 8 section 3.1 of ITU-R M.1371-5). */
module AisCodec {
  import opened Basics
  import opened Model
  import opened AisBits
  import Decimal

  const COORDINATE_SCALE := 600_000
  const POSITION_BITS := 168
  const MAX_MMSI := 999_999_999

  // ----- Encoding -----

  /** A coordinate in ten-thousandths of a minute. */
  function Raw(degrees: real): int {
    Round(degrees * COORDINATE_SCALE as real)
  }

  predicate PositionValid(p: Position) {
    && 100_000_000 <= p.mmsi <= MAX_MMSI
    && -90.0 <= p.latitude <= 90.0 && -180.0 <= p.longitude <= 180.0
    && 0.0 <= p.speed <= 102.2 && 0.0 <= p.course < 360.0 && 0 <= p.heading < 360 && p.updatedAt != 0
  }

  datatype Field = Field(value: int, width: nat)

  /** The fields of a type 1 report in order: type, repeat, MMSI, status, turn, speed, accuracy, longitude, latitude,
      course, heading, second, and everything after it. */
  function Fields(p: Position): seq<Field> {
    [Field(1, 6), Field(0, 2), Field(p.mmsi, 30), Field(0, 4), Field(-128, 8), Field(Round(p.speed * 10.0), 10), Field(0, 1),
     Field(Raw(p.longitude), 28), Field(Raw(p.latitude), 27),
     Field(Round(p.course * 10.0) % 3600, 12), Field(p.heading, 9), Field(UtcSecond(p.updatedAt), 6), Field(0, 25)]
  }

  function Layout(fields: seq<Field>): seq<Bit> {
    if fields == [] then [] else Layout(fields[..|fields| - 1]) + ToBits(fields[|fields| - 1].value, fields[|fields| - 1].width)
  }

  function Offset(fields: seq<Field>, i: nat): nat
    requires i <= |fields|
  {
    if i == 0 then 0 else Offset(fields, i - 1) + fields[i - 1].width
  }

  lemma {:induction false} LayoutLength(fields: seq<Field>)
    ensures |Layout(fields)| == Offset(fields, |fields|)
  {
    if fields != [] {
      var n := |fields| - 1;
      LayoutLength(fields[..n]);
      OffsetPrefix(fields, n, n);
    }
  }

  lemma {:induction false} OffsetPrefix(fields: seq<Field>, k: nat, i: nat)
    requires i <= k <= |fields|
    ensures Offset(fields[..k], i) == Offset(fields, i)
  {
    if i > 0 {
      OffsetPrefix(fields, k, i - 1);
    }
  }

  lemma {:induction false} OffsetMonotone(fields: seq<Field>, i: nat, j: nat)
    requires i <= j <= |fields|
    ensures Offset(fields, i) <= Offset(fields, j)
  {
    if i < j {
      OffsetMonotone(fields, i, j - 1);
    }
  }

  /** Field i lies at its offset. */
  lemma {:induction false} FieldAt(fields: seq<Field>, i: nat)
    requires i < |fields|
    ensures Offset(fields, i) + fields[i].width <= |Layout(fields)|
    ensures Layout(fields)[Offset(fields, i)..Offset(fields, i) + fields[i].width] == ToBits(fields[i].value, fields[i].width)
  {
    hide ToBits;
    var n := |fields| - 1;
    LayoutLength(fields);
    LayoutLength(fields[..n]);
    OffsetPrefix(fields, n, n);
    if i < n {
      FieldAt(fields[..n], i);
      OffsetPrefix(fields, n, i);
    }
  }

  function ArmourChar(v: nat): char
    requires v < 64
  {
    (v + 48 + if v >= 40 then 8 else 0) as char
  }

  function Armour(chars: seq<nat>): (s: string)
    requires forall i :: 0 <= i < |chars| ==> chars[i] < 64
    ensures |s| == |chars|
  {
    seq(|chars|, i requires 0 <= i < |chars| => ArmourChar(chars[i]))
  }

  function ChannelText(channel: Channel): string {
    if channel == ChannelA then "A" else "B"
  }

  function Xor(a: bv8, c: char): bv8 {
    a ^ ((c as int % 256) as bv8)
  }

  function Checksum(s: string): bv8 {
    if s == [] then 0 else Xor(Checksum(s[..|s| - 1]), s[|s| - 1])
  }

  function HexDigit(n: nat): char
    requires n < 16
  {
    "0123456789ABCDEF"[n]
  }

  function Hex(x: bv8): (s: string)
    ensures |s| == 2
  {
    [HexDigit(x as nat / 16), HexDigit(x as nat % 16)]
  }

  function Body(payload: string, channel: Channel): string {
    "AIVDM,1,1,," + ChannelText(channel) + "," + payload + ",0"
  }

  function Frame(body: string): string {
    "!" + body + "*" + Hex(Checksum(body)) + "\r\n"
  }

  function PayloadBits(p: Position): (b: seq<Bit>)
    ensures |b| == POSITION_BITS
  {
    PayloadLength(p);
    Layout(Fields(p))
  }

  lemma {:induction false} Offsets(p: Position)
    ensures var f := Fields(p);
            && |f| == 13
            && Offset(f, 2) == 8 && Offset(f, 5) == 50 && Offset(f, 7) == 61 && Offset(f, 8) == 89
            && Offset(f, 9) == 116 && Offset(f, 10) == 128 && Offset(f, 11) == 137 && Offset(f, 13) == POSITION_BITS && Offset(f, 0) == 0
  {
    var f := Fields(p);
    assert Offset(f, 1) == 6;
    assert Offset(f, 2) == 8;
    assert Offset(f, 3) == 38;
    assert Offset(f, 4) == 42;
    assert Offset(f, 5) == 50;
    assert Offset(f, 6) == 60;
    assert Offset(f, 7) == 61;
    assert Offset(f, 8) == 89;
    assert Offset(f, 9) == 116;
    assert Offset(f, 10) == 128;
    assert Offset(f, 11) == 137;
    assert Offset(f, 12) == 143;
  }

  lemma PayloadLength(p: Position)
    ensures |Layout(Fields(p))| == POSITION_BITS
  {
    Offsets(p);
    LayoutLength(Fields(p));
  }

  lemma PackedBound(b: seq<Bit>)
    requires |b| % 6 == 0
    ensures forall i :: 0 <= i < |Pack(b)| ==> Pack(b)[i] < 64
  {
    forall i | 0 <= i < |Pack(b)|
      ensures Pack(b)[i] < 64
    {
      PackAt(b, i);
    }
  }

  /** EncodePosition up to its final self-check. */
  function Encoded(p: Position, channel: Channel): string {
    PackedBound(PayloadBits(p));
    Frame(Body(Armour(Pack(PayloadBits(p))), channel))
  }

  // ----- The NMEA frame -----

  /** What go-nmea makes of a VDM sentence. */
  datatype Vdm = Vdm(prefix: string, fragments: nat, fragment: nat, channel: string, payload: seq<Bit>)

  predicate Blank(c: char) {
    c in {' ', '\t', '\r', '\n'}
  }

  function TrimEnd(s: string): string {
    if s != [] && Blank(s[|s| - 1]) then TrimEnd(s[..|s| - 1]) else s
  }

  function FirstStar(s: string): (i: nat)
    ensures i <= |s|
  {
    if s == [] || s[0] == '*' then 0 else 1 + FirstStar(s[1..])
  }

  function Split(s: string): (parts: seq<string>)
    ensures |parts| > 0
  {
    if s == [] then [[]]
    else
      var rest := Split(s[1..]);
      if s[0] == ',' then [[]] + rest else [[s[0]] + rest[0]] + rest[1..]
  }

  function DearmourChar(c: char): nat
    requires 48 <= c as int < 120
  {
    if c as int - 48 > 40 then c as int - 56 else c as int - 48
  }

  /** The payload bits without the fill bits; None for a character outside the armour. */
  function Dearmour(s: string, fill: nat): Option<seq<Bit>> {
    if fill >= 6 || 6 * |s| < fill || exists c <- s :: !(48 <= c as int < 120) then None
    else
      Some(Unpack(seq(|s|, i requires 0 <= i < |s| => assert s[i] in s; DearmourChar(s[i])))[..6 * |s| - fill])
  }

  function ParseFields(parts: seq<string>): Option<Vdm> {
    if |parts| < 7 then None
    else
      var fragments, fragment, fill := Decimal.ParseUint(parts[1]), Decimal.ParseUint(parts[2]), Decimal.ParseUint(parts[6]);
      if fragments.None? || fragment.None? || fill.None? then None
      else
        var payload := Dearmour(parts[5], fill.value);
        if payload.None? then None
        else Some(Vdm(parts[0], fragments.value, fragment.value, parts[4], payload.value))
  }

  /** Framing, checksum and armouring of one sentence. */
  function Parse(sentence: string): Option<Vdm> {
    var s := TrimEnd(sentence);
    var star := FirstStar(s);
    if s == [] || s[0] != '!' || star == |s| then None
    else
      var body := s[1..Max(star, 1)];
      if s[star + 1..] != Hex(Checksum(body)) then None else ParseFields(Split(body))
  }

  /** EncodePosition. */
  function EncodePosition(p: Position, channel: Channel): Option<string> {
    if !PositionValid(p) || Parse(Encoded(p, channel)).None? then None else Some(Encoded(p, channel))
  }

  // ----- Decoding -----

  function Read(b: seq<Bit>, start: nat, width: nat): nat
    requires start + width <= |b|
  {
    FromBits(b[start..start + width])
  }

  function ReadSigned(b: seq<Bit>, start: nat, width: nat): int
    requires 0 < width && start + width <= |b|
  {
    Signed(b[start..start + width])
  }

  function Available<T>(present: bool, value: T): Option<T> {
    if present then Some(value) else None
  }

  /** The report of a 168-bit payload. */
  function DecodeBits(b: seq<Bit>, channel: Channel): Option<Report>
    requires |b| == POSITION_BITS
  {
    var mmsi, lon, lat := Read(b, 8, 30), ReadSigned(b, 61, 28), ReadSigned(b, 89, 27);
    var speed, course, heading, second := Read(b, 50, 10), Read(b, 116, 12), Read(b, 128, 9), Read(b, 137, 6);
    if Read(b, 0, 6) != 1 || mmsi < 1 || mmsi > MAX_MMSI then None
    else if lon != 181 * COORDINATE_SCALE && (lon < -180 * COORDINATE_SCALE || lon > 180 * COORDINATE_SCALE) then None
    else if lat != 91 * COORDINATE_SCALE && (lat < -90 * COORDINATE_SCALE || lat > 90 * COORDINATE_SCALE) then None
    else if course > 3600 || (heading != 511 && heading >= 360) then None
    else
      var located := lon != 181 * COORDINATE_SCALE && lat != 91 * COORDINATE_SCALE;
      Some(Report(mmsi, channel, Available(located, lon as real / COORDINATE_SCALE as real),
                  Available(located, lat as real / COORDINATE_SCALE as real),
                  Available(speed != 1023, speed as real / 10.0), Available(course < 3600, course as real / 10.0),
                  Available(heading != 511, heading), Available(second <= 59, second)))
  }

  function DecodePosition(sentence: string): Option<Report> {
    var vdm := Parse(sentence);
    if vdm.None? || vdm.value.prefix != "AIVDM" || vdm.value.fragments != 1 || vdm.value.fragment != 1 then None
    else if vdm.value.channel != "A" && vdm.value.channel != "B" then None
    else if |vdm.value.payload| != POSITION_BITS then None
    else DecodeBits(vdm.value.payload, if vdm.value.channel == "A" then ChannelA else ChannelB)
  }

  // ----- Round trip -----

  predicate Without(s: string, x: char) {
    forall i :: 0 <= i < |s| ==> s[i] != x
  }

  lemma ArmourRoundTrip(v: nat)
    requires v < 64
    ensures 48 <= ArmourChar(v) as int < 120 && DearmourChar(ArmourChar(v)) == v
    ensures ArmourChar(v) != ',' && ArmourChar(v) != '*'
  {
  }

  lemma PayloadRoundTrip(b: seq<Bit>)
    requires |b| % 6 == 0
    ensures forall i :: 0 <= i < |Pack(b)| ==> Pack(b)[i] < 64
    ensures Dearmour(Armour(Pack(b)), 0) == Some(b)
    ensures Without(Armour(Pack(b)), ',') && Without(Armour(Pack(b)), '*')
  {
    hide ArmourChar, DearmourChar, Pack, Unpack;
    PackedBound(b);
    UnpackPack(b);
    var chars := Pack(b);
    var s := Armour(chars);
    forall i | 0 <= i < |s|
      ensures 48 <= s[i] as int < 120 && DearmourChar(s[i]) == chars[i] && s[i] != ',' && s[i] != '*'
    {
      ArmourRoundTrip(chars[i]);
    }
    var back := seq(|s|, i requires 0 <= i < |s| => assert s[i] in s; DearmourChar(s[i]));
    assert back == chars;
    assert forall c <- s :: 48 <= c as int < 120;
    assert Unpack(back)[..6 * |s| - 0] == b;
  }

  lemma {:induction false} SplitFirst(a: string, rest: string)
    requires Without(a, ',')
    ensures Split(a + "," + rest) == [a] + Split(rest)
  {
    if a == [] {
      assert ([] + "," + rest)[1..] == rest;
    } else {
      SplitFirst(a[1..], rest);
      assert (a + "," + rest)[1..] == a[1..] + "," + rest;
      assert [a[0]] + a[1..] == a;
      assert ([a[1..]] + Split(rest))[1..] == Split(rest);
    }
  }

  lemma {:induction false} SplitLast(a: string)
    requires Without(a, ',')
    ensures Split(a) == [a]
  {
    if a != [] {
      SplitLast(a[1..]);
      assert [a[0]] + a[1..] == a;
    }
  }

  lemma SplitBody(payload: string, channel: Channel)
    requires Without(payload, ',')
    ensures Split(Body(payload, channel)) == ["AIVDM", "1", "1", "", ChannelText(channel), payload, "0"]
  {
    hide Split;
    var ch := ChannelText(channel);
    var f := payload + ",0";
    var e := ch + "," + f;
    var d := "" + "," + e;
    var c := "1" + "," + d;
    var b := "1" + "," + c;
    assert f == payload + "," + "0";
    assert Body(payload, channel) == "AIVDM" + "," + b;
    SplitLast("0");
    SplitFirst(payload, "0");
    SplitFirst(ch, f);
    SplitFirst("", e);
    SplitFirst("1", d);
    SplitFirst("1", c);
    SplitFirst("AIVDM", b);
  }

  lemma {:induction false} StarAfter(x: string, y: string)
    requires Without(x, '*')
    ensures FirstStar(x + "*" + y) == |x|
  {
    if x == [] {
      assert ([] + "*" + y)[0] == '*';
    } else {
      StarAfter(x[1..], y);
      assert (x + "*" + y)[1..] == x[1..] + "*" + y;
    }
  }

  lemma TrimFrame(s: string)
    requires s != [] && !Blank(s[|s| - 1])
    ensures TrimEnd(s + "\r\n") == s
  {
    assert (s + "\r\n")[..|s| + 1] == s + "\r";
    assert (s + "\r")[..|s|] == s;
    assert TrimEnd(s + "\r") == s;
  }

  /** The frame of a body without a star parses to the fields of that body. */
  lemma FrameRoundTrip(body: string)
    requires Without(body, '*')
    ensures Parse(Frame(body)) == ParseFields(Split(body))
  {
    hide Checksum, HexDigit, ParseFields, Split;
    var sum := Hex(Checksum(body));
    var s := "!" + body + "*" + sum;
    HexIsHex(Checksum(body));
    TrimFrame(s);
    assert Frame(body) == s + "\r\n";
    StarAfter("!" + body, sum);
    assert s[1..|body| + 1] == body && s[|body| + 2..] == sum;
  }

  lemma HexIsHex(x: bv8)
    ensures !Blank(Hex(x)[1]) && Hex(x)[0] != '*' && Hex(x)[1] != '*'
  {
    DigitIsDigit(x as nat / 16);
    DigitIsDigit(x as nat % 16);
  }

  lemma DigitIsDigit(n: nat)
    requires n < 16
    ensures !Blank(HexDigit(n)) && HexDigit(n) != '*'
  {
  }

  lemma SmallNumbers()
    ensures Decimal.ParseUint("1") == Some(1) && Decimal.ParseUint("0") == Some(0)
  {
  }

  /** Whatever is encoded parses back to its payload bits. */
  lemma ParseEncoded(p: Position, channel: Channel)
    ensures Parse(Encoded(p, channel)) == Some(Vdm("AIVDM", 1, 1, ChannelText(channel), PayloadBits(p)))
  {
    hide Pack, Armour, Dearmour, Split, Parse, Frame, PayloadBits;
    var b := PayloadBits(p);
    PayloadRoundTrip(b);
    var payload := Armour(Pack(b));
    SplitBody(payload, channel);
    NoStar(payload, channel);
    FrameRoundTrip(Body(payload, channel));
    SmallNumbers();
  }

  lemma NoStar(payload: string, channel: Channel)
    requires Without(payload, '*')
    ensures Without(Body(payload, channel), '*')
  {
  }

  // ----- Fields -----

  predicate HalfUnit(x: real, raw: int, scale: int) {
    -0.5 <= raw as real - x * scale as real <= 0.5
  }

  lemma RoundInRange(x: real, low: int, high: int)
    requires low as real <= x <= high as real
    ensures low <= Round(x) <= high
  {
  }

  lemma Scaled(x: real, limit: int, scale: int)
    requires scale > 0 && -(limit as real) <= x <= limit as real
    ensures -(limit * scale) <= Round(x * scale as real) <= limit * scale
    ensures HalfUnit(x, Round(x * scale as real), scale)
  {
    var s := scale as real;
    ScaledBound(x, limit as real, s);
    assert limit as real * s == (limit * scale) as real;
    RoundInRange(x * s, -(limit * scale), limit * scale);
    RoundError(x * s);
  }

  lemma Product(a: real, b: real)
    requires a >= 0.0 && b >= 0.0
    ensures a * b >= 0.0
  {
  }

  lemma ScaledBound(x: real, limit: real, s: real)
    requires s > 0.0 && -limit <= x <= limit
    ensures -(limit * s) <= x * s <= limit * s
  {
    Product(limit - x, s);
    Product(x + limit, s);
  }

  /** A raw value read back from its field. */
  lemma FieldIs(p: Position, i: nat, start: nat)
    requires i < |Fields(p)| && Offset(Fields(p), i) == start
    ensures start + Fields(p)[i].width <= POSITION_BITS
    ensures PayloadBits(p)[start..start + Fields(p)[i].width] == ToBits(Fields(p)[i].value, Fields(p)[i].width)
  {
    hide ToBits, Fields, Layout, Offset;
    PayloadLength(p);
    FieldAt(Fields(p), i);
  }

  lemma Widths()
    ensures Pow2(6) == 64 && Pow2(9) == 512 && Pow2(10) == 1024 && Pow2(12) == 4096
    ensures Pow2(26) == 67_108_864 && Pow2(27) == 134_217_728 && Pow2(30) == 1_073_741_824
  {
    assert Pow2(3) == 8;
    assert Pow2(6) == 64;
    assert Pow2(9) == 512;
    assert Pow2(12) == 4096;
    assert Pow2(15) == 32_768;
    assert Pow2(18) == 262_144;
    assert Pow2(21) == 2_097_152;
    assert Pow2(24) == 16_777_216;
    assert Pow2(27) == 134_217_728;
  }

  lemma RawFits(degrees: real, limit: int)
    requires -(limit as real) <= degrees <= limit as real
    ensures -(limit * 600_000) <= Raw(degrees) <= limit * 600_000
    ensures HalfUnit(degrees, Raw(degrees), COORDINATE_SCALE)
  {
    Scaled(degrees, limit, COORDINATE_SCALE);
  }

  lemma SignedFits(raw: int, half: nat, width: nat)
    requires width == half + 1 && 0 - Pow2(half) <= raw < Pow2(half)
    ensures Signed(ToBits(raw, width)) == raw
  {
    hide Signed, ToBits, Pow2;
    assert width - 1 == half;
    SignedRoundTrip(raw, width);
  }

  lemma LongitudeReads(p: Position)
    requires PositionValid(p)
    ensures ReadSigned(PayloadBits(p), 61, 28) == Raw(p.longitude)
  {
    hide ToBits, FromBits, Layout, PayloadBits, Signed, Pow2, Raw;
    Offsets(p);
    Widths();
    FieldIs(p, 7, 61);
    RawFits(p.longitude, 180);
    var raw := Raw(p.longitude);
    assert -108_000_000 <= raw <= 108_000_000;
    SignedFits(raw, 27, 28);
  }

  lemma LatitudeReads(p: Position)
    requires PositionValid(p)
    ensures ReadSigned(PayloadBits(p), 89, 27) == Raw(p.latitude)
  {
    hide ToBits, FromBits, Layout, PayloadBits, Signed, Pow2, Raw;
    Offsets(p);
    Widths();
    FieldIs(p, 8, 89);
    RawFits(p.latitude, 90);
    var raw := Raw(p.latitude);
    assert -54_000_000 <= raw <= 54_000_000;
    SignedFits(raw, 26, 27);
  }

  lemma MotionReads(p: Position)
    requires PositionValid(p)
    ensures var b := PayloadBits(p);
            && Read(b, 50, 10) == Round(p.speed * 10.0) <= 1022
            && Read(b, 116, 12) == Round(p.course * 10.0) % 3600 && Read(b, 128, 9) == p.heading
  {
    hide ToBits, FromBits, Layout, PayloadBits, Pow2, Round;
    Offsets(p);
    Widths();
    FieldIs(p, 5, 50);
    FieldIs(p, 9, 116);
    FieldIs(p, 10, 128);
    SpeedRaw(p.speed);
    FieldRoundTrip(Round(p.speed * 10.0), 10);
    FieldRoundTrip(Round(p.course * 10.0) % 3600, 12);
    FieldRoundTrip(p.heading, 9);
  }

  lemma HeaderReads(p: Position)
    requires PositionValid(p)
    ensures var b := PayloadBits(p);
            Read(b, 0, 6) == 1 && Read(b, 8, 30) == p.mmsi && Read(b, 137, 6) == UtcSecond(p.updatedAt)
  {
    hide ToBits, FromBits, Layout, PayloadBits, Pow2, UtcSecond;
    Offsets(p);
    Widths();
    FieldIs(p, 0, 0);
    FieldIs(p, 2, 8);
    FieldIs(p, 11, 137);
    SecondRange(p.updatedAt);
    FieldRoundTrip(1, 6);
    FieldRoundTrip(p.mmsi, 30);
    FieldRoundTrip(UtcSecond(p.updatedAt), 6);
  }

  /** What every raw field of an encoded position reads as. */
  lemma FieldsRead(p: Position)
    requires PositionValid(p)
    ensures var b := PayloadBits(p);
            && Read(b, 0, 6) == 1 && Read(b, 8, 30) == p.mmsi
            && Read(b, 50, 10) == Round(p.speed * 10.0) <= 1022
            && ReadSigned(b, 61, 28) == Raw(p.longitude)
            && ReadSigned(b, 89, 27) == Raw(p.latitude)
            && Read(b, 116, 12) == Round(p.course * 10.0) % 3600
            && Read(b, 128, 9) == p.heading && Read(b, 137, 6) == UtcSecond(p.updatedAt)
  {
    hide PayloadBits, Read, ReadSigned, Round, Raw, UtcSecond, PositionValid;
    HeaderReads(p);
    MotionReads(p);
    LongitudeReads(p);
    LatitudeReads(p);
  }

  lemma SpeedRaw(speed: real)
    requires 0.0 <= speed <= 102.2
    ensures 0 <= Round(speed * 10.0) <= 1022
  {
    RoundInRange(speed * 10.0, 0, 1022);
  }

  lemma SecondRange(at: int)
    ensures 0 <= UtcSecond(at) <= 59
  {
  }

  /** Courses wrap at 360: a course that rounds up to it reads as north. */
  function CourseRaw(course: real): int {
    Round(course * 10.0) % 3600
  }

  /** The round trip: an encoded valid position decodes with every field available, integers exactly and the rest within
      half a unit, a course within half a unit of the circle. */
  lemma RoundTrip(p: Position, channel: Channel)
    requires PositionValid(p)
    ensures EncodePosition(p, channel) == Some(Encoded(p, channel))
    ensures var r := DecodePosition(Encoded(p, channel));
            && r.Some?
            && r.value.mmsi == p.mmsi && r.value.channel == channel
            && r.value.heading == Some(p.heading) && r.value.second == Some(UtcSecond(p.updatedAt))
            && r.value.longitude.Some? && -0.5 <= (r.value.longitude.value - p.longitude) * 600_000.0 <= 0.5
            && r.value.latitude.Some? && -0.5 <= (r.value.latitude.value - p.latitude) * 600_000.0 <= 0.5
            && r.value.speed.Some? && -0.5 <= (r.value.speed.value - p.speed) * 10.0 <= 0.5
            && r.value.course.Some? && 0.0 <= r.value.course.value < 360.0
            && (-0.5 <= (r.value.course.value - p.course) * 10.0 <= 0.5
                || (r.value.course.value == 0.0 && p.course * 10.0 >= 3599.5))
  {
    hide Parse, Encoded, Round, UtcSecond, PayloadBits;
    ParseEncoded(p, channel);
    FieldsRead(p);
    SecondRange(p.updatedAt);
    RawFits(p.longitude, 180);
    RawFits(p.latitude, 90);
    SpeedRaw(p.speed);
    RoundError(p.speed * 10.0);
    CourseWraps(p.course);
    Back(Raw(p.longitude), p.longitude, COORDINATE_SCALE);
    Back(Raw(p.latitude), p.latitude, COORDINATE_SCALE);
  }

  lemma Back(raw: int, x: real, scale: int)
    requires scale > 0 && HalfUnit(x, raw, scale)
    ensures -0.5 <= (raw as real / scale as real - x) * scale as real <= 0.5
  {
    var s := scale as real;
    var q := raw as real / s;
    assert q * s == raw as real;
    assert (q - x) * s == q * s - x * s;
  }

  lemma CourseWraps(course: real)
    requires 0.0 <= course < 360.0
    ensures 0 <= CourseRaw(course) < 3600
    ensures -0.5 <= CourseRaw(course) as real - course * 10.0 <= 0.5 || (CourseRaw(course) == 0 && course * 10.0 >= 3599.5)
  {
    RoundInRange(course * 10.0, 0, 3600);
    RoundError(course * 10.0);
  }
}
