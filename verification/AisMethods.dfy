/** The codec as it runs: bits written into the payload array one by one and armoured in place, and fields read back
    bit by bit (internal/ais/position.go, decode.go). */
module AisMethods {
  import opened Basics
  import opened Model
  import opened AisBits
  import opened AisCodec

  // ----- Bits by shifting -----

  lemma Apart(x: int, q: int, d: int)
    requires d > 0
    ensures x > q ==> x * d >= q * d + d
  {
    if x > q {
      assert (x - q - 1) * d >= 0;
    }
  }

  lemma Quotient(v: int, d: int, q: int, r: int)
    requires d > 0 && v == q * d + r && 0 <= r < d
    ensures v / d == q
  {
    var x, y := v / d, v % d;
    assert v == x * d + y && 0 <= y < d;
    Apart(x, q, d);
    Apart(q, x, d);
  }

  lemma HalfThenDivide(v: int, d: int)
    requires d > 0
    ensures v / 2 / d == v / (2 * d)
  {
    var h := v / 2;
    var q := h / d;
    assert h == q * d + h % d;
    assert v == 2 * h + v % 2;
    assert q * (2 * d) == 2 * (q * d);
    Quotient(v, 2 * d, q, 2 * (h % d) + v % 2);
  }

  /** Bit k of a field is its value shifted right, the sign included. */
  lemma {:induction false} BitOf(value: int, width: nat, k: nat)
    requires k < width
    ensures ToBits(value, width)[k] == value / Pow2(width - 1 - k) % 2
    decreases width
  {
    if k < width - 1 {
      BitOf(value / 2, width - 1, k);
      HalfThenDivide(value, Pow2(width - 2 - k));
    } else {
      assert Pow2(0) == 1;
    }
  }

  lemma SlotOf(j: nat, total: nat)
    requires j < total && total % 6 == 0
    ensures 0 <= j / 6 < total / 6 && 0 <= j % 6 < 6 && 6 * (j / 6) + j % 6 == j
  {
  }

  lemma FirstZero(done: seq<Bit>, rest: nat, x: Bit)
    requires rest > 0
    ensures var b := done + Zeros(rest);
            b[|done|] == 0 && b[|done| := x] == done + [x] + Zeros(rest - 1)
  {
  }

  lemma PutOne(done: seq<Bit>, rest: nat, x: Bit, i: nat, k: nat)
    requires rest > 0 && |done| + rest == POSITION_BITS && |done| == 6 * i + k && k < 6
    ensures |done + Zeros(rest)| == POSITION_BITS && |done + [x] + Zeros(rest - 1)| == POSITION_BITS
    ensures Pack(done + [x] + Zeros(rest - 1)) == Pack(done + Zeros(rest))[i := Pack(done + Zeros(rest))[i] + x * Pow2(5 - k)]
  {
    hide Pack, Pow2, Zeros;
    FirstZero(done, rest, x);
    PackBit(done + Zeros(rest), i, k, x);
  }

  /** put: the low width bits of value after the bits already written. The bit set is still clear, so oring it in adds
      its weight. */
  method Put(payload: array<int>, bit: nat, value: int, width: nat, ghost done: seq<Bit>) returns (next: nat)
    requires payload.Length == 28 && bit == |done| && bit + width <= POSITION_BITS
    requires payload[..] == Pack(done + Zeros(POSITION_BITS - bit))
    modifies payload
    ensures next == bit + width
    ensures payload[..] == Pack(done + ToBits(value, width) + Zeros(POSITION_BITS - next))
  {
    hide Pack, ToBits, Pow2;
    next := bit;
    assert done + ToBits(value, width)[..0] == done;
    for k := 0 to width
      invariant next == bit + k
      invariant payload[..] == Pack(done + ToBits(value, width)[..k] + Zeros(POSITION_BITS - next))
    {
      BitOf(value, width, k);
      var x: Bit := value / Pow2(width - 1 - k) % 2;
      SlotOf(next, POSITION_BITS);
      PutOne(done + ToBits(value, width)[..k], POSITION_BITS - next, x, next / 6, next % 6);
      assert done + ToBits(value, width)[..k] + [x] == done + ToBits(value, width)[..k + 1];
      payload[next / 6] := payload[next / 6] + x * Pow2(5 - next % 6);
      next := next + 1;
    }
    assert ToBits(value, width)[..width] == ToBits(value, width);
  }

  lemma LayoutNext(fields: seq<Field>, i: nat)
    requires i < |fields|
    ensures Layout(fields[..i + 1]) == Layout(fields[..i]) + ToBits(fields[i].value, fields[i].width)
    ensures |Layout(fields[..i])| == Offset(fields, i) && Offset(fields, i) + fields[i].width == Offset(fields, i + 1)
    ensures Offset(fields, i + 1) <= Offset(fields, |fields|)
  {
    hide ToBits;
    assert fields[..i + 1][..i] == fields[..i];
    LayoutLength(fields[..i]);
    OffsetPrefix(fields, i, i);
    OffsetMonotone(fields, i + 1, |fields|);
  }

  /** Every field in order. */
  method PutAll(payload: array<int>, fields: seq<Field>)
    requires payload.Length == 28 && Offset(fields, |fields|) == POSITION_BITS
    requires payload[..] == Pack(Zeros(POSITION_BITS))
    modifies payload
    ensures |Layout(fields)| == POSITION_BITS && payload[..] == Pack(Layout(fields))
  {
    hide Pack, Layout, ToBits;
    var bit := 0;
    NothingLaidOut();
    assert fields[..0] == [] && [] + Zeros(POSITION_BITS) == Zeros(POSITION_BITS);
    LayoutLength(fields);
    for i := 0 to |fields|
      invariant bit == |Layout(fields[..i])| == Offset(fields, i) <= POSITION_BITS
      invariant payload[..] == Pack(Layout(fields[..i]) + Zeros(POSITION_BITS - bit))
    {
      LayoutNext(fields, i);
      bit := Put(payload, bit, fields[i].value, fields[i].width, Layout(fields[..i]));
    }
    assert fields[..|fields|] == fields;
    assert Layout(fields) + Zeros(0) == Layout(fields);
  }

  lemma NothingLaidOut()
    ensures Layout([]) == []
  {
  }

  lemma {:induction false} PackZeros(n: nat)
    ensures Pack(Zeros(6 * n)) == seq(n, i => 0)
  {
    if n > 0 {
      PackZeros(n - 1);
      assert Zeros(6 * n)[..6 * n - 6] == Zeros(6 * (n - 1));
      assert Zeros(6 * n)[6 * n - 6..] == Zeros(6);
      assert FromBits(Zeros(6)) == 0 by {
        NothingSet(6);
      }
    }
  }

  lemma {:induction false} NothingSet(n: nat)
    ensures FromBits(Zeros(n)) == 0
  {
    if n > 0 {
      NothingSet(n - 1);
      assert Zeros(n)[..n - 1] == Zeros(n - 1);
    }
  }

  method ChecksumOf(s: string) returns (sum: bv8)
    ensures sum == Checksum(s)
  {
    hide Xor;
    sum := 0;
    for i := 0 to |s|
      invariant sum == Checksum(s[..i])
    {
      assert s[..i + 1][..i] == s[..i];
      sum := Xor(sum, s[i]);
    }
    assert s[..|s|] == s;
  }

  /** Adds the armour in place and reads the payload as text. */
  method ArmourInPlace(payload: array<int>, ghost chars: seq<nat>) returns (text: string)
    requires payload[..] == chars && forall i :: 0 <= i < |chars| ==> chars[i] < 64
    modifies payload
    ensures text == Armour(chars)
  {
    text := "";
    for i := 0 to payload.Length
      invariant payload[i..] == chars[i..] && text == Armour(chars)[..i]
    {
      var value := payload[i];
      assert value == payload[i..][0] == chars[i];
      payload[i] := value + 48;
      if value >= 40 {
        payload[i] := payload[i] + 8;
      }
      text := text + [payload[i] as char];
      assert payload[i + 1..] == chars[i + 1..];
    }
  }

  method Encode(p: Position, channel: Channel) returns (r: Option<string>)
    ensures r == EncodePosition(p, channel)
  {
    hide Pack, Armour, Parse, Fields, Checksum, Hex;
    if !PositionValid(p) {
      return None;
    }
    var payload := new int[28](i => 0);
    PackZeros(28);
    assert payload[..] == Pack(Zeros(POSITION_BITS));
    Offsets(p);
    PutAll(payload, Fields(p));
    PackedBound(PayloadBits(p));
    var text := ArmourInPlace(payload, Pack(PayloadBits(p)));
    var body := "AIVDM,1,1,," + ChannelText(channel) + "," + text + ",0";
    var sum := ChecksumOf(body);
    var sentence := "!" + body + "*" + Hex(sum) + "\r\n";
    assert sentence == Encoded(p, channel);
    if Parse(sentence).None? {
      return None;
    }
    r := Some(sentence);
  }

  /** read: most significant bit first. */
  method ReadBits(bits: seq<Bit>, start: nat, width: nat) returns (value: nat)
    requires start + width <= |bits|
    ensures value == Read(bits, start, width)
  {
    value := 0;
    assert bits[start..start] == [];
    for i := start to start + width
      invariant value == FromBits(bits[start..i])
    {
      assert bits[start..i + 1][..i - start] == bits[start..i];
      value := 2 * value + bits[i];
    }
  }

  method ReadSignedBits(bits: seq<Bit>, start: nat, width: nat) returns (value: int)
    requires 0 < width && start + width <= |bits|
    ensures value == ReadSigned(bits, start, width)
  {
    value := ReadBits(bits, start, width);
    if bits[start] == 1 {
      value := value - Pow2(width);
    }
  }

  method Decode(sentence: string) returns (r: Option<Report>)
    ensures r == DecodePosition(sentence)
  {
    hide Parse, Read, ReadSigned;
    var vdm := Parse(sentence);
    if vdm.None? || vdm.value.prefix != "AIVDM" || vdm.value.fragments != 1 || vdm.value.fragment != 1 {
      return None;
    }
    if vdm.value.channel != "A" && vdm.value.channel != "B" {
      return None;
    }
    var bits := vdm.value.payload;
    if |bits| != POSITION_BITS {
      return None;
    }
    var messageType := ReadBits(bits, 0, 6);
    var mmsi := ReadBits(bits, 8, 30);
    if messageType != 1 || mmsi < 1 || mmsi > MAX_MMSI {
      return None;
    }
    var report := Report(mmsi, if vdm.value.channel == "A" then ChannelA else ChannelB, None, None, None, None, None, None);
    var lon := ReadSignedBits(bits, 61, 28);
    var lat := ReadSignedBits(bits, 89, 27);
    if lon != 181 * COORDINATE_SCALE && (lon < -180 * COORDINATE_SCALE || lon > 180 * COORDINATE_SCALE) {
      return None;
    }
    if lat != 91 * COORDINATE_SCALE && (lat < -90 * COORDINATE_SCALE || lat > 90 * COORDINATE_SCALE) {
      return None;
    }
    if lon != 181 * COORDINATE_SCALE && lat != 91 * COORDINATE_SCALE {
      report := report.(longitude := Some(lon as real / COORDINATE_SCALE as real),
                        latitude := Some(lat as real / COORDINATE_SCALE as real));
    }
    var speed := ReadBits(bits, 50, 10);
    if speed != 1023 {
      report := report.(speed := Some(speed as real / 10.0));
    }
    var course := ReadBits(bits, 116, 12);
    if course > 3600 {
      return None;
    }
    if course < 3600 {
      report := report.(course := Some(course as real / 10.0));
    }
    var heading := ReadBits(bits, 128, 9);
    if heading != 511 {
      if heading >= 360 {
        return None;
      }
      report := report.(heading := Some(heading));
    }
    var second := ReadBits(bits, 137, 6);
    if second <= 59 {
      report := report.(second := Some(second));
    }
    r := Some(report);
  }
}
