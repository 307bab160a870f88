/** Bit fields most significant bit first, packed into six-bit characters (internal/ais/position.go, decode.go). */
module AisBits {
  import opened Basics

  type Bit = x: nat | x <= 1

  function Pow2(n: nat): (r: int)
    ensures r > 0
  {
    if n == 0 then 1 else 2 * Pow2(n - 1)
  }

  /** The low width bits of a two's complement value. */
  function ToBits(value: int, width: nat): (b: seq<Bit>)
    ensures |b| == width
    decreases width
  {
    if width == 0 then [] else ToBits(value / 2, width - 1) + [value % 2]
  }

  function FromBits(b: seq<Bit>): nat {
    if b == [] then 0 else 2 * FromBits(b[..|b| - 1]) + b[|b| - 1]
  }

  function Signed(b: seq<Bit>): int {
    if b != [] && b[0] == 1 then FromBits(b) - Pow2(|b|) else FromBits(b)
  }

  /** Reading a field back gives the value, or the value plus 2 to the width if it is negative. */
  lemma {:induction false} FieldRoundTrip(value: int, width: nat)
    requires 0 - Pow2(width) <= value < Pow2(width)
    ensures FromBits(ToBits(value, width)) == if value < 0 then value + Pow2(width) else value
    decreases width
  {
    if width > 0 {
      FieldRoundTrip(value / 2, width - 1);
      assert ToBits(value, width)[..width - 1] == ToBits(value / 2, width - 1);
    }
  }

  /** The first bit is the sign. */
  lemma {:induction false} SignBit(value: int, width: nat)
    requires width > 0 && 0 - Pow2(width - 1) <= value < Pow2(width - 1)
    ensures ToBits(value, width)[0] == if value < 0 then 1 else 0
    decreases width
  {
    if width > 1 {
      SignBit(value / 2, width - 1);
    }
  }

  /** A signed field recovers every value its width can hold. */
  lemma SignedRoundTrip(value: int, width: nat)
    requires width > 0 && 0 - Pow2(width - 1) <= value < Pow2(width - 1)
    ensures Signed(ToBits(value, width)) == value
  {
    SignBit(value, width);
    FieldRoundTrip(value, width);
  }

  // ----- Six-bit characters -----

  /** The characters of a multiple of six bits. */
  function Pack(b: seq<Bit>): (chars: seq<nat>)
    requires |b| % 6 == 0
    ensures |chars| == |b| / 6
    decreases |b|
  {
    if b == [] then [] else Pack(b[..|b| - 6]) + [FromBits(b[|b| - 6..])]
  }

  function Unpack(chars: seq<int>): (b: seq<Bit>)
    ensures |b| == 6 * |chars|
  {
    if chars == [] then [] else Unpack(chars[..|chars| - 1]) + ToBits(chars[|chars| - 1], 6)
  }

  lemma {:induction false} FromBitsBound(b: seq<Bit>)
    ensures FromBits(b) < Pow2(|b|)
  {
    if b != [] {
      FromBitsBound(b[..|b| - 1]);
    }
  }

  lemma {:induction false} BitsRoundTrip(b: seq<Bit>)
    ensures ToBits(FromBits(b), |b|) == b
  {
    if b != [] {
      var n := |b| - 1;
      BitsRoundTrip(b[..n]);
      assert FromBits(b) / 2 == FromBits(b[..n]) && FromBits(b) % 2 == b[n];
      assert b == b[..n] + [b[n]];
    }
  }

  lemma SixBound(b: seq<Bit>)
    requires |b| == 6
    ensures FromBits(b) < 64
  {
    FromBitsBound(b);
    assert Pow2(3) == 8;
    assert Pow2(6) == 64;
  }

  lemma UnpackAppend(chars: seq<int>, c: int)
    ensures Unpack(chars + [c]) == Unpack(chars) + ToBits(c, 6)
  {
    hide ToBits;
    assert (chars + [c])[..|chars|] == chars;
  }

  /** Packing loses nothing. */
  lemma {:induction false} UnpackPack(b: seq<Bit>)
    requires |b| % 6 == 0
    ensures Unpack(Pack(b)) == b
    decreases |b|
  {
    hide FromBits, ToBits, Unpack;
    if b == [] {
      NothingPacked();
    } else {
      var front, last := b[..|b| - 6], b[|b| - 6..];
      UnpackPack(front);
      BitsRoundTrip(last);
      UnpackAppend(Pack(front), FromBits(last));
      assert b == front + last;
    }
  }

  lemma NothingPacked()
    ensures Unpack([]) == []
  {
  }

  /** Character i holds bits 6i through 6i + 5. */
  lemma {:induction false} PackAt(b: seq<Bit>, i: nat)
    requires |b| % 6 == 0 && i < |b| / 6
    ensures Pack(b)[i] == FromBits(b[6 * i..6 * i + 6]) < 64
    decreases |b|
  {
    hide FromBits;
    var front := b[..|b| - 6];
    if i < |front| / 6 {
      PackAt(front, i);
      assert front[6 * i..6 * i + 6] == b[6 * i..6 * i + 6];
    } else {
      assert b[6 * i..6 * i + 6] == b[|b| - 6..];
      SixBound(b[|b| - 6..]);
    }
  }

  /** Setting a clear bit adds its weight: oring it in. */
  lemma {:induction false} SetBit(b: seq<Bit>, k: nat, x: Bit)
    requires k < |b| && b[k] == 0
    ensures FromBits(b[k := x]) == FromBits(b) + x * Pow2(|b| - 1 - k)
    decreases |b|
  {
    var n := |b| - 1;
    if k == n {
      assert b[k := x][..n] == b[..n];
    } else {
      SetBit(b[..n], k, x);
      assert b[k := x][..n] == b[..n][k := x];
      assert Pow2(n - k) == 2 * Pow2(n - 1 - k);
      Twice(x, Pow2(n - 1 - k));
    }
  }

  lemma Twice(x: int, y: int)
    ensures x * (2 * y) == 2 * (x * y)
  {
  }

  lemma OtherCharacter(b: seq<Bit>, j: nat, x: Bit, m: nat)
    requires j < |b| && 6 * m + 6 <= |b|
    ensures b[j := x][6 * m..6 * m + 6]
         == if 6 * m <= j < 6 * m + 6 then b[6 * m..6 * m + 6][j - 6 * m := x] else b[6 * m..6 * m + 6]
  {
  }

  lemma PackBitAt(b: seq<Bit>, i: nat, k: nat, x: Bit, m: nat)
    requires |b| % 6 == 0 && k < 6 && 6 * i + k < |b| && b[6 * i + k] == 0 && m < |b| / 6
    ensures Pack(b[6 * i + k := x])[m] == if m == i then Pack(b)[m] + x * Pow2(5 - k) else Pack(b)[m]
  {
    hide Pack, FromBits, Pow2;
    PackAt(b, m);
    PackAt(b[6 * i + k := x], m);
    OtherCharacter(b, 6 * i + k, x, m);
    if m == i {
      SetBit(b[6 * m..6 * m + 6], k, x);
    }
  }

  /** Writing one bit into a packed payload whose later bits are clear. */
  lemma PackBit(b: seq<Bit>, i: nat, k: nat, x: Bit)
    requires |b| % 6 == 0 && k < 6 && i < |b| / 6 && 6 * i + k < |b| && b[6 * i + k] == 0
    ensures Pack(b[6 * i + k := x]) == Pack(b)[i := Pack(b)[i] + x * Pow2(5 - k)]
  {
    var next := b[6 * i + k := x];
    hide Pack, FromBits, Pow2;
    forall m | 0 <= m < |b| / 6
      ensures Pack(next)[m] == if m == i then Pack(b)[m] + x * Pow2(5 - k) else Pack(b)[m]
    {
      PackBitAt(b, i, k, x, m);
    }
  }

  function Zeros(n: nat): (b: seq<Bit>)
    ensures |b| == n && forall i :: 0 <= i < n ==> b[i] == 0
  {
    seq(n, i => 0)
  }
}
