/** Canonical unsigned decimals: strconv.FormatUint and the display's parseDecimal. */
module Decimal {
  import opened Basics

  const MAX_UINT64: nat := 0xFFFF_FFFF_FFFF_FFFF

  function Digit(d: nat): char
    requires d < 10
  {
    ['0', '1', '2', '3', '4', '5', '6', '7', '8', '9'][d]
  }

  predicate IsDigit(c: char) {
    '0' <= c <= '9'
  }

  function DigitValue(c: char): (d: nat)
    requires IsDigit(c)
    ensures d < 10
  {
    (c as int) - ('0' as int)
  }

  /** FormatUint(n, 10). */
  function Format(n: nat): string {
    if n < 10 then [Digit(n)] else Format(n / 10) + [Digit(n % 10)]
  }

  /** The value of a digit string, most significant digit first. */
  function Value(s: string): nat
    requires forall c <- s :: IsDigit(c)
  {
    if s == [] then 0 else Value(s[..|s| - 1]) * 10 + DigitValue(s[|s| - 1])
  }

  /** ParseUint(s, 10, 64): a nonempty digit string without overflow. */
  function ParseUint(s: string): Option<nat> {
    if s == [] || exists c <- s :: !IsDigit(c) then None
    else if Value(s) > MAX_UINT64 then None
    else Some(Value(s))
  }

  /** parseDecimal additionally requires that formatting the value gives s back. */
  function Parse(s: string): Option<nat> {
    var n := ParseUint(s);
    if n.Some? && Format(n.value) == s then n else None
  }

  /** Canonical form, stated without formatting: digits, no leading zero, within range. */
  predicate Canonical(s: string) {
    && s != []
    && (forall c <- s :: IsDigit(c))
    && (s[0] == '0' ==> |s| == 1)
    && Value(s) <= MAX_UINT64
  }

  lemma {:induction false} FormatIsCanonical(n: nat)
    ensures var s := Format(n);
            && s != []
            && (forall c <- s :: IsDigit(c))
            && (s[0] == '0' <==> n == 0)
            && (n < 10 ==> |s| == 1)
            && Value(s) == n
  {
    var s := Format(n);
    if n < 10 {
      assert s[..0] == [];
    } else {
      FormatIsCanonical(n / 10);
      assert s[..|s| - 1] == Format(n / 10);
    }
  }

  lemma {:induction false} CanonicalIsFormat(s: string)
    requires s != [] && (forall c <- s :: IsDigit(c)) && (s[0] == '0' ==> |s| == 1)
    ensures Format(Value(s)) == s
    ensures Value(s) == 0 ==> s == "0"
  {
    var front := s[..|s| - 1];
    var d := DigitValue(s[|s| - 1]);
    assert Digit(d) == s[|s| - 1];
    assert s == front + [s[|s| - 1]];
    if front != [] {
      CanonicalIsFormat(front);
      assert Value(front) != 0;
      assert Value(s) / 10 == Value(front) && Value(s) % 10 == d;
    }
  }

  /** Parsing inverts formatting on every uint64, and accepts exactly the canonical strings. */
  lemma ParseInvertsFormat(n: nat)
    ensures Parse(Format(n)) == if n <= MAX_UINT64 then Some(n) else None
  {
    FormatIsCanonical(n);
  }

  lemma ParseAcceptsCanonical(s: string)
    ensures Parse(s).Some? <==> Canonical(s)
    ensures Parse(s).Some? ==> Format(Parse(s).value) == s
  {
    if Canonical(s) {
      CanonicalIsFormat(s);
    }
    if Parse(s).Some? {
      FormatIsCanonical(Value(s));
    }
  }

  lemma FormatInjective(m: nat, n: nat)
    requires Format(m) == Format(n)
    ensures m == n
  {
    FormatIsCanonical(m);
    FormatIsCanonical(n);
  }
}
