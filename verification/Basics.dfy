/** Small shared vocabulary: options, the newest part of a log, filtering, and string order. */
module Basics {

  datatype Option<+T> = None | Some(value: T)

  function Max(a: int, b: int): int {
    if a < b then b else a
  }

  function Min(a: int, b: int): int {
    if a < b then a else b
  }

  lemma Wrap(x: nat, n: nat)
    requires x < 2 * n
    ensures x % n == if x < n then x else x - n
  {
    if x >= n {
      assert x == n * 1 + (x - n);
      WrapOnce(x - n, n);
    }
  }

  lemma WrapOnce(y: nat, n: nat)
    requires y < n
    ensures (n + y) % n == y
  {
    var q := (n + y) / n;
    assert n + y == q * n + (n + y) % n;
    assert q >= 2 ==> q * n >= 2 * n;
    assert q <= 0 ==> q * n <= 0;
  }

  /** The newest n elements of a log, oldest first. */
  function Newest<T>(n: nat, log: seq<T>): (r: seq<T>)
    ensures |r| == Min(n, |log|)
  {
    if |log| <= n then log else log[|log| - n..]
  }

  lemma NewestAppend<T>(n: nat, log: seq<T>, x: T)
    ensures Newest(n, log + [x]) == if |log| < n then log + [x] else if n == 0 then [] else Newest(n, log)[1..] + [x]
  {
  }

  /** Trimming between two appends changes nothing. */
  lemma NewestTwice<T>(n: nat, a: seq<T>, b: seq<T>)
    ensures Newest(n, Newest(n, a) + b) == Newest(n, a + b)
  {
  }

  /** math.Round: nearest integer, halves away from zero. */
  function Round(x: real): int {
    if x >= 0.0 then (x + 0.5).Floor else -((-x + 0.5).Floor)
  }

  lemma RoundError(x: real)
    ensures -0.5 <= Round(x) as real - x <= 0.5
  {
  }

  /** Lexicographic order of byte strings. */
  predicate StringLess(a: string, b: string)
    decreases |a|
  {
    if b == [] then false
    else if a == [] then true
    else if a[0] != b[0] then a[0] < b[0]
    else StringLess(a[1..], b[1..])
  }

  lemma {:induction false} StringLessTotal(a: string, b: string)
    ensures a == b || StringLess(a, b) || StringLess(b, a)
    decreases |a|
  {
    if a != [] && b != [] && a[0] == b[0] {
      StringLessTotal(a[1..], b[1..]);
      assert a == [a[0]] + a[1..] && b == [b[0]] + b[1..];
    }
  }

  lemma {:induction false} StringLessTransitive(a: string, b: string, c: string)
    requires StringLess(a, b) && StringLess(b, c)
    ensures StringLess(a, c)
    decreases |a|
  {
    if a != [] && a[0] == b[0] == c[0] {
      StringLessTransitive(a[1..], b[1..], c[1..]);
    }
  }

  lemma {:induction false} StringLessIrreflexive(a: string)
    ensures !StringLess(a, a)
    decreases |a|
  {
    if a != [] {
      StringLessIrreflexive(a[1..]);
    }
  }
}
