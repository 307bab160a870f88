/** slices.SortFunc as insertion sort. Every use sorts distinct keys, so the result is the only
    sorted permutation and does not depend on the sorting algorithm. */
module Sorting {

  ghost predicate TotalOrder<T(!new)>(le: (T, T) -> bool) {
    && (forall a, b :: le(a, b) || le(b, a))
    && (forall a, b, c :: le(a, b) && le(b, c) ==> le(a, c))
  }

  ghost predicate SortedBy<T>(s: seq<T>, le: (T, T) -> bool) {
    forall i, j :: 0 <= i < j < |s| ==> le(s[i], s[j])
  }

  /** Elements with equivalent keys are equal. */
  ghost predicate DistinctKeys<T>(s: seq<T>, le: (T, T) -> bool) {
    forall x, y :: x in s && y in s && le(x, y) && le(y, x) ==> x == y
  }

  function Insert<T>(x: T, s: seq<T>, le: (T, T) -> bool): seq<T> {
    if s == [] || le(x, s[0]) then [x] + s else [s[0]] + Insert(x, s[1..], le)
  }

  function Sort<T>(s: seq<T>, le: (T, T) -> bool): (r: seq<T>) {
    if s == [] then [] else Insert(s[0], Sort(s[1..], le), le)
  }

  lemma LeastFirst<T(!new)>(x: T, s: seq<T>, le: (T, T) -> bool)
    requires TotalOrder(le) && SortedBy(s, le) && (s == [] || le(x, s[0]))
    ensures SortedBy([x] + s, le)
  {
    forall k | 0 <= k < |s|
      ensures le(x, s[k])
    {
      assert k > 0 ==> le(s[0], s[k]);
    }
  }

  lemma HeadKept<T(!new)>(h: T, s: seq<T>, le: (T, T) -> bool)
    requires SortedBy(s, le) && forall y <- s :: le(h, y)
    ensures SortedBy([h] + s, le)
  {
    forall k | 0 <= k < |s|
      ensures le(h, s[k])
    {
      assert s[k] in s;
    }
  }

  lemma {:induction false} InsertMembers<T(!new)>(x: T, s: seq<T>, le: (T, T) -> bool)
    ensures multiset(Insert(x, s, le)) == multiset{x} + multiset(s)
    ensures forall y :: y in Insert(x, s, le) <==> y == x || y in s
  {
    if s != [] && !le(x, s[0]) {
      InsertMembers(x, s[1..], le);
      assert s == [s[0]] + s[1..];
    }
  }

  lemma {:induction false} InsertSorted<T(!new)>(x: T, s: seq<T>, le: (T, T) -> bool)
    requires TotalOrder(le) && SortedBy(s, le)
    ensures SortedBy(Insert(x, s, le), le)
    ensures multiset(Insert(x, s, le)) == multiset{x} + multiset(s)
  {
    InsertMembers(x, s, le);
    if s != [] && !le(x, s[0]) {
      SortedTail(s, le);
      InsertSorted(x, s[1..], le);
      InsertMembers(x, s[1..], le);
      forall y | y in Insert(x, s[1..], le)
        ensures le(s[0], y)
      {
        if y != x {
          HeadBelow(s, y, le);
        }
      }
      HeadKept(s[0], Insert(x, s[1..], le), le);
    } else {
      LeastFirst(x, s, le);
    }
  }

  lemma HeadBelow<T(!new)>(s: seq<T>, y: T, le: (T, T) -> bool)
    requires SortedBy(s, le) && s != [] && y in s[1..]
    ensures le(s[0], y)
  {
    var k :| 1 <= k < |s| && s[k] == y;
  }

  lemma {:induction false} SortCorrect<T(!new)>(s: seq<T>, le: (T, T) -> bool)
    requires TotalOrder(le)
    ensures SortedBy(Sort(s, le), le)
    ensures multiset(Sort(s, le)) == multiset(s)
    ensures |Sort(s, le)| == |s|
    ensures forall x :: x in Sort(s, le) <==> x in s
  {
    if s != [] {
      SortCorrect(s[1..], le);
      InsertSorted(s[0], Sort(s[1..], le), le);
      assert s == [s[0]] + s[1..];
    }
    assert |multiset(Sort(s, le))| == |Sort(s, le)|;
    forall x
      ensures x in Sort(s, le) <==> x in s
    {
      assert x in Sort(s, le) <==> x in multiset(Sort(s, le));
    }
  }

  /** Sorted permutations have the same head. */
  lemma HeadsAgree<T(!new)>(a: seq<T>, b: seq<T>, le: (T, T) -> bool)
    requires SortedBy(a, le) && SortedBy(b, le) && multiset(a) == multiset(b) && a != [] && b != []
    requires TotalOrder(le) && DistinctKeys(a, le)
    ensures a[0] == b[0]
  {
    assert a[0] in multiset(b) && b[0] in multiset(a);
    HeadIsLeast(a, b[0], le);
    HeadIsLeast(b, a[0], le);
  }

  /** What is left without equal heads are sorted permutations of each other again. */
  lemma TailsAgree<T(!new)>(a: seq<T>, b: seq<T>)
    requires multiset(a) == multiset(b) && a != [] && b != [] && a[0] == b[0]
    ensures multiset(a[1..]) == multiset(b[1..])
  {
    assert a == [a[0]] + a[1..] && b == [b[0]] + b[1..];
    assert multiset(a[1..]) == multiset(a) - multiset{a[0]};
    assert multiset(b[1..]) == multiset(b) - multiset{b[0]};
  }

  lemma SortedTail<T(!new)>(a: seq<T>, le: (T, T) -> bool)
    requires SortedBy(a, le) && a != []
    ensures SortedBy(a[1..], le)
  {
  }

  lemma DistinctTail<T(!new)>(a: seq<T>, le: (T, T) -> bool)
    requires DistinctKeys(a, le) && a != []
    ensures DistinctKeys(a[1..], le)
  {
  }

  lemma SamePermutationSize<T(!new)>(a: seq<T>, b: seq<T>)
    requires multiset(a) == multiset(b)
    ensures |a| == |b|
  {
    assert |multiset(a)| == |a| && |multiset(b)| == |b|;
  }

  /** A sorted permutation is unique when equivalent elements are equal. */
  lemma {:induction false} SortedUnique<T(!new)>(a: seq<T>, b: seq<T>, le: (T, T) -> bool)
    requires SortedBy(a, le) && SortedBy(b, le) && multiset(a) == multiset(b)
    requires TotalOrder(le) && DistinctKeys(a, le)
    ensures a == b
  {
    hide SortedBy, DistinctKeys, TotalOrder;
    SamePermutationSize(a, b);
    if a != [] {
      HeadsAgree(a, b, le);
      TailsAgree(a, b);
      SortedTail(a, le);
      SortedTail(b, le);
      DistinctTail(a, le);
      SortedUnique(a[1..], b[1..], le);
      assert a == [a[0]] + a[1..] && b == [b[0]] + b[1..];
    }
  }

  lemma HeadIsLeast<T(!new)>(a: seq<T>, x: T, le: (T, T) -> bool)
    requires SortedBy(a, le) && TotalOrder(le) && x in a
    ensures le(a[0], x)
  {
    var i :| 0 <= i < |a| && a[i] == x;
  }

  /** Sorting forgets the input order. */
  lemma SortOfPermutation<T(!new)>(a: seq<T>, b: seq<T>, le: (T, T) -> bool)
    requires TotalOrder(le) && DistinctKeys(a, le) && multiset(a) == multiset(b)
    ensures Sort(a, le) == Sort(b, le)
  {
    hide Sort, SortedBy, TotalOrder, DistinctKeys;
    SortCorrect(a, le);
    SortCorrect(b, le);
    DistinctMembers(a, Sort(a, le), le);
    SortedUnique(Sort(a, le), Sort(b, le), le);
  }

  lemma DistinctMembers<T(!new)>(a: seq<T>, b: seq<T>, le: (T, T) -> bool)
    requires DistinctKeys(a, le) && forall x :: x in b <==> x in a
    ensures DistinctKeys(b, le)
  {
  }

  lemma SortOfSorted<T(!new)>(a: seq<T>, le: (T, T) -> bool)
    requires TotalOrder(le) && DistinctKeys(a, le) && SortedBy(a, le)
    ensures Sort(a, le) == a
  {
    hide Sort, SortedBy, TotalOrder, DistinctKeys;
    SortCorrect(a, le);
    DistinctMembers(a, Sort(a, le), le);
    SortedUnique(Sort(a, le), a, le);
  }

  /** Two positions of b correspond to two positions of any permutation of b. */
  lemma TwoPlaces<T>(a: seq<T>, b: seq<T>, i: nat, j: nat)
    requires multiset(a) == multiset(b) && i < j < |b|
    ensures exists p, q :: 0 <= p < q < |a| && {a[p], a[q]} == {b[i], b[j]}
  {
    var p := Place(a, b[i]);
    var rest := a[..p] + a[p + 1..];
    WithoutOne(a, p);
    OtherIsLeft(b, i, j);
    var k := Place(rest, b[j]);
    var q := if k < p then k else k + 1;
    assert a[q] == b[j];
    if q < p {
      assert {a[q], a[p]} == {b[i], b[j]};
    } else {
      assert {a[p], a[q]} == {b[i], b[j]};
    }
  }

  lemma Place<T>(a: seq<T>, x: T) returns (p: nat)
    requires x in multiset(a) || x in a
    ensures p < |a| && a[p] == x
  {
    assert x in a;
    p :| 0 <= p < |a| && a[p] == x;
  }

  lemma OtherIsLeft<T>(b: seq<T>, i: nat, j: nat)
    requires i < j < |b|
    ensures b[i] in multiset(b) && b[j] in multiset(b) - multiset{b[i]}
  {
    WithoutOne(b, i);
    assert (b[..i] + b[i + 1..])[j - 1] == b[j];
    assert b[j] in b[..i] + b[i + 1..];
  }

  lemma WithoutOne<T>(s: seq<T>, p: nat)
    requires p < |s|
    ensures multiset(s[..p] + s[p + 1..]) == multiset(s) - multiset{s[p]}
  {
    assert s == s[..p] + [s[p]] + s[p + 1..];
  }

  /** Sorting keeps keys distinct. */
  lemma SortKeepsDistinct<T(!new), K(!new)>(s: seq<T>, le: (T, T) -> bool, key: T -> K)
    requires TotalOrder(le) && forall i, j :: 0 <= i < j < |s| ==> key(s[i]) != key(s[j])
    ensures forall i, j :: 0 <= i < j < |Sort(s, le)| ==> key(Sort(s, le)[i]) != key(Sort(s, le)[j])
  {
    SortCorrect(s, le);
    var t := Sort(s, le);
    forall i, j | 0 <= i < j < |t|
      ensures key(t[i]) != key(t[j])
    {
      TwoPlaces(s, t, i, j);
      var p, q :| 0 <= p < q < |s| && {s[p], s[q]} == {t[i], t[j]};
      KeyPairs(s[p], s[q], t[i], t[j], key);
    }
  }

  lemma KeyPairs<T, K>(a: T, b: T, c: T, d: T, key: T -> K)
    requires {a, b} == {c, d} && key(a) != key(b)
    ensures key(c) != key(d)
  {
    assert a in {c, d} && b in {c, d};
    assert c in {a, b} && d in {a, b};
  }
}
