/** The antimeridian cut of a coverage ring (simulator/coverage.go) and the display's geometry check
    (display/validate.go). */
module CoverageCut {
  import opened Basics
  import opened Model
  import opened Reals

  type Edge = (Point, Point) -> real

  // ----- Sums over the edges of a closed ring -----

  function PathSum(s: seq<Point>, h: Edge): real {
    if |s| <= 1 then 0.0
    else PathSum(s[..|s| - 1], h) + h(s[|s| - 2], s[|s| - 1])
  }

  /** The sum over all edges, including the one that closes the ring. */
  function RingSum(s: seq<Point>, h: Edge): real {
    if s == [] then 0.0 else PathSum(s, h) + h(s[|s| - 1], s[0])
  }

  function Cross(p: Point, q: Point): real {
    p.longitude * q.latitude - q.longitude * p.latitude
  }

  /** Twice the signed shoelace area, positive for a counterclockwise ring. */
  function Area(s: seq<Point>): real {
    RingSum(s, Cross)
  }

  function CrossAt(b: real, p: Point, q: Point): real {
    (p.longitude - b) * q.latitude - (q.longitude - b) * p.latitude
  }

  /** Cross measured from the vertical line at longitude b. */
  function CrossFrom(b: real): Edge {
    (p: Point, q: Point) => CrossAt(b, p, q)
  }

  function Height(b: real, p: Point): real {
    b * p.latitude
  }

  lemma CrossShift(p: Point, q: Point, b: real)
    ensures CrossAt(b, p, q) == Cross(p, q) - (Height(b, q) - Height(b, p))
  {
    assert (p.longitude - b) * q.latitude == p.longitude * q.latitude - b * q.latitude;
    assert (q.longitude - b) * p.latitude == q.longitude * p.latitude - b * p.latitude;
  }

  lemma {:induction false} PathFrom(s: seq<Point>, b: real)
    requires s != []
    ensures PathSum(s, CrossFrom(b)) == PathSum(s, Cross) - (Height(b, s[|s| - 1]) - Height(b, s[0]))
  {
    hide CrossAt, Cross, Height;
    if |s| > 1 {
      PathFrom(s[..|s| - 1], b);
      CrossShift(s[|s| - 2], s[|s| - 1], b);
    }
  }

  /** The area does not depend on the longitude it is measured from. */
  lemma AreaFrom(s: seq<Point>, b: real)
    ensures RingSum(s, CrossFrom(b)) == Area(s)
  {
    hide CrossAt, Cross, Height;
    if s != [] {
      PathFrom(s, b);
      CrossShift(s[|s| - 1], s[0], b);
    }
  }

  // ----- Clipping -----

  predicate Inside(p: Point, b: real, keepGreater: bool) {
    if keepGreater then p.longitude >= b else p.longitude <= b
  }

  /** Linear interpolation from x to z. */
  function Mix(x: real, z: real, t: real): real {
    x + t * (z - x)
  }

  /** The point of the line through p and q at longitude b. */
  function Crossing(p: Point, q: Point, b: real): Point
    requires p.longitude != q.longitude
  {
    var t := (b - p.longitude) / (q.longitude - p.longitude);
    Point(b, Mix(p.latitude, q.latitude, t))
  }

  function Previous(ring: seq<Point>, k: nat): Point
    requires k < |ring|
  {
    if k == 0 then ring[|ring| - 1] else ring[k - 1]
  }

  /** What one edge contributes to the clipped ring. */
  function EdgeOut(p: Point, q: Point, b: real, g: bool): seq<Point> {
    (if Inside(p, b, g) != Inside(q, b, g) then [Crossing(p, q, b)] else [])
    + (if Inside(q, b, g) then [q] else [])
  }

  /** The output after the first k edges. */
  function ClipUpTo(ring: seq<Point>, b: real, g: bool, k: nat): (out: seq<Point>)
    requires k <= |ring|
    ensures |out| <= 2 * k
  {
    if k == 0 then []
    else ClipUpTo(ring, b, g, k - 1) + EdgeOut(Previous(ring, k - 1), ring[k - 1], b, g)
  }

  function Clip(ring: seq<Point>, b: real, g: bool): (out: seq<Point>)
    ensures |out| <= 2 * |ring|
  {
    ClipUpTo(ring, b, g, |ring|)
  }

  /** clipLongitude: one pass over the ring with the previous vertex carried along. */
  method ClipLongitude(ring: seq<Point>, boundary: real, keepGreater: bool) returns (out: seq<Point>)
    ensures out == Clip(ring, boundary, keepGreater)
  {
    hide Crossing;
    out := [];
    if |ring| == 0 {
      return;
    }
    var previous := ring[|ring| - 1];
    for k := 0 to |ring|
      invariant previous == if k == 0 then ring[|ring| - 1] else ring[k - 1]
      invariant out == ClipUpTo(ring, boundary, keepGreater, k)
    {
      var current := ring[k];
      ghost var before := out;
      if Inside(previous, boundary, keepGreater) != Inside(current, boundary, keepGreater) {
        out := out + [Crossing(previous, current, boundary)];
      }
      if Inside(current, boundary, keepGreater) {
        out := out + [current];
      }
      assert out == before + EdgeOut(previous, current, boundary, keepGreater);
      previous := current;
    }
  }

  /** The part of h on an edge that the half-plane keeps. */
  function KeptOn(h: Edge, b: real, g: bool, p: Point, q: Point): real {
    if Inside(p, b, g) && Inside(q, b, g) then h(p, q)
    else if Inside(p, b, g) then h(p, Crossing(p, q, b))
    else if Inside(q, b, g) then h(Crossing(p, q, b), q)
    else 0.0
  }

  function Kept(h: Edge, b: real, g: bool): Edge {
    (p: Point, q: Point) => KeptOn(h, b, g, p, q)
  }

  lemma CrossingIsAt(p: Point, q: Point, b: real)
    requires p.longitude != q.longitude
    ensures Crossing(p, q, b).longitude == b
  {
  }

  /** Sum of h over the first k edges of a ring. */
  function EdgeSum(ring: seq<Point>, h: Edge, k: nat): real
    requires k <= |ring|
  {
    if k == 0 then 0.0 else EdgeSum(ring, h, k - 1) + h(Previous(ring, k - 1), ring[k - 1])
  }

  lemma {:induction false} EdgeSumIsRingSum(ring: seq<Point>, h: Edge, k: nat)
    requires 0 < k <= |ring|
    ensures EdgeSum(ring, h, k) == h(ring[|ring| - 1], ring[0]) + PathSum(ring[..k], h)
    ensures k == |ring| ==> EdgeSum(ring, h, k) == RingSum(ring, h)
  {
    if k == 1 {
      assert EdgeSum(ring, h, 0) == 0.0;
    } else {
      EdgeSumIsRingSum(ring, h, k - 1);
      assert ring[..k][..k - 1] == ring[..k - 1];
    }
    if k == |ring| {
      assert ring[..k] == ring;
    }
  }

  ghost predicate VanishesOn(h: Edge, b: real) {
    forall p: Point, q: Point :: p.longitude == b && q.longitude == b ==> h(p, q) == 0.0
  }

  lemma PathAppend(s: seq<Point>, x: Point, h: Edge)
    requires s != []
    ensures PathSum(s + [x], h) == PathSum(s, h) + h(s[|s| - 1], x)
  {
    assert (s + [x])[..|s|] == s;
  }

  /** What the clipping loop knows about its output when the ring started at start and reached last. */
  ghost predicate Clipped(start: Point, last: Point, out: seq<Point>, sum: real, h: Edge, b: real, g: bool) {
    && (out == [] ==> !Inside(start, b, g) && !Inside(last, b, g) && sum == 0.0)
    && (out != [] ==>
          && sum == PathSum(out, h) + (if Inside(start, b, g) then h(start, out[0]) else 0.0)
          && (if Inside(last, b, g) then out[|out| - 1] == last else out[|out| - 1].longitude == b)
          && (!Inside(start, b, g) ==> out[0].longitude == b))
  }

  lemma ClippedFirst(p: Point, q: Point, h: Edge, b: real, g: bool)
    ensures Clipped(p, q, EdgeOut(p, q, b, g), KeptOn(h, b, g, p, q), h, b, g)
  {
    hide Crossing;
    if Inside(p, b, g) != Inside(q, b, g) {
      CrossingIsAt(p, q, b);
      var c := Crossing(p, q, b);
      if Inside(q, b, g) {
        assert EdgeOut(p, q, b, g) == [c, q];
        PathAppend([c], q, h);
        assert [c] + [q] == [c, q];
      }
    }
  }

  lemma ClippedNext(start: Point, p: Point, q: Point, out: seq<Point>, sum: real, h: Edge, b: real, g: bool)
    requires Clipped(start, p, out, sum, h, b, g) && VanishesOn(h, b)
    ensures Clipped(start, q, out + EdgeOut(p, q, b, g), sum + KeptOn(h, b, g, p, q), h, b, g)
  {
    hide Crossing;
    if Inside(p, b, g) != Inside(q, b, g) {
      CrossingIsAt(p, q, b);
    }
    if out == [] {
      ClippedFirst(p, q, h, b, g);
      assert out + EdgeOut(p, q, b, g) == EdgeOut(p, q, b, g);
    } else if Inside(p, b, g) {
      PathAppend(out, if Inside(q, b, g) then q else Crossing(p, q, b), h);
    } else if Inside(q, b, g) {
      var c := Crossing(p, q, b);
      var more := out + [c];
      PathAppend(out, c, h);
      assert h(out[|out| - 1], c) == 0.0;
      PathAppend(more, q, h);
      assert out + EdgeOut(p, q, b, g) == more + [q];
    } else {
      assert out + EdgeOut(p, q, b, g) == out;
    }
  }

  ghost predicate ClipState(ring: seq<Point>, h: Edge, b: real, g: bool, k: nat)
    requires 0 < k <= |ring|
  {
    Clipped(ring[|ring| - 1], ring[k - 1], ClipUpTo(ring, b, g, k), EdgeSum(ring, Kept(h, b, g), k), h, b, g)
  }

  lemma {:induction false} ClipStateHolds(ring: seq<Point>, h: Edge, b: real, g: bool, k: nat)
    requires 0 < k <= |ring| && VanishesOn(h, b)
    ensures ClipState(ring, h, b, g, k)
  {
    hide Clipped, EdgeOut, KeptOn;
    var p, q := Previous(ring, k - 1), ring[k - 1];
    if k == 1 {
      ClippedFirst(p, q, h, b, g);
      assert ClipUpTo(ring, b, g, 0) == [] && EdgeSum(ring, Kept(h, b, g), 0) == 0.0;
      assert ClipUpTo(ring, b, g, 1) == EdgeOut(p, q, b, g);
    } else {
      ClipStateHolds(ring, h, b, g, k - 1);
      ClippedNext(ring[|ring| - 1], p, q, ClipUpTo(ring, b, g, k - 1), EdgeSum(ring, Kept(h, b, g), k - 1), h, b, g);
    }
  }

  /** The central fact: for an edge function that vanishes on the boundary, summing it over the clipped ring
      equals summing its kept part over the original ring. The edges the clip adds along the boundary cost nothing. */
  lemma ClipSum(ring: seq<Point>, h: Edge, b: real, g: bool)
    requires VanishesOn(h, b)
    ensures RingSum(Clip(ring, b, g), h) == RingSum(ring, Kept(h, b, g))
  {
    if ring != [] {
      ClipStateHolds(ring, h, b, g, |ring|);
      EdgeSumIsRingSum(ring, Kept(h, b, g), |ring|);
    }
  }

  // ----- Conservation of area -----

  lemma CrossingSplits(p: Point, q: Point, b: real)
    requires p.longitude != q.longitude
    ensures CrossAt(b, p, Crossing(p, q, b)) + CrossAt(b, Crossing(p, q, b), q) == CrossAt(b, p, q)
  {
    var w, d := q.longitude - p.longitude, q.latitude - p.latitude;
    var x := b - p.longitude;
    var t := x / w;
    var c := Crossing(p, q, b);
    Quotient(x, w);
    var y := c.latitude;
    assert y == p.latitude + t * d;
    assert CrossAt(b, p, c) == -(x * y) && CrossAt(b, c, q) == -((w - x) * y);
    assert x * y + (w - x) * y == w * y;
    assert w * y == w * p.latitude + w * (t * d);
    assert w * (t * d) == (t * w) * d == x * d;
    assert CrossAt(b, p, q) == -(x * q.latitude) - (w - x) * p.latitude;
    assert x * d == x * q.latitude - x * p.latitude;
    assert (w - x) * p.latitude == w * p.latitude - x * p.latitude;
  }

  lemma CrossVanishes(p: Point, q: Point, b: real)
    requires p.longitude == b && q.longitude == b
    ensures CrossAt(b, p, q) == 0.0
  {
  }

  lemma CrossFromVanishes(b: real)
    ensures VanishesOn(CrossFrom(b), b)
  {
    hide CrossAt;
    forall p: Point, q: Point | p.longitude == b && q.longitude == b
      ensures CrossFrom(b)(p, q) == 0.0
    {
      CrossVanishes(p, q, b);
    }
  }

  /** Both half-planes together keep exactly the edge. */
  lemma EdgeSplits(p: Point, q: Point, b: real)
    ensures Kept(CrossFrom(b), b, true)(p, q) + Kept(CrossFrom(b), b, false)(p, q) == CrossFrom(b)(p, q)
  {
    hide CrossAt, Crossing;
    if p.longitude != q.longitude {
      CrossingSplits(p, q, b);
      CrossingIsAt(p, q, b);
      if p.longitude == b {
        CrossVanishes(p, Crossing(p, q, b), b);
      } else if q.longitude == b {
        CrossVanishes(Crossing(p, q, b), q, b);
      }
    } else if p.longitude == b {
      CrossVanishes(p, q, b);
    }
  }

  lemma {:induction false} PathSumAdds(s: seq<Point>, f: Edge, g: Edge, h: Edge)
    requires forall p: Point, q: Point :: f(p, q) + g(p, q) == h(p, q)
    ensures PathSum(s, f) + PathSum(s, g) == PathSum(s, h)
  {
    if |s| > 1 {
      PathSumAdds(s[..|s| - 1], f, g, h);
    }
  }

  /** Cutting a ring at a meridian conserves its signed area. */
  lemma CutConservesArea(ring: seq<Point>, b: real)
    ensures Area(Clip(ring, b, true)) + Area(Clip(ring, b, false)) == Area(ring)
  {
    hide CrossAt, Kept;
    var h := CrossFrom(b);
    CrossFromVanishes(b);
    forall p: Point, q: Point
      ensures Kept(h, b, true)(p, q) + Kept(h, b, false)(p, q) == h(p, q)
    {
      EdgeSplits(p, q, b);
    }
    ClipSum(ring, h, b, true);
    ClipSum(ring, h, b, false);
    PathSumAdds(ring, Kept(h, b, true), Kept(h, b, false), h);
    AreaFrom(ring, b);
    AreaFrom(Clip(ring, b, true), b);
    AreaFrom(Clip(ring, b, false), b);
  }

  /** Points of one line cross a meridian at the same latitude. */
  lemma SameCrossing(p: Point, q: Point, a: real, b: real)
    requires p.longitude != q.longitude && a != p.longitude
    ensures Crossing(p, Crossing(p, q, a), b) == Crossing(p, q, b)
  {
    var w, d, x, y := q.longitude - p.longitude, q.latitude - p.latitude, a - p.longitude, b - p.longitude;
    var s, t := x / w, y / x;
    Quotient(x, w);
    Quotient(y, x);
    assert (t * s) * w == t * (s * w) == y;
    QuotientUnique(t * s, y, w);
    assert t * (s * d) == (t * s) * d;
    assert Crossing(p, q, a).latitude - p.latitude == s * d;
  }

  lemma CrossingSymmetric(p: Point, q: Point, b: real)
    requires p.longitude != q.longitude
    ensures Crossing(p, q, b) == Crossing(q, p, b)
  {
    var w, d, x, y := q.longitude - p.longitude, q.latitude - p.latitude, b - p.longitude, b - q.longitude;
    var t := x / w;
    Quotient(x, w);
    assert (1.0 - t) * -w == t * w - w == y;
    QuotientUnique(1.0 - t, y, -w);
    assert (1.0 - t) * -d == t * d - d;
  }

  /** Cutting away the part west of a first does not change what is kept east of b. */
  lemma EastPartSurvives(p: Point, q: Point, a: real, b: real)
    requires a < b
    ensures Kept(Kept(CrossFrom(b), b, true), a, true)(p, q) == Kept(CrossFrom(b), b, true)(p, q)
  {
    hide CrossAt, Crossing;
    if p.longitude >= a > q.longitude {
      CrossingIsAt(p, q, a);
      if p.longitude >= b {
        SameCrossing(p, q, a, b);
      }
    } else if q.longitude >= a > p.longitude {
      CrossingIsAt(p, q, a);
      if q.longitude >= b {
        CrossingSymmetric(p, q, a);
        CrossingSymmetric(p, q, b);
        SameCrossing(q, p, a, b);
        CrossingSymmetric(Crossing(p, q, a), q, b);
      }
    }
  }

  lemma {:induction false} SumsAgree(s: seq<Point>, f: Edge, g: Edge)
    requires forall p: Point, q: Point :: f(p, q) == g(p, q)
    ensures PathSum(s, f) == PathSum(s, g) && RingSum(s, f) == RingSum(s, g)
  {
    if |s| > 1 {
      SumsAgree(s[..|s| - 1], f, g);
    }
  }

  lemma EastAreaSurvives(ring: seq<Point>, a: real, b: real)
    requires a < b
    ensures Area(Clip(Clip(ring, a, true), b, true)) == Area(Clip(ring, b, true))
  {
    hide CrossAt, Crossing;
    var h := CrossFrom(b);
    var east := Kept(h, b, true);
    var cut := Clip(ring, a, true);
    CrossFromVanishes(b);
    assert VanishesOn(east, a);
    forall p: Point, q: Point
      ensures Kept(east, a, true)(p, q) == east(p, q)
    {
      EastPartSurvives(p, q, a, b);
    }
    ClipSum(cut, h, b, true);
    ClipSum(ring, east, a, true);
    SumsAgree(ring, Kept(east, a, true), east);
    ClipSum(ring, h, b, true);
    AreaFrom(Clip(cut, b, true), b);
    AreaFrom(Clip(ring, b, true), b);
  }

  lemma {:induction false} ClipOfInside(ring: seq<Point>, b: real, g: bool, k: nat)
    requires forall p <- ring :: Inside(p, b, g)
    requires k <= |ring|
    ensures ClipUpTo(ring, b, g, k) == ring[..k]
  {
    if k > 0 {
      ClipOfInside(ring, b, g, k - 1);
      assert Previous(ring, k - 1) in ring && ring[k - 1] in ring;
    }
  }

  // ----- Bounds -----

  predicate Within(p: Point, west: real, east: real) {
    west <= p.longitude <= east && -90.0 <= p.latitude <= 90.0
  }

  lemma Between(x: real, z: real, t: real)
    requires 0.0 <= t <= 1.0
    ensures x <= Mix(x, z, t) <= z || z <= Mix(x, z, t) <= x
  {
    var d := z - x;
    assert Mix(x, z, t) == x + t * d;
    hide Mix;
    if d >= 0.0 {
      ProductBounds(t, d);
    } else {
      ProductBounds(t, -d);
      assert t * -d == -(t * d);
    }
  }

  lemma FractionBounds(x: real, w: real)
    requires 0.0 <= x <= w || w <= x <= 0.0
    requires w != 0.0
    ensures 0.0 <= x / w <= 1.0
  {
    if w > 0.0 {
      QuotientBounds(x, w);
    } else {
      QuotientBounds(-x, -w);
      Quotient(x, w);
      var t := x / w;
      assert t * -w == -x;
      QuotientUnique(t, -x, -w);
    }
  }

  lemma CrossingWithin(p: Point, q: Point, b: real, west: real, east: real)
    requires Within(p, west, east) && Within(q, west, east)
    requires p.longitude <= b <= q.longitude || q.longitude <= b <= p.longitude
    requires p.longitude != q.longitude
    ensures Within(Crossing(p, q, b), west, east)
  {
    hide Mix;
    FractionBounds(b - p.longitude, q.longitude - p.longitude);
    Between(p.latitude, q.latitude, (b - p.longitude) / (q.longitude - p.longitude));
  }

  lemma EdgeWithin(p: Point, q: Point, b: real, g: bool, west: real, east: real)
    requires Within(p, west, east) && Within(q, west, east)
    ensures forall x <- EdgeOut(p, q, b, g) :: Within(x, west, east) && Inside(x, b, g)
  {
    hide Crossing;
    if Inside(p, b, g) != Inside(q, b, g) {
      CrossingIsAt(p, q, b);
      CrossingWithin(p, q, b, west, east);
    }
  }

  lemma {:induction false} ClipWithin(ring: seq<Point>, b: real, g: bool, k: nat, west: real, east: real)
    requires k <= |ring| && forall p <- ring :: Within(p, west, east)
    ensures forall p <- ClipUpTo(ring, b, g, k) :: Within(p, west, east) && Inside(p, b, g)
  {
    hide EdgeOut, Within, Inside;
    if k > 0 {
      ClipWithin(ring, b, g, k - 1, west, east);
      var p, q := Previous(ring, k - 1), ring[k - 1];
      assert p in ring && q in ring;
      EdgeWithin(p, q, b, g, west, east);
    }
  }

  // ----- The three world strips -----

  const STRIPS: seq<int> := [-1, 0, 1]

  function Offset(strip: int): real {
    strip as real * 360.0
  }

  function Strip(ring: seq<Point>, strip: int): (piece: seq<Point>)
    ensures |piece| <= 4 * |ring|
  {
    Clip(Clip(ring, Offset(strip) - 180.0, true), Offset(strip) + 180.0, false)
  }

  function Shift(p: Point, offset: real): Point {
    p.(longitude := p.longitude - offset)
  }

  function Translate(s: seq<Point>, offset: real): seq<Point> {
    seq(|s|, i requires 0 <= i < |s| => Shift(s[i], offset))
  }

  function Piece(ring: seq<Point>, strip: int): seq<Point> {
    Translate(Strip(ring, strip), Offset(strip))
  }

  function Reverse<T>(s: seq<T>): seq<T> {
    seq(|s|, i requires 0 <= i < |s| => s[|s| - 1 - i])
  }

  /** The polygon of one strip: none for a degenerate piece, otherwise closed and counterclockwise. */
  function StripPolygons(ring: seq<Point>, strip: int): seq<seq<seq<Point>>> {
    var piece := Piece(ring, strip);
    if |piece| < 3 || Area(piece) == 0.0 then []
    else
      var wound := if Area(piece) < 0.0 then Reverse(piece) else piece;
      [[wound + [wound[0]]]]
  }

  function Geometry(points: seq<Point>): seq<seq<seq<Point>>> {
    if |points| < 4 then []
    else
      var ring := points[..|points| - 1];
      StripPolygons(ring, -1) + StripPolygons(ring, 0) + StripPolygons(ring, 1)
  }

  /** coverageGeometry: clip, translate and wind each strip's piece in place. */
  method CoverageGeometry(points: seq<Point>) returns (coordinates: seq<seq<seq<Point>>>)
    ensures coordinates == Geometry(points)
  {
    coordinates := [];
    if |points| < 4 {
      return;
    }
    var ring := points[..|points| - 1];
    ghost var parts := [StripPolygons(ring, -1), StripPolygons(ring, 0), StripPolygons(ring, 1)];
    var strip := -1;
    while strip <= 1
      invariant -1 <= strip <= 2
      invariant coordinates == if strip == -1 then [] else if strip == 0 then parts[0]
                               else if strip == 1 then parts[0] + parts[1] else parts[0] + parts[1] + parts[2]
    {
      var polygons := StripGeometry(ring, strip);
      coordinates := coordinates + polygons;
      strip := strip + 1;
    }
  }

  lemma PathStep(s: seq<Point>, i: nat, h: Edge)
    requires i + 1 < |s|
    ensures PathSum(s[..i + 2], h) == PathSum(s[..i + 1], h) + h(s[i], s[i + 1])
  {
    assert s[..i + 2][..i + 1] == s[..i + 1];
  }

  method ShoelaceArea(piece: seq<Point>) returns (area: real)
    requires piece != []
    ensures area == Area(piece)
  {
    area := 0.0;
    for i := 0 to |piece|
      invariant area == if i < |piece| then PathSum(piece[..i + 1], Cross) else Area(piece)
    {
      var next := if i + 1 == |piece| then 0 else i + 1; // (i + 1) % |piece|
      area := area + Cross(piece[i], piece[next]);
      hide Cross;
      if i + 1 < |piece| {
        PathStep(piece, i, Cross);
      } else {
        assert piece[..i + 1] == piece;
      }
    }
  }

  method StripGeometry(ring: seq<Point>, strip: int) returns (polygons: seq<seq<seq<Point>>>)
    ensures polygons == StripPolygons(ring, strip)
  {
    hide Crossing, Area, ClipUpTo;
    var offset := strip as real * 360.0;
    var piece := ClipLongitude(ring, offset - 180.0, true);
    piece := ClipLongitude(piece, offset + 180.0, false);
    if |piece| < 3 {
      return [];
    }
    ghost var cut := piece;
    for i := 0 to |piece|
      invariant |piece| == |cut|
      invariant forall k :: 0 <= k < |cut| ==> piece[k] == if k < i then Shift(cut[k], offset) else cut[k]
    {
      piece := piece[i := piece[i].(longitude := piece[i].longitude - offset)];
    }
    assert piece == Piece(ring, strip);
    var area := ShoelaceArea(piece);
    if area == 0.0 {
      return [];
    }
    if area < 0.0 {
      piece := Reverse(piece);
    }
    polygons := [[piece + [piece[0]]]];
  }

  lemma ShiftedCross(p: Point, q: Point, offset: real)
    ensures Cross(Shift(p, offset), Shift(q, offset)) == CrossFrom(offset)(p, q)
  {
  }

  lemma {:induction false} TranslatePath(s: seq<Point>, offset: real)
    ensures PathSum(Translate(s, offset), Cross) == PathSum(s, CrossFrom(offset))
  {
    hide Cross, CrossAt, Shift;
    if |s| > 1 {
      ShiftedCross(s[|s| - 2], s[|s| - 1], offset);
      TranslatePath(s[..|s| - 1], offset);
      assert Translate(s, offset)[..|s| - 1] == Translate(s[..|s| - 1], offset);
    }
  }

  lemma TranslationKeepsArea(s: seq<Point>, offset: real)
    ensures Area(Translate(s, offset)) == Area(s)
  {
    hide Cross, CrossFrom, Shift;
    TranslatePath(s, offset);
    AreaFrom(s, offset);
    if s != [] {
      ShiftedCross(s[|s| - 1], s[0], offset);
    }
  }

  /** The pre-winding areas of the three pieces add up to the area of the ring. */
  lemma StripsConserveArea(ring: seq<Point>)
    requires forall p <- ring :: Within(p, -540.0, 540.0)
    ensures Area(Piece(ring, -1)) + Area(Piece(ring, 0)) + Area(Piece(ring, 1)) == Area(ring)
  {
    hide Area, ClipUpTo, Translate;
    forall strip <- STRIPS
      ensures Area(Piece(ring, strip)) == Area(Strip(ring, strip))
    {
      TranslationKeepsArea(Strip(ring, strip), Offset(strip));
    }
    assert -1 in STRIPS && 0 in STRIPS && 1 in STRIPS;
    ClipOfInside(ring, -540.0, true, |ring|);
    assert Offset(-1) == -360.0 && Clip(ring, -540.0, true) == ring;
    assert Strip(ring, -1) == Clip(ring, -180.0, false);
    var east := Clip(ring, 180.0, true);
    ClipWithin(ring, 180.0, true, |ring|, -540.0, 540.0);
    ClipOfInside(east, 540.0, false, |east|);
    assert Strip(ring, 1) == east;
    CutConservesArea(ring, -180.0);
    CutConservesArea(Clip(ring, -180.0, true), 180.0);
    EastAreaSurvives(ring, -180.0, 180.0);
  }

  lemma PathPrepend(x: Point, s: seq<Point>, h: Edge)
    requires s != []
    ensures PathSum([x] + s, h) == h(x, s[0]) + PathSum(s, h)
  {
    if |s| == 1 {
      assert ([x] + s)[..1] == [x] && PathSum([x], h) == 0.0;
    } else {
      PathPrepend(x, s[..|s| - 1], h);
      assert ([x] + s)[..|s|] == [x] + s[..|s| - 1];
    }
  }

  lemma {:induction false} ReversePath(s: seq<Point>)
    ensures PathSum(Reverse(s), Cross) == -PathSum(s, Cross)
  {
    if |s| > 1 {
      var front, last := s[..|s| - 1], s[|s| - 1];
      ReversePath(front);
      assert Reverse(s) == [last] + Reverse(front);
      PathPrepend(last, Reverse(front), Cross);
    }
  }

  lemma ReverseNegatesArea(s: seq<Point>)
    ensures Area(Reverse(s)) == -Area(s)
  {
    ReversePath(s);
  }

  /** A closed exterior ring as GeoJSON wants it (section 3.1.6 of RFC 7946), inside [-180, 180]. */
  ghost predicate GoodPolygon(polygon: seq<seq<Point>>) {
    && |polygon| == 1
    && |polygon[0]| >= 4 && polygon[0][0] == polygon[0][|polygon[0]| - 1]
    && Area(polygon[0][..|polygon[0]| - 1]) > 0.0
    && forall p <- polygon[0] :: Within(p, -180.0, 180.0)
  }

  lemma StripPolygonIsGood(ring: seq<Point>, strip: int)
    requires forall p <- ring :: Within(p, -540.0, 540.0)
    ensures forall polygon <- StripPolygons(ring, strip) :: GoodPolygon(polygon) && |polygon[0]| <= 4 * |ring| + 1
    ensures |StripPolygons(ring, strip)| <= 1
  {
    var piece, cut := Piece(ring, strip), Clip(ring, Offset(strip) - 180.0, true);
    ClipWithin(ring, Offset(strip) - 180.0, true, |ring|, -540.0, 540.0);
    ClipWithin(cut, Offset(strip) + 180.0, false, |cut|, -540.0, 540.0);
    forall p | p in cut
      ensures Inside(p, Offset(strip) - 180.0, true)
    {
    }
    StripStaysEast(cut, Offset(strip) - 180.0, Offset(strip) + 180.0);
    forall p | p in piece
      ensures Within(p, -180.0, 180.0)
    {
      var i :| 0 <= i < |piece| && piece[i] == p;
      assert Strip(ring, strip)[i] in Strip(ring, strip);
    }
    ReverseNegatesArea(piece);
    forall p | p in Reverse(piece)
      ensures Within(p, -180.0, 180.0)
    {
    }
    forall polygon | polygon in StripPolygons(ring, strip)
      ensures GoodPolygon(polygon)
    {
      var wound := if Area(piece) < 0.0 then Reverse(piece) else piece;
      assert polygon == [wound + [wound[0]]];
      assert polygon[0][..|polygon[0]| - 1] == wound;
    }
  }

  lemma StripStaysEast(cut: seq<Point>, west: real, b: real)
    requires west <= b && forall p <- cut :: west <= p.longitude
    ensures forall p <- Clip(cut, b, false) :: west <= p.longitude
  {
    StaysEast(cut, west, b, |cut|);
  }

  lemma {:induction false} StaysEast(cut: seq<Point>, west: real, b: real, k: nat)
    requires west <= b && k <= |cut| && forall p <- cut :: west <= p.longitude
    ensures forall p <- ClipUpTo(cut, b, false, k) :: west <= p.longitude
  {
    if k > 0 {
      StaysEast(cut, west, b, k - 1);
    }
  }

  // ----- The display's check -----

  const MAX_POLYGONS := 8
  const MAX_VERTICES := 2048

  predicate RingAccepted(ring: seq<Point>) {
    |ring| >= 4 && ring[0] == ring[|ring| - 1] && forall p <- ring :: Within(p, -180.0, 180.0)
  }

  function RingVertices(rings: seq<seq<Point>>): nat {
    if rings == [] then 0 else RingVertices(rings[..|rings| - 1]) + |rings[|rings| - 1]|
  }

  function Vertices(polygons: seq<seq<seq<Point>>>): nat {
    if polygons == [] then 0 else Vertices(polygons[..|polygons| - 1]) + RingVertices(polygons[|polygons| - 1])
  }

  predicate GeometryAccepted(g: seq<seq<seq<Point>>>) {
    && |g| <= MAX_POLYGONS && Vertices(g) <= MAX_VERTICES
    && forall polygon <- g :: PolygonAccepted(polygon)
  }

  lemma {:induction false} VerticesMonotone(g: seq<seq<seq<Point>>>, k: nat)
    requires k <= |g|
    ensures Vertices(g[..k]) <= Vertices(g)
    decreases |g| - k
  {
    if k < |g| {
      VerticesMonotone(g, k + 1);
      assert g[..k + 1][..k] == g[..k];
    } else {
      assert g[..k] == g;
    }
  }

  lemma {:induction false} RingVerticesMonotone(rings: seq<seq<Point>>, k: nat)
    requires k <= |rings|
    ensures RingVertices(rings[..k]) <= RingVertices(rings)
    decreases |rings| - k
  {
    if k < |rings| {
      RingVerticesMonotone(rings, k + 1);
      assert rings[..k + 1][..k] == rings[..k];
    } else {
      assert rings[..k] == rings;
    }
  }

  method ValidateRing(ring: seq<Point>) returns (ok: bool)
    ensures ok <==> RingAccepted(ring)
  {
    if |ring| < 4 || ring[0] != ring[|ring| - 1] {
      return false;
    }
    for n := 0 to |ring|
      invariant forall k :: 0 <= k < n ==> Within(ring[k], -180.0, 180.0)
    {
      if !Within(ring[n], -180.0, 180.0) {
        assert ring[n] in ring;
        return false;
      }
    }
    ok := true;
  }

  predicate PolygonAccepted(polygon: seq<seq<Point>>) {
    polygon != [] && forall ring <- polygon :: RingAccepted(ring)
  }

  /** The rings of one polygon, counting their vertices on top of those already seen. */
  method ValidatePolygon(polygon: seq<seq<Point>>, seen: nat) returns (ok: bool, vertices: nat)
    ensures ok <==> PolygonAccepted(polygon) && seen + RingVertices(polygon) <= MAX_VERTICES
    ensures ok ==> vertices == seen + RingVertices(polygon)
  {
    vertices := seen;
    if |polygon| == 0 {
      return false, vertices;
    }
    for j := 0 to |polygon|
      invariant vertices == seen + RingVertices(polygon[..j])
      invariant j > 0 ==> vertices <= MAX_VERTICES
      invariant forall k :: 0 <= k < j ==> RingAccepted(polygon[k])
    {
      var ring := polygon[j];
      assert ring in polygon && polygon[..j + 1][..j] == polygon[..j];
      RingVerticesMonotone(polygon, j + 1);
      vertices := vertices + |ring|;
      if vertices > MAX_VERTICES {
        return false, vertices;
      }
      var good := ValidateRing(ring);
      if !good {
        return false, vertices;
      }
    }
    assert polygon[..|polygon|] == polygon;
    ok := true;
  }

  /** validateGeometry accepts exactly the bounded MultiPolygons of closed WGS84 rings. */
  method ValidateGeometry(g: seq<seq<seq<Point>>>) returns (ok: bool)
    ensures ok <==> GeometryAccepted(g)
  {
    hide RingVertices;
    if |g| > MAX_POLYGONS {
      return false;
    }
    var vertices := 0;
    for i := 0 to |g|
      invariant vertices == Vertices(g[..i]) <= MAX_VERTICES
      invariant forall k :: 0 <= k < i ==> PolygonAccepted(g[k])
    {
      assert g[i] in g && g[..i + 1][..i] == g[..i];
      VerticesMonotone(g, i + 1);
      var good, total := ValidatePolygon(g[i], vertices);
      if !good {
        return false;
      }
      vertices := total;
    }
    assert g[..|g|] == g;
    ok := true;
  }

  // Four times 104 sampled bearings and the closing point.
  const PIECE_VERTICES := 417

  lemma {:induction false} VerticesBound(g: seq<seq<seq<Point>>>)
    requires forall polygon <- g :: |polygon| == 1 && |polygon[0]| <= PIECE_VERTICES
    ensures Vertices(g) <= PIECE_VERTICES * |g|
  {
    if g != [] {
      var n := |g| - 1;
      VerticesBound(g[..n]);
      var last := g[n];
      assert last in g;
      assert last[..0] == [] && RingVertices(last[..0]) == 0;
      assert RingVertices(last) == |last[0]|;
    }
  }

  /** Every cut coverage ring is good GeoJSON, conserves area strip by strip, and passes the display's check. */
  lemma GeometryIsAccepted(points: seq<Point>)
    requires |points| <= 105 && forall p <- points :: Within(p, -540.0, 540.0)
    ensures GeometryAccepted(Geometry(points))
    ensures forall polygon <- Geometry(points) :: GoodPolygon(polygon)
    ensures |Geometry(points)| <= 3
  {
    hide StripPolygons, Area, Vertices;
    if |points| >= 4 {
      var ring := points[..|points| - 1];
      StripPolygonIsGood(ring, -1);
      StripPolygonIsGood(ring, 0);
      StripPolygonIsGood(ring, 1);
      VerticesBound(Geometry(points));
      forall polygon | polygon in Geometry(points)
        ensures PolygonAccepted(polygon)
      {
        assert GoodPolygon(polygon) && polygon == [polygon[0]];
      }
    } else {
      VerticesBound([]);
    }
  }
}
