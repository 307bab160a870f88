/** Elementary facts of real arithmetic, one product at a time. */
module Reals {

  lemma ProductNotNegative(a: real, b: real)
    requires 0.0 <= a && 0.0 <= b
    ensures 0.0 <= a * b
  {
  }

  lemma ProductBounds(a: real, b: real)
    requires 0.0 <= a <= 1.0 && 0.0 <= b
    ensures 0.0 <= a * b <= b
  {
    ProductNotNegative(a, b);
    ProductNotNegative(1.0 - a, b);
    assert (1.0 - a) * b == b - a * b;
  }

  lemma ProductMonotone(a: real, b: real, c: real, d: real)
    requires 0.0 <= a <= b && 0.0 <= c <= d
    ensures 0.0 <= a * c <= b * d
  {
    ProductNotNegative(a, c);
    ProductNotNegative(b - a, c);
    ProductNotNegative(b, d - c);
    assert (b - a) * c == b * c - a * c;
    assert b * (d - c) == b * d - b * c;
  }

  lemma QuotientBounds(a: real, b: real)
    requires 0.0 <= a <= b && 0.0 < b
    ensures 0.0 <= a / b <= 1.0
  {
  }

  lemma Quotient(a: real, w: real)
    requires w != 0.0
    ensures a / w * w == a
  {
  }

  lemma QuotientUnique(t: real, a: real, w: real)
    requires w != 0.0 && t * w == a
    ensures t == a / w
  {
    assert t == t * w / w;
  }
}
