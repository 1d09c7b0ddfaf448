/** Real-number facts the statistics rely on, one product or quotient at a time. */
module Arithmetic {

  /** A product kept as one term. */
  function Times(a: real, b: real): real {
    a * b
  }

  lemma NonnegativeProduct(a: real, b: real)
    requires a >= 0.0 && b >= 0.0
    ensures a * b >= 0.0
  {
  }

  lemma NonnegativeQuotient(a: real, n: real)
    requires a >= 0.0 && n > 0.0
    ensures a / n >= 0.0
  {
  }

  lemma PositiveQuotient(a: real, n: real)
    requires a > 0.0 && n > 0.0
    ensures a / n > 0.0
  {
  }

  /** A product with a positive factor has the sign of the other factor. */
  lemma SignOf(d: real, y: real)
    requires d > 0.0
    ensures d * y <= 0.0 <==> y <= 0.0
    ensures d * y < 0.0 <==> y < 0.0
  {
  }

  lemma QuotientTimes(d: real, n: real)
    requires n != 0.0
    ensures (d / n) * n == d
  {
  }

  /** A factor whose product does not exceed the positive other factor is at most one. */
  lemma AtMostOne(q: real, n: real)
    requires n > 0.0 && q * n <= n
    ensures q <= 1.0
  {
    assert (q - 1.0) * n == q * n - n;
    if q > 1.0 {
      PositiveProduct(q - 1.0, n);
    }
  }

  /** A fraction of a length is no longer than the length. */
  lemma Fraction(w: real, d: real)
    requires 0.0 <= w <= 1.0 && d >= 0.0
    ensures 0.0 <= w * d <= d
  {
    NonnegativeProduct(w, d);
    NonnegativeProduct(1.0 - w, d);
    assert (1.0 - w) * d == d - w * d;
  }

  lemma Square(a: real)
    ensures a * a >= 0.0
    ensures a != 0.0 ==> a * a > 0.0
  {
    if a > 0.0 {
      SignOf(a, a);
    } else if a < 0.0 {
      var b := -a;
      SignOf(b, b);
      assert b * b == a * a;
    }
  }

  lemma SmallerSquare(r: real, s: real)
    requires 0.0 <= r < s
    ensures r * r < s * s
  {
    var a, b := s - r, s + r;
    PositiveProduct(a, b);
    assert a * b == s * s - r * r;
  }

  lemma PositiveProduct(a: real, b: real)
    requires a > 0.0 && b > 0.0
    ensures a * b > 0.0
  {
  }
}
