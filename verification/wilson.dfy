/** The Wilson score interval of the decision-routing report, in exact reals. */
module Wilson {
  import opened Arithmetic
  import opened Wrappers

  const Z := 1.959963984540054

  datatype Interval = Interval(low: real, high: real)

  predicate IsRoot(r: real, x: real) {
    r >= 0.0 && r * r == x
  }

  function Max(a: real, b: real): real { if a >= b then a else b }
  function Min(a: real, b: real): real { if a <= b then a else b }

  function Proportion(successes: int, total: int): real
    requires total > 0
  {
    successes as real / total as real
  }

  /** What the square root is taken of. */
  function Variance(successes: int, total: int): real
    requires total > 0
  {
    var p, n := Proportion(successes, total), total as real;
    p * (1.0 - p) / n + Z * Z / (4.0 * n * n)
  }

  /** The interval before clamping; `root` is the square root of `Variance`. */
  function Ends(successes: int, total: int, root: real): Interval
    requires total > 0
  {
    var p, n := Proportion(successes, total), total as real;
    var denominator := 1.0 + Z * Z / n;
    var center := (p + Z * Z / (2.0 * n)) / denominator;
    var margin := Z / denominator * root;
    Interval(center - margin, center + margin)
  }

  /** `_wilson_interval` without its final rounding; a failure is the `ValueError`. */
  function WilsonInterval(successes: int, total: int, root: real): Result<Option<Interval>, string>
  {
    if total <= 0 then Success(None)
    else if successes < 0 || successes > total then Failure("successes must be between 0 and total")
    else
      var e := Ends(successes, total, root);
      Success(Some(Interval(Max(0.0, e.low), Min(1.0, e.high))))
  }

  // ---- The quadratic behind the interval ------------------------------------------------------

  /** How far proportion `x` is from the observed one, squared, beyond what the normal
      approximation allows: at most zero exactly when the score test does not reject `x`. */
  function Excess(p: real, n: real, x: real): real
    requires n > 0.0
  {
    (x - p) * (x - p) - Z * Z * (x * (1.0 - x)) / n
  }

  /** The quadratic, with the curvature of the normal approximation as one number. */
  function Quadratic(p: real, a: real, x: real): real {
    (x - p) * (x - p) - a * (x * (1.0 - x))
  }

  lemma Polynomial(p: real, a: real, x: real, v: real, w: real)
    requires v == p + a / 2.0 && w == a * (p * (1.0 - p)) + a * a / 4.0
    ensures ((1.0 + a) * x - v) * ((1.0 + a) * x - v) - w
         == (1.0 + a) * ((x - p) * (x - p) - a * (x * (1.0 - x)))
  {
  }

  lemma Scaled(d: real, x: real, c: real, m: real)
    ensures d * (d * Times(x - (c - m), x - (c + m))) == (d * x - d * c) * (d * x - d * c) - (d * m) * (d * m)
  {
  }

  lemma Cancel(d: real, s: real, t: real)
    requires d > 0.0 && d * s == d * t
    ensures s == t
  {
    assert d * (s - t) == 0.0;
  }

  /** A quadratic with center `c` and margin `m` factors, once denominators are cleared. */
  lemma FactorAlgebra(p: real, a: real, x: real, c: real, m: real)
    requires 1.0 + a > 0.0 && (1.0 + a) * c == p + a / 2.0
    requires ((1.0 + a) * m) * ((1.0 + a) * m) == a * (p * (1.0 - p)) + a * a / 4.0
    ensures Quadratic(p, a, x) == (1.0 + a) * Times(x - (c - m), x - (c + m))
  {
    var d, v, w := 1.0 + a, (1.0 + a) * c, (1.0 + a) * m;
    Polynomial(p, a, x, v, w * w);
    Scaled(d, x, c, m);
    Cancel(d, (x - p) * (x - p) - a * (x * (1.0 - x)), d * Times(x - (c - m), x - (c + m)));
  }

  lemma Denominators(p: real, n: real, a: real, root: real)
    requires n > 0.0 && a == Z * Z / n
    requires root * root == p * (1.0 - p) / n + Z * Z / (4.0 * n * n)
    ensures a > 0.0 && Z * Z / (2.0 * n) == a / 2.0
    ensures (Z * root) * (Z * root) == a * (p * (1.0 - p)) + a * a / 4.0
  {
    var q := p * (1.0 - p);
    assert (Z * root) * (Z * root) == Z * Z * (root * root);
    assert Z * Z * (q / n) == a * q;
    assert Z * Z * (Z * Z / (4.0 * n * n)) == a * a / 4.0;
  }

  /** Center and margin, with denominators cleared. */
  lemma EndsParts(successes: int, total: int, root: real) returns (c: real, m: real)
    requires total > 0 && IsRoot(root, Variance(successes, total))
    ensures var p, a, e := Proportion(successes, total), Z * Z / total as real, Ends(successes, total, root);
      && e == Interval(c - m, c + m)
      && 1.0 + a > 0.0 && (1.0 + a) * c == p + a / 2.0
      && ((1.0 + a) * m) * ((1.0 + a) * m) == a * (p * (1.0 - p)) + a * a / 4.0
  {
    var p, n := Proportion(successes, total), total as real;
    hide Proportion;
    var a := Z * Z / n;
    Denominators(p, n, a, root);
    c := (p + a / 2.0) / (1.0 + a);
    m := Z / (1.0 + a) * root;
    Undivide(p + a / 2.0, 1.0 + a);
    Undivide(Z, 1.0 + a);
    assert (1.0 + a) * m == Z * root;
  }

  lemma Undivide(y: real, d: real)
    requires d > 0.0
    ensures d * (y / d) == y
  {
  }

  /** The ends are the two roots of the quadratic. */
  lemma ExcessFactors(successes: int, total: int, root: real, x: real)
    requires total > 0 && IsRoot(root, Variance(successes, total))
    ensures var e, n := Ends(successes, total, root), total as real;
      Excess(Proportion(successes, total), n, x) == (1.0 + Z * Z / n) * Times(x - e.low, x - e.high)
  {
    hide *;
    var p, n := Proportion(successes, total), total as real;
    var c, m := EndsParts(successes, total, root);
    FactorAlgebra(p, Z * Z / n, x, c, m);
    ExcessIsQuadratic(p, n, x);
  }

  lemma ExcessIsQuadratic(p: real, n: real, x: real)
    requires n > 0.0
    ensures Excess(p, n, x) == Quadratic(p, Z * Z / n, x)
  {
    assert Z * Z * (x * (1.0 - x)) / n == Z * Z / n * (x * (1.0 - x));
  }

  lemma ProportionRange(successes: int, total: int)
    requires 0 <= successes <= total && total > 0
    ensures 0.0 <= Proportion(successes, total) <= 1.0
  {
    Fractions(successes as real, total as real - successes as real, total as real);
    NonnegativeQuotient(successes as real, total as real);
    NonnegativeQuotient(total as real - successes as real, total as real);
  }

  lemma Fractions(a: real, b: real, n: real)
    requires n > 0.0
    ensures a / n + b / n == (a + b) / n && n / n == 1.0
  {
  }

  /** The center lies strictly inside the unit interval and the margin is not negative. */
  lemma CenterInside(successes: int, total: int, root: real)
    requires 0 <= successes <= total && total > 0 && root >= 0.0
    ensures var e := Ends(successes, total, root);
      e.low <= e.high && e.high > 0.0 && e.low < 1.0
  {
    ProportionRange(successes, total);
    var p, n := Proportion(successes, total), total as real;
    var a := Z * Z / n;
    assert a > 0.0;
    assert Z * Z / (2.0 * n) == a / 2.0;
    var d := 1.0 + a;
    var center, margin := (p + a / 2.0) / d, Z / d * root;
    PositiveQuotient(Z, d);
    PositiveQuotient(p + a / 2.0, d);
    PositiveQuotient(1.0 - p + a / 2.0, d);
    assert 1.0 - center == (1.0 - p + a / 2.0) / d;
    NonnegativeProduct(Z / d, root);
    assert Ends(successes, total, root) == Interval(center - margin, center + margin);
  }

  lemma OppositeSigns(a: real, b: real)
    requires b <= a
    ensures Times(a, b) <= 0.0 <==> b <= 0.0 <= a
    ensures Times(a, b) < 0.0 <==> b < 0.0 < a
  {
    SignOfProduct(a, b);
    if a == 0.0 || b == 0.0 {
      assert a * b == 0.0;
    }
  }

  lemma SignOfProduct(a: real, b: real)
    ensures a * b < 0.0 <==> (a < 0.0 && b > 0.0) || (a > 0.0 && b < 0.0)
  {
    if a > 0.0 {
      SignOf(a, b);
    } else if a < 0.0 {
      NegativeFactor(a, b);
    } else {
      ZeroFactor(a, b);
    }
  }

  lemma NegativeFactor(a: real, b: real)
    requires a < 0.0
    ensures a * b < 0.0 <==> b > 0.0
  {
    var c, d := -a, -b;
    SignOf(c, d);
    assert c * d == a * b;
  }

  lemma ZeroFactor(a: real, b: real)
    requires a == 0.0
    ensures a * b == 0.0
  {
  }

  /** The interval is the score test turned around: it holds exactly the proportions the
      observation does not reject. */
  lemma InvertsScoreTest(successes: int, total: int, root: real, x: real)
    requires 0 <= successes <= total && total > 0 && IsRoot(root, Variance(successes, total))
    ensures var e, p, n := Ends(successes, total, root), Proportion(successes, total), total as real;
      && (e.low <= x <= e.high <==> (x - p) * (x - p) <= Z * Z * (x * (1.0 - x)) / n)
      && (e.low < x < e.high <==> (x - p) * (x - p) < Z * Z * (x * (1.0 - x)) / n)
  {
    hide *;
    var e, p, n := Ends(successes, total, root), Proportion(successes, total), total as real;
    ExcessFactors(successes, total, root, x);
    RootSign(root, Variance(successes, total));
    CenterInside(successes, total, root);
    OppositeSigns(x - e.low, x - e.high);
    Denominator(n);
    SignOf(1.0 + Z * Z / n, Times(x - e.low, x - e.high));
    ExcessSign(p, n, x);
  }

  /** The interval's critical value, and when there is no interval: none without samples, and
      an error for successes out of range. */
  lemma ResultExactly(successes: int, total: int, root: real)
    ensures Z == 1.959963984540054
    ensures var r := WilsonInterval(successes, total, root);
      && (r == Success(None) <==> total <= 0)
      && (r.Failure? <==> total > 0 && (successes < 0 || successes > total))
  {
    hide Ends;
  }

  lemma RootSign(r: real, x: real)
    requires IsRoot(r, x)
    ensures r >= 0.0
  {
  }

  lemma Denominator(n: real)
    requires n > 0.0
    ensures 1.0 + Z * Z / n > 0.0
  {
  }

  lemma ExcessSign(p: real, n: real, x: real)
    requires n > 0.0
    ensures Excess(p, n, x) == (x - p) * (x - p) - Z * Z * (x * (1.0 - x)) / n
  {
  }

  lemma EndsBracket(successes: int, total: int, root: real)
    requires 0 <= successes <= total && total > 0 && IsRoot(root, Variance(successes, total))
    ensures var e := Ends(successes, total, root);
      0.0 <= e.low <= Proportion(successes, total) <= e.high <= 1.0
  {
    hide *;
    var p, n := Proportion(successes, total), total as real;
    RootSign(root, Variance(successes, total));
    CenterInside(successes, total, root);
    ProportionRange(successes, total);
    InvertsScoreTest(successes, total, root, p);
    InvertsScoreTest(successes, total, root, 0.0);
    InvertsScoreTest(successes, total, root, 1.0);
    NonnegativeProduct(p, 1.0 - p);
    NotNegative(p * (1.0 - p), n);
    Square(0.0 - p);
    Square(1.0 - p);
    assert (p - p) * (p - p) == 0.0;
    assert 0.0 * (1.0 - 0.0) == 0.0 == 1.0 * (1.0 - 1.0);
  }

  /** Clamping never changes the interval, and it holds the observed proportion. */
  lemma EndsInUnit(successes: int, total: int, root: real)
    requires 0 <= successes <= total && total > 0 && IsRoot(root, Variance(successes, total))
    ensures var e := Ends(successes, total, root);
      && 0.0 <= e.low <= Proportion(successes, total) <= e.high <= 1.0
      && WilsonInterval(successes, total, root) == Success(Some(e))
  {
    EndsBracket(successes, total, root);
    hide Ends, Proportion, Variance, IsRoot;
  }

  lemma NotNegative(y: real, n: real)
    requires y >= 0.0 && n > 0.0
    ensures Z * Z * y / n >= 0.0
    ensures Z * Z * 0.0 / n == 0.0
  {
  }

  /** Swapping successes and failures reflects the interval about one half. */
  lemma Reflection(successes: int, total: int, root: real)
    requires total > 0
    ensures Variance(total - successes, total) == Variance(successes, total)
    ensures var e := Ends(successes, total, root);
      Ends(total - successes, total, root) == Interval(1.0 - e.high, 1.0 - e.low)
  {
    var p, q, n := Proportion(successes, total), Proportion(total - successes, total), total as real;
    Fractions(successes as real, n - successes as real, n);
    assert q == 1.0 - p;
    hide Proportion;
    var a := Z * Z / n;
    assert Z * Z / (2.0 * n) == a / 2.0;
    assert a > 0.0;
    Fractions(p + a / 2.0, q + a / 2.0, 1.0 + a);
  }

  lemma ProportionStrict(fewer: int, more: int, total: int)
    requires fewer < more && total > 0
    ensures Proportion(fewer, total) < Proportion(more, total)
  {
    var n := total as real;
    assert more as real / n - fewer as real / n == (more - fewer) as real / n;
    PositiveQuotient((more - fewer) as real, n);
  }

  lemma LowMonotone(fewer: int, more: int, total: int, r: real, s: real)
    requires 0 <= fewer < more <= total
    requires IsRoot(r, Variance(fewer, total)) && IsRoot(s, Variance(more, total))
    ensures Ends(fewer, total, r).low <= Ends(more, total, s).low
  {
    var p, q, n := Proportion(fewer, total), Proportion(more, total), total as real;
    var x := Ends(more, total, s).low;
    ProportionStrict(fewer, more, total);
    EndsInUnit(fewer, total, r);
    EndsInUnit(more, total, s);
    InvertsScoreTest(fewer, total, r, x);
    InvertsScoreTest(more, total, s, x);
    hide Ends, Proportion, Variance, WilsonInterval;
    if x < p {
      CloserSquare(p, q, x);
    }
  }

  /** Moving the observation toward `x` from above shrinks the squared distance. */
  lemma CloserSquare(p: real, q: real, x: real)
    requires x < p < q
    ensures (x - p) * (x - p) < (x - q) * (x - q)
  {
    NonnegativeProduct(q - p, p - x);
    Square(q - p);
    assert (x - q) * (x - q) - (x - p) * (x - p) == (q - p) * (q - p) + 2.0 * ((q - p) * (p - x));
  }

  /** More successes never lower either end. */
  lemma EndsMonotone(fewer: int, more: int, total: int, r: real, s: real)
    requires 0 <= fewer <= more <= total && total > 0
    requires IsRoot(r, Variance(fewer, total)) && IsRoot(s, Variance(more, total))
    ensures Ends(fewer, total, r).low <= Ends(more, total, s).low
    ensures Ends(fewer, total, r).high <= Ends(more, total, s).high
  {
    if fewer == more {
      SameRoot(r, s);
    } else {
      LowMonotone(fewer, more, total, r, s);
      Reflection(fewer, total, r);
      Reflection(more, total, s);
      LowMonotone(total - more, total - fewer, total, s, r);
      hide Ends, Variance;
    }
  }

  lemma SameRoot(r: real, s: real)
    requires r >= 0.0 && s >= 0.0 && r * r == s * s
    ensures r == s
  {
    if r < s {
      SmallerSquare(r, s);
    } else if s < r {
      SmallerSquare(s, r);
    }
  }
}
