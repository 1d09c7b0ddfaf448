/** The cheap-first operation-fit cascade: cosine similarities, then a fast reject, a fast
    accept, or the reranker. Exact reals over any square root. */
module Cascade {
  import opened Arithmetic
  import opened Wrappers

  // ---- Cosine -------------------------------------------------------------------------------

  /** What the scorer uses of `math.sqrt`. */
  ghost predicate SquareRoot(sqrt: real -> real) {
    forall x | x >= 0.0 :: sqrt(x) >= 0.0 && sqrt(x) * sqrt(x) == x
  }

  function Dot(a: seq<real>, b: seq<real>): real
    requires |a| == |b|
  {
    if a == [] then 0.0 else Dot(a[..|a| - 1], b[..|b| - 1]) + a[|a| - 1] * b[|b| - 1]
  }

  function Clamp(x: real): real {
    var y := if x < 1.0 then x else 1.0;
    if y > -1.0 then y else -1.0
  }

  function Ratio(dot: real, leftNorm: real, rightNorm: real): real
    requires leftNorm != 0.0 && rightNorm != 0.0
  {
    dot / (leftNorm * rightNorm)
  }

  datatype CosineFault = ZeroNorm | LengthMismatch

  /** `_cosine`: both norms are checked before the strict pairing. */
  function Cosine(sqrt: real -> real, left: seq<real>, right: seq<real>): Result<real, CosineFault> {
    var leftNorm, rightNorm := sqrt(Dot(left, left)), sqrt(Dot(right, right));
    if leftNorm == 0.0 || rightNorm == 0.0 then Failure(ZeroNorm)
    else if |left| != |right| then Failure(LengthMismatch)
    else Success(Clamp(Ratio(Dot(left, right), leftNorm, rightNorm)))
  }

  lemma {:induction false} NormNonnegative(a: seq<real>)
    ensures Dot(a, a) >= 0.0
  {
    if a != [] {
      NormNonnegative(a[..|a| - 1]);
      Square(a[|a| - 1]);
    }
  }

  lemma SquareOrder(x: real, y: real)
    requires y >= 0.0 && x * x <= y * y
    ensures x <= y
  {
    if x > y {
      SmallerSquare(y, x);
    }
  }

  /** One more coordinate: from C^2 <= A B to (C + ab)^2 <= (A + a^2)(B + b^2). */
  lemma CauchyStep(c: real, p: real, q: real, a: real, b: real)
    requires p >= 0.0 && q >= 0.0 && c * c <= p * q
    ensures (c + a * b) * (c + a * b) <= (p + a * a) * (q + b * b)
  {
    var x, y := p * (b * b), q * (a * a);
    Square(a);
    Square(b);
    NonnegativeProduct(p, b * b);
    NonnegativeProduct(q, a * a);
    var ab := a * b;
    Square(ab);
    Square(x - y);
    // (2 c ab)^2 <= 4 p q (ab)^2 = 4 x y <= (x + y)^2
    Crossing(c, p, q, ab);
    assert x * y == (p * q) * (ab * ab);
    assert (x + y) * (x + y) == (x - y) * (x - y) + 4.0 * (x * y);
    assert (2.0 * (c * ab)) * (2.0 * (c * ab)) == 4.0 * ((c * c) * (ab * ab));
    SquareOrder(2.0 * (c * ab), x + y);
    assert (c + ab) * (c + ab) == c * c + 2.0 * (c * ab) + ab * ab;
    assert (p + a * a) * (q + b * b) == p * q + x + y + ab * ab;
  }

  lemma Crossing(c: real, p: real, q: real, ab: real)
    requires c * c <= p * q && ab * ab >= 0.0
    ensures (c * c) * (ab * ab) <= (p * q) * (ab * ab)
  {
    NonnegativeProduct(p * q - c * c, ab * ab);
    assert (p * q - c * c) * (ab * ab) == (p * q) * (ab * ab) - (c * c) * (ab * ab);
  }

  /** Cauchy-Schwarz, for vectors of any length. */
  lemma {:induction false} CauchySchwarz(a: seq<real>, b: seq<real>)
    requires |a| == |b|
    ensures Dot(a, b) * Dot(a, b) <= Dot(a, a) * Dot(b, b)
  {
    if a != [] {
      var n := |a| - 1;
      CauchySchwarz(a[..n], b[..n]);
      NormNonnegative(a[..n]);
      NormNonnegative(b[..n]);
      CauchyStep(Dot(a[..n], b[..n]), Dot(a[..n], a[..n]), Dot(b[..n], b[..n]), a[n], b[n]);
    }
  }

  /** The exact cosine is already between -1 and 1: the clamp changes nothing. */
  lemma ClampIsIdle(sqrt: real -> real, left: seq<real>, right: seq<real>)
    requires SquareRoot(sqrt) && |left| == |right|
    requires sqrt(Dot(left, left)) != 0.0 && sqrt(Dot(right, right)) != 0.0
    ensures var ratio := Ratio(Dot(left, right), sqrt(Dot(left, left)), sqrt(Dot(right, right)));
      -1.0 <= ratio <= 1.0 && Cosine(sqrt, left, right) == Success(ratio)
  {
    hide Dot, SquareRoot, Ratio;
    NormRoot(sqrt, left);
    NormRoot(sqrt, right);
    CauchySchwarz(left, right);
    RatioBounded(sqrt(Dot(left, left)), sqrt(Dot(right, right)), Dot(left, right));
  }

  lemma NormRoot(sqrt: real -> real, a: seq<real>)
    requires SquareRoot(sqrt)
    ensures sqrt(Dot(a, a)) >= 0.0 && sqrt(Dot(a, a)) * sqrt(Dot(a, a)) == Dot(a, a)
  {
    NormNonnegative(a);
  }

  lemma RatioBounded(l: real, r: real, d: real)
    requires l > 0.0 && r > 0.0 && d * d <= (l * l) * (r * r)
    ensures -1.0 <= Ratio(d, l, r) <= 1.0
  {
    var n := l * r;
    assert (l * l) * (r * r) == n * n;
    assert n > 0.0;
    assert (-d) * (-d) == d * d;
    SquareOrder(d, n);
    SquareOrder(-d, n);
    DivideBounds(d, n);
  }

  lemma OppositeQuotient(d: real, n: real)
    requires n > 0.0
    ensures (-d) / n == -(d / n)
  {
  }

  lemma DivideBounds(d: real, n: real)
    requires n > 0.0 && -n <= d <= n
    ensures -1.0 <= d / n <= 1.0
  {
    var q := d / n;
    QuotientTimes(d, n);
    QuotientTimes(-d, n);
    OppositeQuotient(d, n);
    AtMostOne(q, n);
    AtMostOne((-d) / n, n);
  }

  // ---- The cascade --------------------------------------------------------------------------

  datatype Settings = Settings(rejectBelow: real, acceptAbove: real, acceptMargin: real)

  /** The settings the environment may configure; anything else raises. */
  predicate ValidSettings(s: Settings) {
    && -1.0 <= s.rejectBelow <= 1.0
    && -1.0 <= s.acceptAbove <= 1.0
    && 0.0 <= s.acceptMargin <= 2.0
    && s.rejectBelow < s.acceptAbove
  }

  datatype Path = FastReject | FastAccept | Reranker

  datatype Scored = Scored(path: Option<Path>, scores: seq<real>)

  datatype Fault = MixedQueries | InvalidSettings | SimilarityCount

  /** The sort key `(-similarity, index)`. */
  predicate Before(sims: seq<real>, i: nat, j: nat)
    requires i < |sims| && j < |sims|
  {
    sims[i] > sims[j] || (sims[i] == sims[j] && i <= j)
  }

  predicate Indices(sims: seq<real>, order: seq<nat>) {
    forall k | 0 <= k < |order| :: order[k] < |sims|
  }

  function Rank(sims: seq<real>, order: seq<nat>, i: nat): (r: seq<nat>)
    requires i < |sims| && Indices(sims, order)
    ensures Indices(sims, r) && |r| == |order| + 1
  {
    if order == [] then [i]
    else if Before(sims, i, order[0]) then [i] + order
    else [order[0]] + Rank(sims, order[1..], i)
  }

  /** The indices below `n`, best similarity first, earlier index first among equals. */
  function Ranked(sims: seq<real>, n: nat): (r: seq<nat>)
    requires n <= |sims|
    ensures Indices(sims, r) && |r| == n
  {
    if n == 0 then [] else Rank(sims, Ranked(sims, n - 1), n - 1)
  }

  predicate FirstMaximum(sims: seq<real>, t: int) {
    0 <= t < |sims| && forall j | 0 <= j < |sims| :: sims[j] <= sims[t] && (j < t ==> sims[j] < sims[t])
  }

  /** The first two entries of a ranking of the indices below `n`. */
  predicate BestTwo(sims: seq<real>, r: seq<nat>, n: nat)
    requires n <= |sims| && |r| == n && Indices(sims, r)
  {
    && (n > 0 ==> r[0] < n && forall j | 0 <= j < n :: Before(sims, r[0], j))
    && (n > 1 ==> r[1] < n && r[1] != r[0] && forall j | 0 <= j < n && j != r[0] :: Before(sims, r[1], j))
  }

  lemma {:induction false} RankedFacts(sims: seq<real>, n: nat)
    requires n <= |sims|
    ensures BestTwo(sims, Ranked(sims, n), n)
  {
    if n > 0 {
      var i, order := n - 1, Ranked(sims, n - 1);
      RankedFacts(sims, i);
      var r := Rank(sims, order, i);
      if order == [] {
        assert r == [i];
      } else if Before(sims, i, order[0]) {
        assert r == [i] + order;
        forall j | 0 <= j < n
          ensures Before(sims, i, j) && (j != i ==> Before(sims, order[0], j))
        {
          assert j < i ==> Before(sims, order[0], j);
        }
      } else {
        assert r == [order[0]] + Rank(sims, order[1..], i);
        assert Before(sims, order[0], i);
        Runner(sims, order, r, i);
      }
    }
  }

  lemma Runner(sims: seq<real>, order: seq<nat>, r: seq<nat>, i: nat)
    requires i < |sims| && |order| == i > 0 && Indices(sims, order) && BestTwo(sims, order, i)
    requires !Before(sims, i, order[0]) && r == Rank(sims, order, i)
    ensures r[1] < i + 1 && r[1] != r[0] && forall j | 0 <= j < i + 1 && j != r[0] :: Before(sims, r[1], j)
  {
    var tail := Rank(sims, order[1..], i);
    assert r == [order[0]] + tail;
    if i == 1 {
      assert tail == [i];
    } else {
      assert order[1..][0] == order[1];
      var better := Before(sims, i, order[1]);
      assert tail[0] == if better then i else order[1];
      forall j | 0 <= j < i + 1 && j != order[0]
        ensures Before(sims, tail[0], j)
      {
        assert j < i ==> Before(sims, order[1], j);
      }
    }
  }

  /** The head of the ranking is the first maximum, and the second entry is the best of
      the others. */
  lemma TopTwo(sims: seq<real>)
    requires sims != []
    ensures var r := Ranked(sims, |sims|);
      && FirstMaximum(sims, r[0])
      && (|sims| > 1 ==> r[1] != r[0] && forall j | 0 <= j < |sims| && j != r[0] :: sims[j] <= sims[r[1]])
  {
    RankedFacts(sims, |sims|);
    var r := Ranked(sims, |sims|);
    hide Ranked;
    forall j | 0 <= j < |sims|
      ensures sims[j] <= sims[r[0]] && (j < r[0] ==> sims[j] < sims[r[0]])
    {
      assert Before(sims, r[0], j);
    }
    if |sims| > 1 {
      forall j | 0 <= j < |sims| && j != r[0]
        ensures sims[j] <= sims[r[1]]
      {
        assert Before(sims, r[1], j);
      }
    }
  }

  // ---- The three paths as conditions on the similarities -----------------------------------------

  /** Every option is clearly too far from the query. */
  predicate Rejects(sims: seq<real>, s: Settings) {
    forall j | 0 <= j < |sims| :: sims[j] < s.rejectBelow
  }

  /** Option `t` is clearly close and clear of every sibling; with no sibling it is
      compared with -1. */
  predicate Accepts(sims: seq<real>, s: Settings, t: int) {
    && FirstMaximum(sims, t) && sims[t] >= s.acceptAbove
    && (forall j | 0 <= j < |sims| && j != t :: sims[t] - sims[j] >= s.acceptMargin)
    && (|sims| == 1 ==> sims[t] - -1.0 >= s.acceptMargin)
  }

  predicate InUnitInterval(scores: seq<real>) {
    forall i | 0 <= i < |scores| :: 0.0 <= scores[i] <= 1.0
  }

  function OneHot(n: nat, t: int): seq<real> {
    seq(n, j => if j == t then 1.0 else 0.0)
  }

  function AllZero(n: nat): seq<real> {
    seq(n, _ => 0.0)
  }

  /** `score_pairs`. The similarities and the reranker's scores are whatever the models
      return. */
  method ScorePairs(queries: seq<string>, s: Settings, sims: seq<real>, reranked: seq<real>)
    returns (r: Result<Scored, Fault>)
    ensures queries == [] ==> r == Success(Scored(None, []))
    ensures r == Failure(MixedQueries) <==> exists i | 0 <= i < |queries| :: queries[i] != queries[0]
    ensures queries != [] && r.Failure? && r.error != MixedQueries ==>
      r.error == if ValidSettings(s) then SimilarityCount else InvalidSettings
    ensures queries != [] ==> (r.Success? <==>
      && (forall i | 0 <= i < |queries| :: queries[i] == queries[0])
      && ValidSettings(s) && |sims| == |queries|)
    ensures queries != [] && r.Success? && Rejects(sims, s) ==> r.value == Scored(Some(FastReject), AllZero(|queries|))
    ensures queries != [] && r.Success? && !Rejects(sims, s) ==>
      forall t :: Accepts(sims, s, t) ==> r.value == Scored(Some(FastAccept), OneHot(|queries|, t))
    ensures queries != [] && r.Success? && !Rejects(sims, s) && (forall t :: !Accepts(sims, s, t)) ==>
      r.value == Scored(Some(Reranker), reranked)
    ensures r.Success? && InUnitInterval(reranked) ==> InUnitInterval(r.value.scores)
  {
    if queries == [] {
      return Success(Scored(None, []));
    }
    for i := 0 to |queries|
      invariant forall k | 0 <= k < i :: queries[k] == queries[0]
    {
      if queries[i] != queries[0] {
        return Failure(MixedQueries);
      }
    }
    if !ValidSettings(s) {
      return Failure(InvalidSettings);
    }
    if |sims| != |queries| {
      return Failure(SimilarityCount);
    }
    var ranked := Ranked(sims, |sims|);
    TopTwo(sims);
    var topIndex, topSimilarity := ranked[0], sims[ranked[0]];
    var runnerUp := if |ranked| > 1 then sims[ranked[1]] else -1.0;
    var topMargin := topSimilarity - runnerUp;
    PathTests(sims, s, topIndex, runnerUp);
    var scores := AllZero(|queries|);
    if topSimilarity < s.rejectBelow {
      return Success(Scored(Some(FastReject), scores));
    } else if topSimilarity >= s.acceptAbove && topMargin >= s.acceptMargin {
      scores := scores[topIndex := 1.0];
      assert Accepts(sims, s, topIndex);
      assert !Rejects(sims, s);
      assert scores == OneHot(|queries|, topIndex);
      return Success(Scored(Some(FastAccept), scores));
    } else {
      return Success(Scored(Some(Reranker), reranked));
    }
  }

  /** The best similarity but the top one, or -1 when there is no other. */
  predicate RunnerUp(sims: seq<real>, top: nat, value: real) {
    if |sims| == 1 then value == -1.0
    else
      && (exists k | 0 <= k < |sims| && k != top :: sims[k] == value)
      && (forall j | 0 <= j < |sims| && j != top :: sims[j] <= value)
  }

  /** The two comparisons on the best option and the runner-up decide the conditions on
      all options. */
  lemma PathTests(sims: seq<real>, s: Settings, top: nat, runnerUp: real)
    requires FirstMaximum(sims, top) && ValidSettings(s)
    requires RunnerUp(sims, top, runnerUp)
    ensures Rejects(sims, s) <==> sims[top] < s.rejectBelow
    ensures forall t :: Accepts(sims, s, t) <==>
      t == top && sims[top] >= s.acceptAbove && sims[top] - runnerUp >= s.acceptMargin
  {
    forall t
      ensures Accepts(sims, s, t) <==>
        t == top && sims[top] >= s.acceptAbove && sims[top] - runnerUp >= s.acceptMargin
    {
      if FirstMaximum(sims, t) {
        assert t == top;
      }
    }
  }

  /** The fast paths exclude each other, and at most one option can be accepted. */
  lemma PathsPartition(sims: seq<real>, s: Settings, t: int, u: int)
    requires sims != [] && ValidSettings(s) && Accepts(sims, s, t)
    ensures !Rejects(sims, s)
    ensures Accepts(sims, s, u) ==> u == t
  {
  }
}
