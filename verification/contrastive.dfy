/** The sibling-contrastive operation-fit scorer, in exact reals, over any exponential. */
module Contrastive {
  import opened Arithmetic

  /** What the scorer uses of `math.exp`. */
  ghost predicate Exponential(exp: real -> real) {
    && (forall x :: exp(x) > 0.0)
    && (forall x :: exp(x) * exp(-x) == 1.0)
    && (forall x, y | x < y :: exp(x) < exp(y))
  }

  /** `_sigmoid`, with its two branches. */
  function Sigmoid(exp: real -> real, value: real): real
    requires exp(value) > 0.0 && exp(-value) > 0.0
  {
    if value >= 0.0 then
      var z := exp(-value);
      1.0 / (1.0 + z)
    else
      var z := exp(value);
      z / (1.0 + z)
  }

  lemma Reciprocal(a: real, b: real)
    requires a > 0.0 && b > 0.0 && a * b == 1.0
    ensures a / (1.0 + a) == 1.0 / (1.0 + b)
  {
    var c, d := 1.0 + a, 1.0 + b;
    assert a * d == c;
    assert a == c / d;
    assert a / c == 1.0 / d by {
      Quotients(a, c, d);
    }
  }

  lemma Quotients(a: real, c: real, d: real)
    requires a > 0.0 && c > 0.0 && d > 0.0 && a * d == c
    ensures a / c == 1.0 / d
  {
    assert (a / c) * c == a;
    assert (1.0 / d) * c == (1.0 / d) * d * a == a;
  }

  /** Both branches compute the logistic function. */
  lemma SigmoidIsLogistic(exp: real -> real, x: real)
    requires Exponential(exp)
    ensures Sigmoid(exp, x) == 1.0 / (1.0 + exp(-x))
  {
    if x < 0.0 {
      Reciprocal(exp(x), exp(-x));
    }
  }

  lemma Shrink(a: real, b: real)
    requires 0.0 < a < b
    ensures 0.0 < 1.0 / (1.0 + b) < 1.0 / (1.0 + a) < 1.0
  {
    var c, d := 1.0 + a, 1.0 + b;
    assert 1.0 / c - 1.0 / d == (d - c) / (c * d);
    assert c * d > 0.0;
    assert (d - c) / (c * d) > 0.0;
  }

  lemma ExpFacts(exp: real -> real, x: real, y: real)
    requires Exponential(exp)
    ensures exp(x) > 0.0 && exp(-x) > 0.0 && exp(y) > 0.0 && exp(-y) > 0.0
    ensures exp(x) * exp(-x) == 1.0
    ensures x < y ==> exp(-y) < exp(-x)
    ensures y < x ==> exp(-x) < exp(-y)
  {
  }

  /** The sigmoid is strictly increasing and strictly between 0 and 1. */
  lemma SigmoidShape(exp: real -> real, x: real, y: real)
    requires Exponential(exp)
    ensures 0.0 < Sigmoid(exp, x) < 1.0
    ensures x <= y <==> Sigmoid(exp, x) <= Sigmoid(exp, y)
  {
    SigmoidIsLogistic(exp, x);
    SigmoidIsLogistic(exp, y);
    ExpFacts(exp, x, y);
    hide Sigmoid, Exponential;
    var a, b := exp(-x), exp(-y);
    Shrink(a, a + 1.0);
    if x < y {
      Shrink(b, a);
    } else if y < x {
      Shrink(a, b);
    }
  }

  /** The sigmoid is symmetric about one half. */
  lemma SigmoidReflects(exp: real -> real, x: real)
    requires Exponential(exp)
    ensures Sigmoid(exp, -x) == 1.0 - Sigmoid(exp, x)
  {
    SigmoidIsLogistic(exp, x);
    SigmoidIsLogistic(exp, -x);
    ExpFacts(exp, x, x);
    hide Sigmoid, Exponential;
    assert -(-x) == x;
    Reciprocal(exp(x), exp(-x));
    Complement(exp(x));
  }

  lemma Complement(a: real)
    requires a > 0.0
    ensures 1.0 / (1.0 + a) == 1.0 - a / (1.0 + a)
  {
    var c := 1.0 + a;
    assert 1.0 / c + a / c == c / c;
  }

  // ---- Siblings ---------------------------------------------------------------------------

  function Larger(a: real, b: real): real {
    if b > a then b else a
  }

  function Maximum(xs: seq<real>): (m: real)
    requires xs != []
    ensures exists k | 0 <= k < |xs| :: xs[k] == m
    ensures forall k | 0 <= k < |xs| :: xs[k] <= m
  {
    if |xs| == 1 then xs[0] else Larger(xs[0], Maximum(xs[1..]))
  }

  /** The siblings of option `i`, in order. */
  function Others(raw: seq<real>, i: nat): (r: seq<real>)
    requires i < |raw|
    ensures |r| == |raw| - 1
    ensures forall k | 0 <= k < |r| :: r[k] == raw[if k < i then k else k + 1]
  {
    raw[..i] + raw[i + 1..]
  }

  function StrongestSibling(raw: seq<real>, i: nat): real
    requires i < |raw| && |raw| > 1
  {
    Maximum(Others(raw, i))
  }

  lemma StrongestFacts(raw: seq<real>, i: nat)
    requires i < |raw| && |raw| > 1
    ensures exists j | 0 <= j < |raw| && j != i :: raw[j] == StrongestSibling(raw, i)
    ensures forall j | 0 <= j < |raw| && j != i :: raw[j] <= StrongestSibling(raw, i)
  {
    var others := Others(raw, i);
    var m := Maximum(others);
    hide Maximum, Others;
    var k :| 0 <= k < |others| && others[k] == m;
    assert raw[if k < i then k else k + 1] == m;
    forall j | 0 <= j < |raw| && j != i
      ensures raw[j] <= m
    {
      assert raw[j] == others[if j < i then j else j - 1];
    }
  }

  /** A logit pushed by its margin over the strongest sibling. */
  function Contrast(own: real, beta: real, margin: real): real {
    own + Times(beta, margin)
  }

  function Adjusted(raw: seq<real>, beta: real, i: nat): real
    requires i < |raw|
  {
    if |raw| <= 1 then raw[i] else Contrast(raw[i], beta, raw[i] - StrongestSibling(raw, i))
  }

  /** `score_pairs` after the model has returned its raw logits. */
  method ScorePairs(exp: real -> real, raw: seq<real>, beta: real) returns (scores: seq<real>)
    requires Exponential(exp) && beta >= 0.0
    ensures |scores| == |raw|
    ensures forall i | 0 <= i < |raw| :: scores[i] == Sigmoid(exp, Adjusted(raw, beta, i))
  {
    hide Sigmoid, StrongestSibling;
    scores := [];
    if |raw| <= 1 {
      if |raw| == 1 {
        scores := [Sigmoid(exp, raw[0])];
      }
      return;
    }
    for i := 0 to |raw|
      invariant |scores| == i
      invariant forall k | 0 <= k < i :: scores[k] == Sigmoid(exp, Adjusted(raw, beta, k))
    {
      var margin := raw[i] - StrongestSibling(raw, i);
      assert Adjusted(raw, beta, i) == raw[i] + beta * margin;
      scores := scores + [Sigmoid(exp, raw[i] + beta * margin)];
    }
  }

  /** Every score in full: the logistic function of the logit plus beta times its lead over
      the strongest other logit, and of the logit alone when there is no other. */
  lemma ScoreExactly(exp: real -> real, raw: seq<real>, beta: real, i: nat, strongest: real)
    requires Exponential(exp) && i < |raw|
    requires |raw| > 1 ==>
      (exists j | 0 <= j < |raw| && j != i :: raw[j] == strongest)
      && (forall j | 0 <= j < |raw| && j != i :: raw[j] <= strongest)
    ensures var pushed := if |raw| > 1 then raw[i] + beta * (raw[i] - strongest) else raw[i];
      Sigmoid(exp, Adjusted(raw, beta, i)) == 1.0 / (1.0 + exp(-pushed))
  {
    AdjustedIs(raw, beta, i, strongest);
    SigmoidIsLogistic(exp, Adjusted(raw, beta, i));
    hide *;
  }

  lemma AdjustedIs(raw: seq<real>, beta: real, i: nat, strongest: real)
    requires i < |raw|
    requires |raw| > 1 ==>
      (exists j | 0 <= j < |raw| && j != i :: raw[j] == strongest)
      && (forall j | 0 <= j < |raw| && j != i :: raw[j] <= strongest)
    ensures Adjusted(raw, beta, i) == if |raw| > 1 then raw[i] + beta * (raw[i] - strongest) else raw[i]
  {
    if |raw| > 1 {
      StrongestFacts(raw, i);
      hide StrongestSibling;
      assert StrongestSibling(raw, i) == strongest;
    }
  }

  // ---- What the adjustment promises ----------------------------------------------------------

  lemma Scale(beta: real, x: real, u: real, y: real, v: real)
    requires beta >= 0.0 && x < y && u <= v
    ensures Contrast(x, beta, u) < Contrast(y, beta, v)
  {
    Grow(beta, u, v);
    hide Times;
  }

  lemma Grow(beta: real, u: real, v: real)
    requires beta >= 0.0 && u <= v
    ensures Times(beta, u) <= Times(beta, v)
  {
    NonnegativeProduct(beta, v - u);
    DistributeMinus(beta, v, u);
  }

  lemma DistributeMinus(beta: real, v: real, u: real)
    ensures beta * (v - u) == beta * v - beta * u
  {
  }

  /** The contrast never reorders: scores compare exactly as the raw logits do. */
  lemma NeverReorders(exp: real -> real, raw: seq<real>, beta: real, i: nat, j: nat)
    requires Exponential(exp) && beta >= 0.0 && i < |raw| && j < |raw|
    ensures raw[i] >= raw[j] <==> Sigmoid(exp, Adjusted(raw, beta, i)) >= Sigmoid(exp, Adjusted(raw, beta, j))
  {
    SigmoidShape(exp, Adjusted(raw, beta, j), Adjusted(raw, beta, i));
    hide Exponential, Sigmoid;
    if raw[i] > raw[j] {
      AdjustedStrict(raw, beta, j, i);
    } else if raw[i] < raw[j] {
      AdjustedStrict(raw, beta, i, j);
    } else {
      AdjustedEqual(raw, beta, i, j);
    }
  }

  lemma AdjustedStrict(raw: seq<real>, beta: real, low: nat, high: nat)
    requires beta >= 0.0 && low < |raw| && high < |raw| && raw[low] < raw[high]
    ensures Adjusted(raw, beta, low) < Adjusted(raw, beta, high)
  {
    hide StrongestSibling, Contrast;
    StrongestMonotone(raw, low, high);
    Scale(beta, raw[low], raw[low] - StrongestSibling(raw, low), raw[high], raw[high] - StrongestSibling(raw, high));
  }

  /** The better of two options has the weaker rivals. */
  lemma StrongestMonotone(raw: seq<real>, low: nat, high: nat)
    requires low < |raw| && high < |raw| && low != high && raw[low] <= raw[high]
    ensures StrongestSibling(raw, high) <= StrongestSibling(raw, low)
  {
    hide StrongestSibling;
    StrongestFacts(raw, low);
    StrongestFacts(raw, high);
    var j :| 0 <= j < |raw| && j != high && raw[j] == StrongestSibling(raw, high);
    assert raw[high] <= StrongestSibling(raw, low);
    assert j != low ==> raw[j] <= StrongestSibling(raw, low);
  }

  lemma AdjustedEqual(raw: seq<real>, beta: real, i: nat, j: nat)
    requires i < |raw| && j < |raw| && raw[i] == raw[j]
    ensures Adjusted(raw, beta, i) == Adjusted(raw, beta, j)
  {
    if |raw| > 1 && i != j {
      StrongestMonotone(raw, i, j);
      StrongestMonotone(raw, j, i);
      hide StrongestSibling, Contrast;
    }
  }

  ghost predicate StrictMaximum(raw: seq<real>, i: nat)
    requires i < |raw|
  {
    forall j | 0 <= j < |raw| && j != i :: raw[j] < raw[i]
  }

  ghost predicate Tops(raw: seq<real>, i: nat)
    requires i < |raw|
  {
    forall j | 0 <= j < |raw| && j != i :: raw[j] <= raw[i]
  }

  /** Against the baseline `sigmoid(raw)`, an option gains exactly when beta is positive
      and it is the strict maximum of several options, and loses exactly when beta is
      positive and some sibling beats it. */
  lemma OnlyStrictMaximumGains(exp: real -> real, raw: seq<real>, beta: real, i: nat)
    requires Exponential(exp) && beta >= 0.0 && i < |raw|
    ensures var score, baseline := Sigmoid(exp, Adjusted(raw, beta, i)), Sigmoid(exp, raw[i]);
      && (score > baseline <==> beta > 0.0 && |raw| > 1 && StrictMaximum(raw, i))
      && (score < baseline <==> beta > 0.0 && !Tops(raw, i))
  {
    SigmoidShape(exp, Adjusted(raw, beta, i), raw[i]);
    SigmoidShape(exp, raw[i], Adjusted(raw, beta, i));
    hide Exponential, Sigmoid, StrictMaximum, Tops, StrongestSibling, Contrast;
    if |raw| > 1 {
      MarginMeaning(raw, i);
      ContrastSign(raw[i], beta, raw[i] - StrongestSibling(raw, i));
    }
  }

  lemma MarginMeaning(raw: seq<real>, i: nat)
    requires i < |raw| && |raw| > 1
    ensures StrictMaximum(raw, i) <==> raw[i] - StrongestSibling(raw, i) > 0.0
    ensures Tops(raw, i) <==> raw[i] - StrongestSibling(raw, i) >= 0.0
  {
    hide StrongestSibling;
    StrongestFacts(raw, i);
    var j :| 0 <= j < |raw| && j != i && raw[j] == StrongestSibling(raw, i);
  }

  lemma ContrastSign(own: real, beta: real, margin: real)
    requires beta >= 0.0
    ensures Contrast(own, beta, margin) > own <==> beta > 0.0 && margin > 0.0
    ensures Contrast(own, beta, margin) < own <==> beta > 0.0 && margin < 0.0
  {
    MarginSign(beta, margin);
  }

  lemma MarginSign(beta: real, margin: real)
    requires beta >= 0.0
    ensures beta * margin > 0.0 <==> beta > 0.0 && margin > 0.0
    ensures beta * margin < 0.0 <==> beta > 0.0 && margin < 0.0
  {
    if beta == 0.0 {
      assert beta * margin == 0.0;
    } else {
      PositiveFactor(beta, margin);
    }
  }

  lemma PositiveFactor(d: real, y: real)
    requires d > 0.0
    ensures d * y > 0.0 <==> y > 0.0
    ensures d * y < 0.0 <==> y < 0.0
  {
  }

  /** The `beta = 0` profile is the plain sigmoid of the raw logits. */
  lemma ZeroBetaIsBaseline(exp: real -> real, raw: seq<real>, i: nat)
    requires Exponential(exp) && i < |raw|
    ensures Sigmoid(exp, Adjusted(raw, 0.0, i)) == Sigmoid(exp, raw[i])
  {
    hide Sigmoid;
    if |raw| > 1 {
      assert Contrast(raw[i], 0.0, raw[i] - StrongestSibling(raw, i)) == raw[i];
    }
  }
}
