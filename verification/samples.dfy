/** Samples of measurements: sums, means, Python's `sorted`, and the three interpolated
    quantiles of the reports, in exact real arithmetic. */
module Samples {
  import opened Arithmetic
  import opened Wrappers

  function Sum(xs: seq<real>): real {
    if xs == [] then 0.0 else Sum(xs[..|xs| - 1]) + xs[|xs| - 1]
  }

  function Mean(xs: seq<real>): real
    requires xs != []
  {
    Sum(xs) / |xs| as real
  }

  ghost predicate Within(xs: seq<real>, low: real, high: real) {
    forall i | 0 <= i < |xs| :: low <= xs[i] <= high
  }

  lemma {:induction false} SumWithin(xs: seq<real>, low: real, high: real)
    requires Within(xs, low, high)
    ensures low * |xs| as real <= Sum(xs) <= high * |xs| as real
  {
    if xs != [] {
      var init := xs[..|xs| - 1];
      SumWithin(init, low, high);
      assert |xs| as real == |init| as real + 1.0;
    }
  }

  lemma QuotientWithin(total: real, n: real, low: real, high: real)
    requires n > 0.0 && low * n <= total <= high * n
    ensures low <= total / n <= high
  {
    assert total / n - low == (total - low * n) / n;
    assert high - total / n == (high * n - total) / n;
  }

  lemma MeanWithin(xs: seq<real>, low: real, high: real)
    requires xs != [] && Within(xs, low, high)
    ensures low <= Mean(xs) <= high
  {
    SumWithin(xs, low, high);
    QuotientWithin(Sum(xs), |xs| as real, low, high);
  }

  lemma {:induction false} SumAppend(xs: seq<real>, ys: seq<real>)
    ensures Sum(xs + ys) == Sum(xs) + Sum(ys)
  {
    if ys == [] {
      assert xs + ys == xs;
    } else {
      var init := ys[..|ys| - 1];
      assert (xs + ys)[..|xs + ys| - 1] == xs + init;
      SumAppend(xs, init);
    }
  }

  // ---- sorted -----------------------------------------------------------------------------

  predicate Ascending(xs: seq<real>) {
    forall i, j | 0 <= i < j < |xs| :: xs[i] <= xs[j]
  }

  function Insert(x: real, xs: seq<real>): (r: seq<real>)
    ensures multiset(r) == multiset(xs) + multiset{x}
  {
    if xs == [] then [x]
    else if x <= xs[0] then [x] + xs
    else assert xs == [xs[0]] + xs[1..]; [xs[0]] + Insert(x, xs[1..])
  }

  function Sorted(xs: seq<real>): (r: seq<real>)
    ensures multiset(r) == multiset(xs)
  {
    if xs == [] then []
    else assert xs == [xs[0]] + xs[1..]; Insert(xs[0], Sorted(xs[1..]))
  }

  lemma {:induction false} InsertAscending(x: real, xs: seq<real>)
    requires Ascending(xs)
    ensures Ascending(Insert(x, xs))
  {
    if xs != [] && xs[0] < x {
      InsertAscending(x, xs[1..]);
      InsertAbove(xs[0], x, xs[1..]);
      AscendingFrom(xs[0], Insert(x, xs[1..]));
      hide Ascending;
    }
  }

  lemma InsertAbove(low: real, x: real, xs: seq<real>)
    requires low <= x && forall i | 0 <= i < |xs| :: low <= xs[i]
    ensures forall i | 0 <= i < |Insert(x, xs)| :: low <= Insert(x, xs)[i]
  {
    var r := Insert(x, xs);
    hide Insert;
    forall i | 0 <= i < |r|
      ensures low <= r[i]
    {
      assert r[i] in multiset(r);
      assert r[i] == x || r[i] in multiset(xs);
    }
  }

  lemma AscendingFrom(low: real, xs: seq<real>)
    requires Ascending(xs) && forall i | 0 <= i < |xs| :: low <= xs[i]
    ensures Ascending([low] + xs)
  {
  }

  lemma {:induction false} SortedAscending(xs: seq<real>)
    ensures Ascending(Sorted(xs)) && |Sorted(xs)| == |xs|
  {
    assert |Sorted(xs)| == |multiset(Sorted(xs))| == |xs|;
    if xs != [] {
      SortedAscending(xs[1..]);
      InsertAscending(xs[0], Sorted(xs[1..]));
    }
  }

  /** A sample has one ascending arrangement. */
  lemma {:induction false} AscendingUnique(a: seq<real>, b: seq<real>)
    requires Ascending(a) && Ascending(b) && multiset(a) == multiset(b)
    ensures a == b
  {
    assert |a| == |multiset(a)| == |multiset(b)| == |b|;
    if a != [] {
      LeastFirst(a, b);
      LeastFirst(b, a);
      RestOf(a);
      RestOf(b);
      AscendingRest(a);
      AscendingRest(b);
      hide Ascending;
      AscendingUnique(a[1..], b[1..]);
    }
  }

  /** The first value is the least. */
  lemma LeastFirst(a: seq<real>, b: seq<real>)
    requires a != [] && b != [] && Ascending(a) && multiset(a) == multiset(b)
    ensures a[0] <= b[0]
  {
    assert b[0] in multiset(a);
    var i :| 0 <= i < |a| && a[i] == b[0];
  }

  lemma RestOf(a: seq<real>)
    requires a != []
    ensures a == [a[0]] + a[1..] && multiset(a[1..]) == multiset(a) - multiset{a[0]}
  {
    assert a == [a[0]] + a[1..];
  }

  lemma AscendingRest(a: seq<real>)
    requires a != [] && Ascending(a)
    ensures Ascending(a[1..])
  {
  }

  lemma SortedForgetsOrder(xs: seq<real>, ys: seq<real>)
    requires multiset(xs) == multiset(ys)
    ensures Sorted(xs) == Sorted(ys)
  {
    SortedAscending(xs);
    SortedAscending(ys);
    AscendingUnique(Sorted(xs), Sorted(ys));
  }

  lemma SortedWithin(xs: seq<real>, low: real, high: real)
    requires Within(xs, low, high)
    ensures Within(Sorted(xs), low, high)
  {
    forall i | 0 <= i < |Sorted(xs)|
      ensures low <= Sorted(xs)[i] <= high
    {
      assert Sorted(xs)[i] in multiset(xs);
    }
  }

  // ---- The three quantiles ------------------------------------------------------------------

  /** The index after `low`, or the last one. */
  function NextIndex(low: int, n: nat): int {
    if low + 1 <= n - 1 then low + 1 else n - 1
  }

  function Ceiling(x: real): int {
    -((-x).Floor)
  }

  /** A probability times the last index: between the first and the last index. */
  function Position(n: nat, p: real): (r: real)
    requires n > 0 && 0.0 <= p <= 1.0
    ensures 0.0 <= r <= (n - 1) as real
  {
    var m := (n - 1) as real;
    assert (1.0 - p) * m >= 0.0;
    p * m
  }

  lemma PositionMonotone(n: nat, p: real, q: real)
    requires n > 0 && 0.0 <= p <= q <= 1.0
    ensures Position(n, p) <= Position(n, q)
    ensures Position(n, 0.0) == 0.0 && Position(n, 1.0) == (n - 1) as real
  {
    assert (q - p) * (n - 1) as real >= 0.0;
  }

  function Mix(low: real, high: real, weight: real): real {
    low * (1.0 - weight) + high * weight
  }

  /** The interpolation of `_p95` and `_percentile`: truncate, and stop at the last index. */
  function Truncating(ordered: seq<real>, position: real): real
    requires ordered != [] && 0.0 <= position <= (|ordered| - 1) as real
  {
    var low := position.Floor;
    var high := NextIndex(low, |ordered|);
    Mix(ordered[low], ordered[high], position - low as real)
  }

  /** The interpolation of `quantile`: floor and ceiling, and no blend when they meet. */
  function Bracketing(samples: seq<real>, position: real): real
    requires samples != [] && 0.0 <= position <= (|samples| - 1) as real
  {
    var low, high := position.Floor, Ceiling(position);
    if low == high then samples[low]
    else Mix(samples[low], samples[high], position - low as real)
  }

  /** `_percentile`, without its final rounding. */
  function Percentile(values: seq<real>, percentile: real): Option<real>
    requires 0.0 <= percentile <= 1.0
  {
    SortedAscending(values);
    if values == [] then None
    else Some(Truncating(Sorted(values), Position(|values|, percentile)))
  }

  /** `_p95`. */
  function P95(values: seq<real>): Option<real> {
    SortedAscending(values);
    if values == [] then None
    else Some(Truncating(Sorted(values), Position(|values|, 0.95)))
  }

  /** `quantile`, over samples that have already been sorted. */
  function Quantile(samples: seq<real>, probability: real): real
    requires samples != [] && 0.0 <= probability <= 1.0
  {
    Bracketing(samples, Position(|samples|, probability))
  }

  /** The reference: the straight line through two neighbouring order statistics. */
  function Segment(samples: seq<real>, k: nat, position: real): real
    requires k + 1 < |samples|
  {
    Line(samples[k], samples[k + 1], position - k as real)
  }

  /** The point a fraction `w` of the way from `a` to `b`. */
  function Line(a: real, b: real, w: real): real {
    a + w * (b - a)
  }

  lemma Blend(a: real, b: real, w: real)
    ensures Mix(a, b, w) == Line(a, b, w)
    ensures w == 1.0 ==> Line(a, b, w) == b
    ensures w == 0.0 ==> Line(a, b, w) == a
  {
  }

  /** Both interpolations are the polyline through the order statistics: on every segment,
      both end points included, they are the straight line. */
  lemma QuantileIsPolyline(samples: seq<real>, position: real, k: nat)
    requires k + 1 < |samples| && k as real <= position <= (k + 1) as real
    ensures Bracketing(samples, position) == Truncating(samples, position) == Segment(samples, k, position)
  {
    hide Mix, Line;
    var n := |samples|;
    Blend(samples[k], samples[k + 1], position - k as real);
    if position == (k + 1) as real {
      assert position.Floor == k + 1 == Ceiling(position);
      Blend(samples[k + 1], samples[NextIndex(k + 1, n)], position - (k + 1) as real);
    } else {
      assert position.Floor == k;
      assert position == k as real ==> Ceiling(position) == k;
      assert position > k as real ==> Ceiling(position) == k + 1;
    }
  }

  /** A quantile in full: at `p` times the last index, the straight line through the two
      order statistics around it; and the only value of a sample of one. */
  lemma QuantileExactly(samples: seq<real>, p: real, k: nat)
    requires samples != [] && 0.0 <= p <= 1.0 && k < |samples|
    requires var at := p * (|samples| - 1) as real; k as real <= at <= (k + 1) as real
    ensures Quantile(samples, p) ==
      if k + 1 < |samples| then samples[k] + (p * (|samples| - 1) as real - k as real) * (samples[k + 1] - samples[k])
      else samples[k]
  {
    PositionIs(|samples|, p);
    if k + 1 < |samples| {
      QuantileIsPolyline(samples, Position(|samples|, p), k);
      hide Position, Bracketing, Truncating;
    } else {
      assert Position(|samples|, p) == k as real;
      KnotAt(samples, k);
      hide Position, Bracketing;
    }
  }

  lemma PositionIs(n: nat, p: real)
    requires n > 0 && 0.0 <= p <= 1.0
    ensures Position(n, p) == p * (n - 1) as real
  {
  }

  /** Every position falls on some segment, except in a sample of one. */
  lemma SegmentOf(n: nat, position: real) returns (k: nat)
    requires n > 1 && 0.0 <= position <= (n - 1) as real
    ensures k + 1 < n && k as real <= position <= (k + 1) as real
  {
    var f := position.Floor;
    k := if f == n - 1 then f - 1 else f;
  }

  lemma SingleSample(samples: seq<real>)
    requires |samples| == 1
    ensures Bracketing(samples, 0.0) == Truncating(samples, 0.0) == samples[0]
  {
    assert (0.0).Floor == 0 == Ceiling(0.0);
    Blend(samples[0], samples[0], 0.0);
  }

  /** The three formulas agree on every nonempty sample and every probability. */
  lemma QuantilesAgree(values: seq<real>, p: real)
    requires values != [] && 0.0 <= p <= 1.0
    ensures Sorted(values) != []
    ensures Percentile(values, p) == Some(Quantile(Sorted(values), p))
    ensures P95(values) == Some(Quantile(Sorted(values), 0.95))
  {
    SortedAscending(values);
    SamePosition(Sorted(values), Position(|values|, p));
    SamePosition(Sorted(values), Position(|values|, 0.95));
  }

  lemma SamePosition(samples: seq<real>, position: real)
    requires samples != [] && 0.0 <= position <= (|samples| - 1) as real
    ensures Bracketing(samples, position) == Truncating(samples, position)
  {
    if |samples| == 1 {
      SingleSample(samples);
    } else {
      var k := SegmentOf(|samples|, position);
      QuantileIsPolyline(samples, position, k);
    }
  }

  lemma SegmentBetween(samples: seq<real>, k: nat, position: real)
    requires k + 1 < |samples| && samples[k] <= samples[k + 1] && k as real <= position <= (k + 1) as real
    ensures samples[k] <= Segment(samples, k, position) <= samples[k + 1]
  {
    LineBetween(samples[k], samples[k + 1], position - k as real);
    hide Line;
  }

  lemma LineBetween(a: real, b: real, w: real)
    requires a <= b && 0.0 <= w <= 1.0
    ensures a <= Line(a, b, w) <= b
  {
    var d := b - a;
    Fraction(w, d);
    assert Line(a, b, w) == a + w * d;
  }

  /** Between the least and the greatest value, both attained. */
  lemma QuantileBounds(samples: seq<real>, p: real)
    requires samples != [] && Ascending(samples) && 0.0 <= p <= 1.0
    ensures samples[0] <= Quantile(samples, p) <= samples[|samples| - 1]
    ensures Quantile(samples, 0.0) == samples[0]
    ensures Quantile(samples, 1.0) == samples[|samples| - 1]
  {
    var n := |samples|;
    PositionMonotone(n, p, p);
    BoundsAt(samples, Position(n, p));
    KnotAt(samples, 0);
    KnotAt(samples, n - 1);
  }

  lemma KnotAt(samples: seq<real>, k: nat)
    requires k < |samples|
    ensures Bracketing(samples, k as real) == samples[k]
  {
    assert (k as real).Floor == k == Ceiling(k as real);
  }

  lemma BoundsAt(samples: seq<real>, position: real)
    requires samples != [] && Ascending(samples) && 0.0 <= position <= (|samples| - 1) as real
    ensures samples[0] <= Bracketing(samples, position) <= samples[|samples| - 1]
  {
    if |samples| == 1 {
      SingleSample(samples);
    } else {
      var k := SegmentOf(|samples|, position);
      QuantileIsPolyline(samples, position, k);
      SegmentBetween(samples, k, position);
      hide Bracketing, Truncating, Segment;
      assert samples[0] <= samples[k] && samples[k + 1] <= samples[|samples| - 1];
    }
  }

  lemma MonotoneAt(samples: seq<real>, x: real, y: real)
    requires samples != [] && Ascending(samples) && 0.0 <= x <= y <= (|samples| - 1) as real
    ensures Bracketing(samples, x) <= Bracketing(samples, y)
  {
    if |samples| > 1 && x < y {
      var k := SegmentOf(|samples|, x);
      var l := SegmentOf(|samples|, y);
      QuantileIsPolyline(samples, x, k);
      QuantileIsPolyline(samples, y, l);
      SegmentBetween(samples, k, x);
      SegmentBetween(samples, l, y);
      if k == l {
        SameSegment(samples, k, x, y);
      } else {
        assert k < l;
        assert samples[k + 1] <= samples[l];
      }
      hide Bracketing, Truncating, Segment;
    }
  }

  lemma SameSegment(samples: seq<real>, k: nat, x: real, y: real)
    requires k + 1 < |samples| && samples[k] <= samples[k + 1] && x <= y
    ensures Segment(samples, k, x) <= Segment(samples, k, y)
  {
    LineMonotone(samples[k], samples[k + 1], x - k as real, y - k as real);
    hide Line;
  }

  lemma LineMonotone(a: real, b: real, v: real, w: real)
    requires a <= b && v <= w
    ensures Line(a, b, v) <= Line(a, b, w)
  {
    var d := b - a;
    assert (w - v) * d >= 0.0;
    assert (w - v) * d == w * d - v * d;
  }

  lemma QuantileMonotone(samples: seq<real>, p: real, q: real)
    requires samples != [] && Ascending(samples) && 0.0 <= p <= q <= 1.0
    ensures Quantile(samples, p) <= Quantile(samples, q)
  {
    PositionMonotone(|samples|, p, q);
    MonotoneAt(samples, Position(|samples|, p), Position(|samples|, q));
  }

  /** The reported percentiles: independent of input order, monotone in the probability,
      and between any bounds of the sample. */
  lemma PercentileMeaning(values: seq<real>, shuffled: seq<real>, p: real, q: real, low: real, high: real)
    requires values != [] && multiset(values) == multiset(shuffled) && 0.0 <= p <= q <= 1.0
    requires Within(values, low, high)
    ensures Percentile(shuffled, p) == Percentile(values, p)
    ensures P95(shuffled) == P95(values)
    ensures low <= Percentile(values, p).value <= Percentile(values, q).value <= high
  {
    assert |values| == |multiset(values)| == |multiset(shuffled)| == |shuffled|;
    SortedForgetsOrder(values, shuffled);
    SortedAscending(values);
    SortedWithin(values, low, high);
    var ordered := Sorted(values);
    QuantilesAgree(values, p);
    QuantilesAgree(values, q);
    QuantileMonotone(ordered, p, q);
    QuantileBounds(ordered, p);
    QuantileBounds(ordered, q);
    hide Sorted, Quantile;
    assert low <= ordered[0] && ordered[|ordered| - 1] <= high;
  }
}
