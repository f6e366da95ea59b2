/**
 * Whole-column primitives of the indicator engine: sums, prefix sums, lagged
 * differences and the full-window rolling aggregates that pandas computes with
 * `cumsum`, `diff` and `rolling(window)` (default `min_periods`, so a window
 * yields a value only when all of its entries exist and are defined).
 */
module Columns {
  import opened Wrappers

  /** A derived column: one entry per candle, `None` where pandas yields NaN. */
  type Column = seq<Option<real>>

  /** A rolling window length or an exponential-smoothing span. */
  type Period = n: nat | n >= 1 witness 1

  /** A column with every entry defined. */
  function Defined(xs: seq<real>): (c: Column)
    ensures |c| == |xs|
  {
    seq(|xs|, i requires 0 <= i < |xs| => Some(xs[i]))
  }

  /** The sum of a sequence; the recursion lives in `SumOfPrefix`. */
  function Sum(xs: seq<real>): real
  {
    SumOfPrefix(xs)
  }

  function SumOfPrefix(xs: seq<real>): real
  {
    if xs == [] then 0.0 else SumOfPrefix(xs[..|xs| - 1]) + xs[|xs| - 1]
  }

  /** The sum of a non-empty sequence adds its last element to the sum of the rest. */
  lemma SumLast(xs: seq<real>)
    requires xs != []
    ensures Sum(xs) == Sum(xs[..|xs| - 1]) + xs[|xs| - 1]
  {
  }

  /** `cumsum` over a column with no undefined entry. */
  function CumSum(xs: seq<real>): (c: seq<real>)
    ensures |c| == |xs|
  {
    seq(|xs|, i requires 0 <= i < |xs| => Sum(xs[..i + 1]))
  }

  /** A prefix sum starts at the first element and then grows by one element per row. */
  lemma CumSumSteps(xs: seq<real>, i: nat)
    requires i < |xs|
    ensures CumSum(xs)[0] == xs[0]
    ensures i > 0 ==> CumSum(xs)[i] - CumSum(xs)[i - 1] == xs[i]
  {
    assert xs[..1][..0] == [];
    SumLast(xs[..1]);
    assert xs[..i + 1][..i] == xs[..i];
    SumLast(xs[..i + 1]);
  }

  /** pandas `diff()`: undefined in row 0 and wherever either operand is undefined. */
  function Diff(c: Column): (d: Column)
    ensures |d| == |c|
  {
    seq(|c|, i requires 0 <= i < |c| =>
      if i > 0 && c[i].Some? && c[i - 1].Some? then Some(c[i].value - c[i - 1].value) else None)
  }

  /** pandas `shift(1)`: every entry moves one row later and row 0 becomes undefined. */
  function ShiftOne(c: Column): (d: Column)
    ensures |d| == |c|
  {
    seq(|c|, i requires 0 <= i < |c| => if i == 0 then None else c[i - 1])
  }

  /** Division of two possibly undefined values; a zero divisor yields an undefined value. */
  function Div(a: Option<real>, b: Option<real>): Option<real>
  {
    if a.Some? && b.Some? && b.value != 0.0 then Some(a.value / b.value) else None
  }

  /** `a < b` as a float comparison: false whenever either side is NaN. */
  predicate Less(a: Option<real>, b: Option<real>)
  {
    a.Some? && b.Some? && a.value < b.value
  }

  /** The minimum of a non-empty sequence (kept non-recursive, like `Sum`). */
  function SeqMin(xs: seq<real>): real
    requires |xs| > 0
  {
    MinOfPrefix(xs)
  }

  function MinOfPrefix(xs: seq<real>): real
    requires |xs| > 0
  {
    if |xs| == 1 then xs[0]
    else
      var m := MinOfPrefix(xs[..|xs| - 1]);
      if xs[|xs| - 1] < m then xs[|xs| - 1] else m
  }

  /** The maximum of a non-empty sequence (kept non-recursive, like `Sum`). */
  function SeqMax(xs: seq<real>): real
    requires |xs| > 0
  {
    MaxOfPrefix(xs)
  }

  function MaxOfPrefix(xs: seq<real>): real
    requires |xs| > 0
  {
    if |xs| == 1 then xs[0]
    else
      var m := MaxOfPrefix(xs[..|xs| - 1]);
      if xs[|xs| - 1] > m then xs[|xs| - 1] else m
  }
  /** The minimum is below every element and is one of them. */
  lemma {:induction false} SeqMinBounds(xs: seq<real>)
    requires |xs| > 0
    ensures forall k :: 0 <= k < |xs| ==> SeqMin(xs) <= xs[k]
    ensures exists k :: 0 <= k < |xs| && xs[k] == SeqMin(xs)
  {
    if |xs| == 1 {
      assert xs[0] == SeqMin(xs);
    } else {
      var init := xs[..|xs| - 1];
      SeqMinBounds(init);
      assert forall k :: 0 <= k < |init| ==> init[k] == xs[k];
      if xs[|xs| - 1] < SeqMin(init) {
        assert xs[|xs| - 1] == SeqMin(xs);
      } else {
        var k :| 0 <= k < |init| && init[k] == SeqMin(init);
        assert xs[k] == SeqMin(xs);
      }
    }
  }

  /** The maximum is above every element and is one of them. */
  lemma {:induction false} SeqMaxBounds(xs: seq<real>)
    requires |xs| > 0
    ensures forall k :: 0 <= k < |xs| ==> xs[k] <= SeqMax(xs)
    ensures exists k :: 0 <= k < |xs| && xs[k] == SeqMax(xs)
  {
    if |xs| == 1 {
      assert xs[0] == SeqMax(xs);
    } else {
      var init := xs[..|xs| - 1];
      SeqMaxBounds(init);
      assert forall k :: 0 <= k < |init| ==> init[k] == xs[k];
      if xs[|xs| - 1] > SeqMax(init) {
        assert xs[|xs| - 1] == SeqMax(xs);
      } else {
        var k :| 0 <= k < |init| && init[k] == SeqMax(init);
        assert xs[k] == SeqMax(xs);
      }
    }
  }


  /**
   * The `w` entries of `c` that end at row `i`, provided that row `i` exists,
   * at least `w` rows end there and every one of them is defined.
   */
  function Window(c: Column, i: int, w: Period): (r: Option<seq<real>>)
    ensures r.Some? <==> 0 <= i < |c| && i >= w - 1 && forall j :: i - w < j <= i ==> c[j].Some?
    ensures r.Some? ==> |r.value| == w && forall k :: 0 <= k < w ==> c[i - w + 1 + k] == Some(r.value[k])
  {
    if 0 <= i < |c| && i >= w - 1 && forall j :: i - w < j <= i ==> c[j].Some? then
      Some(seq(w, k requires 0 <= k < w => c[i - w + 1 + k].value))
    else
      None
  }

  /** The last `w` elements of `xs` up to row `i`. */
  function WindowOf(xs: seq<real>, i: nat, w: Period): (r: seq<real>)
    requires w - 1 <= i < |xs|
    ensures |r| == w
  {
    xs[i + 1 - w..i + 1]
  }

  /** Over a fully defined column, a window exists exactly from row `w - 1` on. */
  lemma WindowDefined(xs: seq<real>, i: nat, w: Period)
    requires i < |xs|
    ensures Window(Defined(xs), i, w).Some? <==> i >= w - 1
    ensures i >= w - 1 ==> Window(Defined(xs), i, w) == Some(WindowOf(xs, i, w))
  {
    if i >= w - 1 {
      assert Window(Defined(xs), i, w).value == WindowOf(xs, i, w);
    }
  }

  function RollingSum(c: Column, w: Period): (r: Column)
    ensures |r| == |c|
  {
    seq(|c|, i requires 0 <= i < |c| =>
      match Window(c, i, w)
      case Some(xs) => Some(Sum(xs))
      case None => None)
  }

  function RollingMean(c: Column, w: Period): (r: Column)
    ensures |r| == |c|
  {
    seq(|c|, i requires 0 <= i < |c| =>
      match Window(c, i, w)
      case Some(xs) => Some(Sum(xs) / w as real)
      case None => None)
  }

  function RollingMin(c: Column, w: Period): (r: Column)
    ensures |r| == |c|
  {
    seq(|c|, i requires 0 <= i < |c| =>
      match Window(c, i, w)
      case Some(xs) => Some(SeqMin(xs))
      case None => None)
  }

  function RollingMax(c: Column, w: Period): (r: Column)
    ensures |r| == |c|
  {
    seq(|c|, i requires 0 <= i < |c| =>
      match Window(c, i, w)
      case Some(xs) => Some(SeqMax(xs))
      case None => None)
  }

  // ---------------------------------------------------------------------------
  // Facts about sums, used by the range properties of the indicators.
  // ---------------------------------------------------------------------------

  /** A sum is bounded by its length times the bounds of its elements. */
  lemma {:induction false} SumBounds(xs: seq<real>, lo: real, hi: real)
    requires forall k :: 0 <= k < |xs| ==> lo <= xs[k] <= hi
    ensures lo * |xs| as real <= Sum(xs) <= hi * |xs| as real
  {
    if xs != [] {
      var n := |xs| - 1;
      SumBounds(xs[..n], lo, hi);
      SumLast(xs);
      AddProportionalBounds(lo, hi, n as real, Sum(xs[..n]), 1.0, xs[n], |xs| as real, Sum(xs));
    }
  }

  lemma {:induction false} SumNonNegative(xs: seq<real>)
    requires forall k :: 0 <= k < |xs| ==> 0.0 <= xs[k]
    ensures 0.0 <= Sum(xs)
  {
    if xs != [] {
      SumNonNegative(xs[..|xs| - 1]);
      SumLast(xs);
    }
  }

  /** A sum of non-negative elements is zero exactly when every element is zero. */
  lemma {:induction false} SumZero(xs: seq<real>)
    requires forall k :: 0 <= k < |xs| ==> 0.0 <= xs[k]
    ensures Sum(xs) == 0.0 <==> forall k :: 0 <= k < |xs| ==> xs[k] == 0.0
  {
    if xs != [] {
      var ys := xs[..|xs| - 1];
      SumZero(ys);
      SumNonNegative(ys);
      SumLast(xs);
    }
  }

  /** Element-wise domination carries over to the sums. */
  lemma {:induction false} SumMonotone(xs: seq<real>, ys: seq<real>)
    requires |xs| == |ys|
    requires forall k :: 0 <= k < |xs| ==> xs[k] <= ys[k]
    ensures Sum(xs) <= Sum(ys)
  {
    if xs != [] {
      SumMonotone(xs[..|xs| - 1], ys[..|ys| - 1]);
      SumLast(xs);
      SumLast(ys);
    }
  }

  /** A sum of a sequence scaled by a constant is the scaled sum. */
  lemma {:induction false} SumScaled(xs: seq<real>, ys: seq<real>, c: real)
    requires |xs| == |ys|
    requires forall k :: 0 <= k < |xs| ==> ys[k] == c * xs[k]
    ensures Sum(ys) == c * Sum(xs)
  {
    if xs != [] {
      var n := |xs| - 1;
      SumScaled(xs[..n], ys[..n], c);
      SumLast(xs);
      SumLast(ys);
      Distribute(c, Sum(xs[..n]), xs[n], Sum(xs));
    }
  }

  lemma {:induction false} SumConstant(xs: seq<real>, v: real)
    requires forall k :: 0 <= k < |xs| ==> xs[k] == v
    ensures Sum(xs) == v * |xs| as real
  {
    if xs != [] {
      var n := |xs| - 1;
      SumConstant(xs[..n], v);
      SumLast(xs);
      Distribute(v, n as real, 1.0, |xs| as real);
    }
  }

  /** Sums keep element-wise bounds proportional to a weight sequence. */
  lemma {:induction false} WeightedSumBounds(ws: seq<real>, zs: seq<real>, lo: real, hi: real)
    requires |ws| == |zs|
    requires forall k :: 0 <= k < |ws| ==> lo * ws[k] <= zs[k] <= hi * ws[k]
    ensures lo * Sum(ws) <= Sum(zs) <= hi * Sum(ws)
  {
    if ws != [] {
      var n := |ws| - 1;
      WeightedSumBounds(ws[..n], zs[..n], lo, hi);
      SumLast(ws);
      SumLast(zs);
      AddProportionalBounds(lo, hi, Sum(ws[..n]), Sum(zs[..n]), ws[n], zs[n], Sum(ws), Sum(zs));
    }
  }

  /** The mean of a full window lies between the window's bounds. */
  lemma MeanBounds(xs: seq<real>, lo: real, hi: real)
    requires |xs| > 0
    requires forall k :: 0 <= k < |xs| ==> lo <= xs[k] <= hi
    ensures lo <= Sum(xs) / |xs| as real <= hi
  {
    SumBounds(xs, lo, hi);
    QuotientBetween(Sum(xs), |xs| as real, lo, hi);
  }

  // ---------------------------------------------------------------------------
  // Arithmetic steps, each kept to the few facts it needs.
  // ---------------------------------------------------------------------------

  lemma Distribute(c: real, x: real, y: real, s: real)
    requires s == x + y
    ensures c * s == c * x + c * y
  {
  }

  /** Multiplying both sides of an inequality by a non-negative factor keeps it. */
  lemma ScaleLe(x: real, y: real, c: real)
    requires x <= y && 0.0 <= c
    ensures x * c <= y * c && c * x <= c * y
  {
    assert y * c - x * c == (y - x) * c;
    assert c * y - c * x == c * (y - x);
  }

  lemma QuotientNonNegative(x: real, d: real)
    requires 0.0 <= x && 0.0 < d
    ensures 0.0 <= x / d
  {
  }

  /** A positive value divided by a larger divisor gives a smaller positive quotient. */
  lemma QuotientOfLarger(x: real, d: real, k: real)
    requires 0.0 < x && 0.0 < k <= d
    ensures 0.0 < x / d <= x / k
  {
    var q, p := x / d, x / k;
    assert q * d == x && p * k == x;
    assert 0.0 < q;
    ScaleLe(k, d, q);
    assert (p - q) * k == x - q * k;
  }

  /** Proportional bounds on two pairs of terms carry over to their sums. */
  lemma AddProportionalBounds(lo: real, hi: real, w: real, z: real, a: real, b: real, sw: real, sz: real)
    requires lo * w <= z <= hi * w && lo * a <= b <= hi * a
    requires sw == w + a && sz == z + b
    ensures lo * sw <= sz <= hi * sw
  {
    assert lo * sw == lo * w + lo * a;
    assert hi * sw == hi * w + hi * a;
  }

  lemma QuotientBetween(s: real, n: real, lo: real, hi: real)
    requires n > 0.0 && lo * n <= s <= hi * n
    ensures lo <= s / n <= hi
  {
    var m := s / n;
    assert (m - lo) * n == s - lo * n;
    assert (hi - m) * n == hi * n - s;
  }

  /** A quotient whose numerator lies between `lo` and `hi` times its non-negative divisor. */
  lemma QuotientBounds(a: real, b: real, lo: real, hi: real)
    requires 0.0 <= b && lo * b <= a <= hi * b
    ensures Div(Some(a), Some(b)).None? <==> b == 0.0
    ensures Div(Some(a), Some(b)).Some? ==> lo <= Div(Some(a), Some(b)).value <= hi
  {
    if b != 0.0 {
      QuotientBetween(a, b, lo, hi);
    }
  }

  /** A common positive factor cancels in a quotient. */
  lemma CancelFactor(a: real, b: real, s: real, v: real, n: real)
    requires 0.0 < v && 0.0 < n && a == v * s && b == v * n
    ensures Div(Some(a), Some(b)) == Some(s / n)
  {
    var q := s / n;
    assert q * n == s;
    assert 0.0 < b;
    assert a == b * q;
    assert a / b == q;
  }

  /** The rolling extremes of a column without gaps, once `w` rows exist. */
  lemma RollingExtremaDefined(xs: seq<real>, i: nat, w: Period)
    requires i < |xs|
    ensures RollingMin(Defined(xs), w)[i] == if i >= w - 1 then Some(SeqMin(WindowOf(xs, i, w))) else None
    ensures RollingMax(Defined(xs), w)[i] == if i >= w - 1 then Some(SeqMax(WindowOf(xs, i, w))) else None
  {
    WindowDefined(xs, i, w);
  }

  // ---------------------------------------------------------------------------
  // Rolling windows keep the range of their input
  // ---------------------------------------------------------------------------

  /** Every defined value of `c` lies in `[lo, hi]`. */
  predicate Bounded(c: Column, lo: real, hi: real)
  {
    forall j :: 0 <= j < |c| && c[j].Some? ==> lo <= c[j].value <= hi
  }

  /** A rolling mean of values in `[lo, hi]` stays in `[lo, hi]`. */
  lemma RollingMeanBounded(c: Column, w: Period, lo: real, hi: real)
    requires Bounded(c, lo, hi)
    ensures Bounded(RollingMean(c, w), lo, hi)
  {
    forall i | 0 <= i < |c| && RollingMean(c, w)[i].Some?
      ensures lo <= RollingMean(c, w)[i].value <= hi
    {
      var xs := Window(c, i, w).value;
      forall k | 0 <= k < |xs|
        ensures lo <= xs[k] <= hi
      {
        assert c[i - w + 1 + k] == Some(xs[k]);
      }
      MeanBounds(xs, lo, hi);
    }
  }

  /** A row's own value lies between the rolling minimum and maximum that end at it. */
  lemma RollingExtremaEnclose(c: Column, w: Period, i: nat)
    requires i < |c| && RollingMin(c, w)[i].Some?
    ensures RollingMax(c, w)[i].Some? && c[i].Some?
    ensures RollingMin(c, w)[i].value <= c[i].value <= RollingMax(c, w)[i].value
  {
    var xs := Window(c, i, w).value;
    assert c[i] == Some(xs[w - 1]);
    SeqMinBounds(xs);
    SeqMaxBounds(xs);
  }
}
