/**
 * The trend transforms of `QuantLogic`: Bollinger Bands around a rolling mean of
 * closes, and MACD built from exponential moving averages.
 */
module Trend {
  import opened Wrappers
  import opened Columns
  import opened Candles

  const BollingerPeriod: Period := 20
  const BollingerWidth: real := 2.0
  const MacdFast: Period := 12
  const MacdSlow: Period := 26
  const MacdSignalSpan: Period := 9

  // ---------------------------------------------------------------------------
  // Bollinger Bands
  // ---------------------------------------------------------------------------

  /** The squared deviations of `xs` from `m`. */
  function SquaredDeviations(xs: seq<real>, m: real): (r: seq<real>)
    ensures |r| == |xs|
  {
    seq(|xs|, k requires 0 <= k < |xs| => (xs[k] - m) * (xs[k] - m))
  }

  /** Sample variance (one delta degree of freedom); undefined for fewer than two values. */
  function SampleVariance(xs: seq<real>): Option<real>
  {
    if |xs| < 2 then None
    else Some(Sum(SquaredDeviations(xs, Sum(xs) / |xs| as real)) / (|xs| - 1) as real)
  }

  /** The variance is defined from two values on and is never negative. */
  lemma VarianceNonNegative(xs: seq<real>)
    ensures SampleVariance(xs).Some? <==> |xs| >= 2
    ensures SampleVariance(xs).Some? ==> 0.0 <= SampleVariance(xs).value
  {
    if |xs| >= 2 {
      var sq := SquaredDeviations(xs, Sum(xs) / |xs| as real);
      forall k | 0 <= k < |sq|
        ensures 0.0 <= sq[k]
      {
        var d := xs[k] - Sum(xs) / |xs| as real;
        assert sq[k] == d * d;
      }
      SumNonNegative(sq);
      QuotientNonNegative(Sum(sq), (|xs| - 1) as real);
    }
  }

  /** Equal values have variance zero. */
  lemma VarianceOfConstant(xs: seq<real>, v: real)
    requires |xs| >= 2
    requires forall k :: 0 <= k < |xs| ==> xs[k] == v
    ensures SampleVariance(xs) == Some(0.0)
  {
    var n := |xs| as real;
    SumConstant(xs, v);
    assert Sum(xs) / n == v;
    var sq := SquaredDeviations(xs, v);
    assert forall k :: 0 <= k < |sq| ==> sq[k] == 0.0;
    SumConstant(sq, 0.0);
  }

  /** The rolling standard deviation; `root` stands for the square root. */
  function RollingStd(c: Column, w: Period, root: real -> real): (r: Column)
    ensures |r| == |c|
  {
    seq(|c|, i requires 0 <= i < |c| =>
      match Window(c, i, w)
      case Some(xs) => (match SampleVariance(xs) case Some(v) => Some(root(v)) case None => None)
      case None => None)
  }

  datatype Bands = Bands(mid: Column, upper: Column, lower: Column)

  /**
   * The middle band is the rolling mean of closes over `p` rows; the outer bands
   * lie `width` rolling standard deviations above and below it.
   */
  function Bollinger(cs: seq<Candle>, p: Period, width: real, root: real -> real): (b: Bands)
    ensures |b.mid| == |b.upper| == |b.lower| == |cs|
  {
    var closes := Defined(Closes(cs));
    var mid := RollingMean(closes, p);
    var sd := RollingStd(closes, p, root);
    Bands(mid,
          seq(|cs|, i requires 0 <= i < |cs| =>
            if mid[i].Some? && sd[i].Some? then Some(mid[i].value + sd[i].value * width) else None),
          seq(|cs|, i requires 0 <= i < |cs| =>
            if mid[i].Some? && sd[i].Some? then Some(mid[i].value - sd[i].value * width) else None))
  }

  /** A non-negative square root: what the bands need of `root`. */
  ghost predicate NonNegativeRoot(root: real -> real)
  {
    forall x :: 0.0 <= x ==> 0.0 <= root(x)
  }

  /**
   * The bands exist together, from row `p - 1` on and only for `p >= 2`; then the
   * lower band is at most the middle, the middle at most the upper, and both
   * outer bands are equally far from the middle.
   */
  lemma BollingerOrdered(cs: seq<Candle>, p: Period, width: real, root: real -> real, i: nat)
    requires 0.0 <= width && NonNegativeRoot(root) && i < |cs|
    ensures Bollinger(cs, p, width, root).upper[i].Some? <==> Bollinger(cs, p, width, root).lower[i].Some?
    ensures Bollinger(cs, p, width, root).upper[i].Some? <==> p >= 2 && i >= p - 1
    ensures Bollinger(cs, p, width, root).upper[i].Some? ==>
      var b := Bollinger(cs, p, width, root);
      && b.mid[i].Some?
      && b.lower[i].value <= b.mid[i].value <= b.upper[i].value
      && b.upper[i].value - b.mid[i].value == b.mid[i].value - b.lower[i].value
  {
    var closes := Defined(Closes(cs));
    var mid, sd := RollingMean(closes, p)[i], RollingStd(closes, p, root)[i];
    assert mid.Some? <==> i >= p - 1 by {
      WindowDefined(Closes(cs), i, p);
    }
    assert sd.Some? <==> p >= 2 && i >= p - 1 by {
      WindowDefined(Closes(cs), i, p);
      if i >= p - 1 {
        VarianceNonNegative(WindowOf(Closes(cs), i, p));
      }
    }
    if sd.Some? {
      assert 0.0 <= sd.value by {
        WindowDefined(Closes(cs), i, p);
        VarianceNonNegative(WindowOf(Closes(cs), i, p));
      }
      BandsAround(mid.value, sd.value, width);
    }
  }

  /** Bands `width` deviations either side of a middle value enclose it symmetrically. */
  lemma BandsAround(m: real, s: real, width: real)
    requires 0.0 <= s && 0.0 <= width
    ensures m - s * width <= m <= m + s * width
    ensures (m + s * width) - m == m - (m - s * width)
  {
    ScaleLe(0.0, s, width);
  }

  /** Over a window of equal closes the three bands meet, given `root(0) == 0`. */
  lemma BollingerFlat(cs: seq<Candle>, p: Period, width: real, root: real -> real, i: nat)
    requires root(0.0) == 0.0 && 2 <= p && p - 1 <= i < |cs|
    requires forall j :: i - p < j <= i ==> cs[j].close == cs[i].close
    ensures Bollinger(cs, p, width, root).mid[i] == Some(cs[i].close)
    ensures Bollinger(cs, p, width, root).upper[i] == Some(cs[i].close)
    ensures Bollinger(cs, p, width, root).lower[i] == Some(cs[i].close)
  {
    var xs, v := WindowOf(Closes(cs), i, p), cs[i].close;
    var closes := Defined(Closes(cs));
    assert Window(closes, i, p) == Some(xs) by {
      WindowDefined(Closes(cs), i, p);
    }
    assert forall k :: 0 <= k < |xs| ==> xs[k] == v;
    assert Sum(xs) / p as real == v by {
      SumConstant(xs, v);
      CancelProduct(v, p as real);
    }
    assert RollingMean(closes, p)[i] == Some(v);
    assert RollingStd(closes, p, root)[i] == Some(0.0) by {
      VarianceOfConstant(xs, v);
    }
    var b := Bollinger(cs, p, width, root);
    assert b.upper[i] == Some(v + 0.0 * width) && b.lower[i] == Some(v - 0.0 * width);
  }

  lemma CancelProduct(v: real, n: real)
    requires n != 0.0
    ensures v * n / n == v
  {
  }

  // ---------------------------------------------------------------------------
  // Exponential moving average and MACD
  // ---------------------------------------------------------------------------

  /** The smoothing factor of a span: `2 / (span + 1)`. */
  function Alpha(span: Period): (a: real)
    ensures 0.0 < a <= 1.0
  {
    QuotientOfLarger(2.0, span as real + 1.0, 2.0);
    2.0 / (span as real + 1.0)
  }

  /** The recursive (unadjusted) EMA: it starts at the first value and then blends. */
  function EmaFrom(xs: seq<real>, span: Period, i: nat): real
    requires i < |xs|
  {
    if i == 0 then xs[0] else (1.0 - Alpha(span)) * EmaFrom(xs, span, i - 1) + Alpha(span) * xs[i]
  }

  /** `ewm(span=span, adjust=False).mean()` over a column without gaps. */
  function Ema(xs: seq<real>, span: Period): (e: seq<real>)
    ensures |e| == |xs|
  {
    seq(|xs|, i requires 0 <= i < |xs| => EmaFrom(xs, span, i))
  }

  /** One step of the EMA: a blend of the previous EMA and the new value. */
  lemma EmaStep(xs: seq<real>, span: Period, i: nat)
    requires 0 < i < |xs|
    ensures Ema(xs, span)[i] == (1.0 - Alpha(span)) * Ema(xs, span)[i - 1] + Alpha(span) * xs[i]
  {
  }

  /** The EMA starts at the first value and moves `alpha` of the way toward each new one. */
  lemma EmaRecurrence(xs: seq<real>, span: Period, i: nat)
    requires i < |xs|
    ensures Ema(xs, span)[0] == xs[0]
    ensures i > 0 ==> Ema(xs, span)[i] == Ema(xs, span)[i - 1] + Alpha(span) * (xs[i] - Ema(xs, span)[i - 1])
  {
    if i > 0 {
      EmaStep(xs, span, i);
      Rebalance(Alpha(span), Ema(xs, span)[i - 1], xs[i]);
    }
  }

  lemma Rebalance(a: real, x: real, y: real)
    ensures (1.0 - a) * x + a * y == x + a * (y - x)
  {
  }

  /** Blending with the same weight preserves an ordering of both parts. */
  lemma BlendLe(a: real, x: real, y: real, x': real, y': real)
    requires 0.0 <= a <= 1.0 && x <= x' && y <= y'
    ensures (1.0 - a) * x + a * y <= (1.0 - a) * x' + a * y'
  {
    ScaleLe(x, x', 1.0 - a);
    assert (1.0 - a) * x <= (1.0 - a) * x';
    ScaleLe(y, y', a);
    assert a * y <= a * y';
    AddLe((1.0 - a) * x, (1.0 - a) * x', a * y, a * y');
  }

  lemma AddLe(p: real, q: real, r: real, s: real)
    requires p <= q && r <= s
    ensures p + r <= q + s
  {
  }

  lemma Split(a: real, v: real)
    ensures (1.0 - a) * v + a * v == v
  {
  }

  /** A convex blend of two values in `[lo, hi]` stays in `[lo, hi]`. */
  lemma BlendBetween(a: real, x: real, y: real, lo: real, hi: real, r: real)
    requires 0.0 <= a <= 1.0 && lo <= x <= hi && lo <= y <= hi && r == (1.0 - a) * x + a * y
    ensures lo <= r <= hi
  {
    BlendLe(a, lo, lo, x, y);
    Split(a, lo);
    BlendLe(a, x, y, hi, hi);
    Split(a, hi);
  }

  /** A step from a previous EMA and a new value both in `[lo, hi]` stays in `[lo, hi]`. */
  lemma EmaStepBounded(xs: seq<real>, span: Period, i: nat, lo: real, hi: real)
    requires 0 < i < |xs| && lo <= Ema(xs, span)[i - 1] <= hi && lo <= xs[i] <= hi
    ensures lo <= Ema(xs, span)[i] <= hi
  {
    EmaStep(xs, span, i);
    BlendBetween(Alpha(span), Ema(xs, span)[i - 1], xs[i], lo, hi, Ema(xs, span)[i]);
  }

  /** Each EMA value lies between the smallest and the largest input seen so far. */
  lemma {:induction false} EmaBounded(xs: seq<real>, span: Period, i: nat)
    requires i < |xs|
    ensures SeqMin(xs[..i + 1]) <= Ema(xs, span)[i] <= SeqMax(xs[..i + 1])
  {
    var lo, hi := SeqMin(xs[..i + 1]), SeqMax(xs[..i + 1]);
    assert lo <= xs[i] <= hi by {
      SeqMinBounds(xs[..i + 1]);
      SeqMaxBounds(xs[..i + 1]);
      assert xs[..i + 1][i] == xs[i];
    }
    if i == 0 {
      assert Ema(xs, span)[0] == xs[0];
    } else {
      var prev := Ema(xs, span)[i - 1];
      assert lo <= prev <= hi by {
        EmaBounded(xs, span, i - 1);
        assert xs[..i + 1][..i] == xs[..i];
      }
      EmaStepBounded(xs, span, i, lo, hi);
    }
  }

  /** The EMA of a constant input is that constant. */
  lemma EmaOfConstant(xs: seq<real>, span: Period, v: real, i: nat)
    requires i < |xs| && forall k :: 0 <= k < |xs| ==> xs[k] == v
    ensures Ema(xs, span)[i] == v
  {
    EmaBounded(xs, span, i);
    SeqMinBounds(xs[..i + 1]);
    SeqMaxBounds(xs[..i + 1]);
  }

  datatype MacdLines = MacdLines(macd: seq<real>, signal: seq<real>, hist: seq<real>)

  /**
   * MACD is the fast EMA of closes minus the slow one, its signal line the EMA of
   * MACD, and the histogram MACD minus signal.
   */
  function Macd(cs: seq<Candle>, fast: Period, slow: Period, signalSpan: Period): (r: MacdLines)
    ensures |r.macd| == |r.signal| == |r.hist| == |cs|
  {
    var f := Ema(Closes(cs), fast);
    var s := Ema(Closes(cs), slow);
    var m := seq(|cs|, i requires 0 <= i < |cs| => f[i] - s[i]);
    var sig := Ema(m, signalSpan);
    MacdLines(m, sig, seq(|cs|, i requires 0 <= i < |cs| => m[i] - sig[i]))
  }

  /**
   * The histogram is MACD minus its signal line, so it is positive exactly when
   * MACD is above the signal; and the signal stays within the range MACD has
   * taken so far.
   */
  lemma MacdHistogram(cs: seq<Candle>, fast: Period, slow: Period, signalSpan: Period, i: nat)
    requires i < |cs|
    ensures var r := Macd(cs, fast, slow, signalSpan);
      && r.hist[i] == r.macd[i] - r.signal[i]
      && (r.hist[i] > 0.0 <==> r.macd[i] > r.signal[i])
      && SeqMin(r.macd[..i + 1]) <= r.signal[i] <= SeqMax(r.macd[..i + 1])
  {
    var r := Macd(cs, fast, slow, signalSpan);
    EmaBounded(r.macd, signalSpan, i);
  }

  /** Flat closes give flat MACD: all three lines are zero. */
  lemma MacdOfFlatCloses(cs: seq<Candle>, fast: Period, slow: Period, signalSpan: Period, v: real, i: nat)
    requires i < |cs| && forall k :: 0 <= k < |cs| ==> cs[k].close == v
    ensures Macd(cs, fast, slow, signalSpan).macd[i] == 0.0
    ensures Macd(cs, fast, slow, signalSpan).signal[i] == 0.0
    ensures Macd(cs, fast, slow, signalSpan).hist[i] == 0.0
  {
    var r := Macd(cs, fast, slow, signalSpan);
    forall k | 0 <= k < |cs|
      ensures r.macd[k] == 0.0
    {
      EmaOfConstant(Closes(cs), fast, v, k);
      EmaOfConstant(Closes(cs), slow, v, k);
    }
    EmaOfConstant(r.macd, signalSpan, 0.0, i);
  }
}
