/**
 * The cumulative column transforms of `QuantLogic`: anchored VWAP, cumulative
 * volume delta and on-balance volume. Each reads candle fields and yields a
 * column of the series' length.
 */
module Indicators {
  import opened Wrappers
  import opened Columns
  import opened Candles

  // ---------------------------------------------------------------------------
  // VWAP, anchored at the first candle of the series
  // ---------------------------------------------------------------------------

  /** `typical_price * volume` per candle. */
  function PriceVolume(cs: seq<Candle>): (r: seq<real>)
    ensures |r| == |cs|
  {
    seq(|cs|, i requires 0 <= i < |cs| => TypicalPrice(cs[i]) * cs[i].volume)
  }

  function Vwap(cs: seq<Candle>): (r: Column)
    ensures |r| == |cs|
  {
    var num := CumSum(PriceVolume(cs));
    var den := CumSum(Volumes(cs));
    seq(|cs|, i requires 0 <= i < |cs| => Div(Some(num[i]), Some(den[i])))
  }

  /** Row `i` of the VWAP divides the running price-volume sum by the running volume. */
  lemma VwapAt(cs: seq<Candle>, i: nat)
    requires i < |cs|
    ensures Vwap(cs)[i] == Div(Some(Sum(PriceVolume(cs)[..i + 1])), Some(Sum(Volumes(cs)[..i + 1])))
  {
  }

  /**
   * A sum of prices weighted by non-negative volumes, divided by the summed volume,
   * lies between the lowest and the highest price; it is undefined exactly when the
   * summed volume is zero.
   */
  lemma WeightedMeanBounds(xs: seq<real>, ws: seq<real>, zs: seq<real>, lo: real, hi: real)
    requires |xs| == |ws| == |zs|
    requires forall k :: 0 <= k < |xs| ==> lo <= xs[k] <= hi && 0.0 <= ws[k] && zs[k] == xs[k] * ws[k]
    ensures Div(Some(Sum(zs)), Some(Sum(ws))).None? <==> Sum(ws) == 0.0
    ensures Div(Some(Sum(zs)), Some(Sum(ws))).Some? ==> lo <= Div(Some(Sum(zs)), Some(Sum(ws))).value <= hi
  {
    WeightedTermBounds(xs, ws, zs, lo, hi);
    WeightedSumBounds(ws, zs, lo, hi);
    SumNonNegative(ws);
    QuotientBounds(Sum(zs), Sum(ws), lo, hi);
  }

  lemma WeightedTermBounds(xs: seq<real>, ws: seq<real>, zs: seq<real>, lo: real, hi: real)
    requires |xs| == |ws| == |zs|
    requires forall k :: 0 <= k < |xs| ==> lo <= xs[k] <= hi && 0.0 <= ws[k] && zs[k] == xs[k] * ws[k]
    ensures forall k :: 0 <= k < |ws| ==> lo * ws[k] <= zs[k] <= hi * ws[k]
  {
    forall k | 0 <= k < |ws| ensures lo * ws[k] <= zs[k] <= hi * ws[k] {
      ScaleLe(lo, xs[k], ws[k]);
      ScaleLe(xs[k], hi, ws[k]);
    }
  }

  /** With one positive weight throughout, the weighted mean is the plain mean. */
  lemma WeightedMeanConstant(xs: seq<real>, ws: seq<real>, zs: seq<real>, v: real, n: real)
    requires |xs| == |ws| == |zs| && 0.0 < v && n == |xs| as real && 0.0 < n
    requires forall k :: 0 <= k < |xs| ==> ws[k] == v && zs[k] == xs[k] * ws[k]
    ensures Div(Some(Sum(zs)), Some(Sum(ws))) == Some(Sum(xs) / n)
  {
    SumScaled(xs, zs, v);
    SumConstant(ws, v);
    CancelFactor(Sum(zs), Sum(ws), Sum(xs), v, n);
  }

  /**
   * Where it is defined, the VWAP at row `i` is a volume-weighted average: it lies
   * between the lowest and the highest typical price of rows `0..i`; it is
   * undefined exactly when the cumulative volume is zero.
   */
  lemma VwapIsAverage(cs: seq<Candle>, i: nat)
    requires i < |cs|
    requires forall k :: 0 <= k < |cs| ==> 0.0 <= cs[k].volume
    ensures Vwap(cs)[i].None? <==> Sum(Volumes(cs)[..i + 1]) == 0.0
    ensures Vwap(cs)[i].Some? ==>
      SeqMin(TypicalPrices(cs)[..i + 1]) <= Vwap(cs)[i].value <= SeqMax(TypicalPrices(cs)[..i + 1])
  {
    var tp, vs, pv := TypicalPrices(cs)[..i + 1], Volumes(cs)[..i + 1], PriceVolume(cs)[..i + 1];
    assert forall k :: 0 <= k < |tp| ==> SeqMin(tp) <= tp[k] <= SeqMax(tp) by {
      SeqMinBounds(tp);
      SeqMaxBounds(tp);
    }
    assert forall k :: 0 <= k < |tp| ==> 0.0 <= vs[k] && pv[k] == tp[k] * vs[k] by {
      forall k | 0 <= k < |tp|
        ensures 0.0 <= vs[k] && pv[k] == tp[k] * vs[k]
      {
        assert tp[k] == TypicalPrice(cs[k]) && vs[k] == cs[k].volume;
      }
    }
    VwapAt(cs, i);
    WeightedMeanBounds(tp, vs, pv, SeqMin(tp), SeqMax(tp));
  }

  /** With a constant positive volume the VWAP is the running mean of the typical price. */
  lemma VwapConstantVolume(cs: seq<Candle>, v: real, i: nat)
    requires i < |cs| && 0.0 < v
    requires forall k :: 0 <= k < |cs| ==> cs[k].volume == v
    ensures Vwap(cs)[i] == Some(Sum(TypicalPrices(cs)[..i + 1]) / (i + 1) as real)
  {
    VwapAt(cs, i);
    WeightedMeanConstant(TypicalPrices(cs)[..i + 1], Volumes(cs)[..i + 1], PriceVolume(cs)[..i + 1], v, (i + 1) as real);
  }

  // ---------------------------------------------------------------------------
  // CVD: taker sell volume, per-candle delta and its running sum
  // ---------------------------------------------------------------------------

  function TakerSellVol(cs: seq<Candle>): (r: seq<real>)
    ensures |r| == |cs|
  {
    seq(|cs|, i requires 0 <= i < |cs| => cs[i].volume - cs[i].takerBuyVol)
  }

  function Delta(cs: seq<Candle>): (r: seq<real>)
    ensures |r| == |cs|
  {
    var sell := TakerSellVol(cs);
    seq(|cs|, i requires 0 <= i < |cs| => cs[i].takerBuyVol - sell[i])
  }

  function Cvd(cs: seq<Candle>): (r: seq<real>)
    ensures |r| == |cs|
  {
    CumSum(Delta(cs))
  }

  /**
   * The delta is twice the taker buy volume less the volume, bounded by the volume
   * for a sound candle; the CVD starts at the first delta and then moves by exactly
   * one delta per row.
   */
  lemma CvdIsPrefixSum(cs: seq<Candle>, i: nat)
    requires i < |cs|
    ensures Delta(cs)[i] == 2.0 * cs[i].takerBuyVol - cs[i].volume
    ensures WellFormed(cs[i]) ==> -cs[i].volume <= Delta(cs)[i] <= cs[i].volume
    ensures Cvd(cs)[0] == Delta(cs)[0]
    ensures i > 0 ==> Cvd(cs)[i] - Cvd(cs)[i - 1] == Delta(cs)[i]
  {
    CumSumSteps(Delta(cs), i);
  }

  // ---------------------------------------------------------------------------
  // OBV
  // ---------------------------------------------------------------------------

  /** numpy `sign`. */
  function Sign(x: real): real
  {
    if x > 0.0 then 1.0 else if x < 0.0 then -1.0 else 0.0
  }

  /** `sign(close.diff()) * volume`, with row 0's NaN filled by 0. */
  function ObvSteps(cs: seq<Candle>): (r: seq<real>)
    ensures |r| == |cs|
  {
    seq(|cs|, i requires 0 <= i < |cs| =>
      if i == 0 then 0.0 else Sign(cs[i].close - cs[i - 1].close) * cs[i].volume)
  }

  function Obv(cs: seq<Candle>): (r: seq<real>)
    ensures |r| == |cs|
  {
    CumSum(ObvSteps(cs))
  }

  /**
   * OBV starts at zero and then adds the volume on an up-close, subtracts it on a
   * down-close and stays put on an unchanged close.
   */
  lemma ObvIsPrefixSum(cs: seq<Candle>, i: nat)
    requires i < |cs|
    ensures Obv(cs)[0] == 0.0
    ensures i > 0 && cs[i].close > cs[i - 1].close ==> Obv(cs)[i] == Obv(cs)[i - 1] + cs[i].volume
    ensures i > 0 && cs[i].close < cs[i - 1].close ==> Obv(cs)[i] == Obv(cs)[i - 1] - cs[i].volume
    ensures i > 0 && cs[i].close == cs[i - 1].close ==> Obv(cs)[i] == Obv(cs)[i - 1]
  {
    CumSumSteps(ObvSteps(cs), i);
  }
}
