/**
 * The bounded oscillators of `QuantLogic`: RSI, MFI, Chaikin Money Flow and
 * Stochastic RSI. Each is a column of the candle series' length, `None` where
 * pandas would hold NaN.
 */
module Oscillators {
  import opened Wrappers
  import opened Columns
  import opened Candles

  const RsiPeriod: Period := 14
  const MfiPeriod: Period := 14
  const CmfPeriod: Period := 20
  const StochPeriod: Period := 14
  const StochSmoothK: Period := 3
  const StochSmoothD: Period := 3

  // ---------------------------------------------------------------------------
  // The shared `100 - 100 / (1 + up / down)` formula
  // ---------------------------------------------------------------------------

  /**
   * `100 - 100 / (1 + up / down)` in IEEE terms: `up / 0` with `up > 0` is +inf and
   * gives 100, `0 / 0` is NaN, and any NaN operand gives NaN. A ratio of exactly
   * -1 would divide by zero; it needs a negative operand, which no sound candle
   * series produces.
   */
  function RatioIndex(up: Option<real>, down: Option<real>): Option<real>
  {
    if up.None? || down.None? then None
    else if down.value == 0.0 then (if up.value == 0.0 then None else Some(100.0))
    else if 1.0 + up.value / down.value == 0.0 then None
    else Some(100.0 - 100.0 / (1.0 + up.value / down.value))
  }

  /**
   * Over non-negative averages the index lies in [0, 100]; it is undefined only
   * when both averages are zero, 100 when only the downward one is, and 0 when
   * only the upward one is.
   */
  lemma RatioIndexRange(up: real, down: real)
    requires 0.0 <= up && 0.0 <= down
    ensures RatioIndex(Some(up), Some(down)).None? <==> up == 0.0 && down == 0.0
    ensures RatioIndex(Some(up), Some(down)).Some? ==>
      0.0 <= RatioIndex(Some(up), Some(down)).value <= 100.0
    ensures down == 0.0 && up > 0.0 ==> RatioIndex(Some(up), Some(down)) == Some(100.0)
    ensures up == 0.0 && down > 0.0 ==> RatioIndex(Some(up), Some(down)) == Some(0.0)
  {
    if down > 0.0 {
      QuotientNonNegative(up, down);
      QuotientOfLarger(100.0, 1.0 + up / down, 1.0);
      if up == 0.0 {
        assert up / down == 0.0;
      }
    }
  }

  lemma IndexWhenNoDown(m: Option<real>, up: real, down: real)
    requires m == RatioIndex(Some(up), Some(down)) && 0.0 < up && down == 0.0
    ensures m == Some(100.0)
  {
  }

  lemma IndexWhenNoUp(m: Option<real>, up: real, down: real)
    requires m == RatioIndex(Some(up), Some(down)) && up == 0.0 && 0.0 < down
    ensures m == Some(0.0)
  {
    RatioIndexRange(up, down);
  }

  // ---------------------------------------------------------------------------
  // RSI
  // ---------------------------------------------------------------------------

  /** `delta.where(delta > 0, 0)`: the rise of each close, 0 on row 0 and on falls. */
  function Gains(cs: seq<Candle>): (r: seq<real>)
    ensures |r| == |cs|
  {
    seq(|cs|, i requires 0 <= i < |cs| =>
      if i > 0 && cs[i].close - cs[i - 1].close > 0.0 then cs[i].close - cs[i - 1].close else 0.0)
  }

  /** `-delta.where(delta < 0, 0)`: the drop of each close, 0 on row 0 and on rises. */
  function Losses(cs: seq<Candle>): (r: seq<real>)
    ensures |r| == |cs|
  {
    seq(|cs|, i requires 0 <= i < |cs| =>
      if i > 0 && cs[i].close - cs[i - 1].close < 0.0 then -(cs[i].close - cs[i - 1].close) else 0.0)
  }

  /** Simple-average RSI over `p` rows. */
  function Rsi(cs: seq<Candle>, p: Period): (r: Column)
    ensures |r| == |cs|
  {
    var gain := RollingMean(Defined(Gains(cs)), p);
    var loss := RollingMean(Defined(Losses(cs)), p);
    seq(|cs|, i requires 0 <= i < |cs| => RatioIndex(gain[i], loss[i]))
  }

  /** The close moved between row `j - 1` and row `j`. */
  predicate Moved(cs: seq<Candle>, j: int)
    requires 0 < j < |cs|
  {
    cs[j].close != cs[j - 1].close
  }

  /** The close rose between row `j - 1` and row `j`. */
  predicate Rose(cs: seq<Candle>, j: int)
    requires 0 < j < |cs|
  {
    cs[j - 1].close < cs[j].close
  }

  /** The close fell between row `j - 1` and row `j`. */
  predicate Fell(cs: seq<Candle>, j: int)
    requires 0 < j < |cs|
  {
    cs[j].close < cs[j - 1].close
  }

  /** The rolling averages of an RSI row, once `p` rows exist. */
  lemma RsiAt(cs: seq<Candle>, p: Period, i: nat)
    requires p - 1 <= i < |cs|
    ensures Rsi(cs, p)[i] == RatioIndex(Some(Sum(WindowOf(Gains(cs), i, p)) / p as real),
                                        Some(Sum(WindowOf(Losses(cs), i, p)) / p as real))
  {
    WindowDefined(Gains(cs), i, p);
    WindowDefined(Losses(cs), i, p);
  }

  /** RSI is undefined for the first `p - 1` rows. */
  lemma RsiWarmUp(cs: seq<Candle>, p: Period, i: nat)
    requires i < |cs| && i < p - 1
    ensures Rsi(cs, p)[i] == None
  {
    WindowDefined(Gains(cs), i, p);
  }

  lemma WindowNonNegative(xs: seq<real>, i: nat, p: Period)
    requires p - 1 <= i < |xs|
    requires forall k :: 0 <= k < |xs| ==> 0.0 <= xs[k]
    ensures 0.0 <= Sum(WindowOf(xs, i, p)) && 0.0 <= Sum(WindowOf(xs, i, p)) / p as real
    ensures Sum(WindowOf(xs, i, p)) == 0.0 <==> forall j :: i - p < j <= i ==> xs[j] == 0.0
    ensures Sum(WindowOf(xs, i, p)) / p as real == 0.0 <==>
      forall j :: i - p < j <= i ==> xs[j] == 0.0
  {
    var ws := WindowOf(xs, i, p);
    SumNonNegative(ws);
    SumZero(ws);
    assert forall j :: i - p < j <= i ==> xs[j] == ws[j - (i + 1 - p)];
  }

  /**
   * Every defined RSI value lies in [0, 100], and from row `p - 1` on it is
   * defined exactly when some close in the window moved.
   */
  lemma RsiRange(cs: seq<Candle>, p: Period, i: nat)
    requires i < |cs|
    ensures Rsi(cs, p)[i].Some? ==> 0.0 <= Rsi(cs, p)[i].value <= 100.0
    ensures Rsi(cs, p)[i].Some? <==> i >= p - 1 && exists j :: i - p < j <= i && 0 < j && Moved(cs, j)
  {
    if i < p - 1 {
      RsiWarmUp(cs, p, i);
    } else {
      var up, down := Sum(WindowOf(Gains(cs), i, p)) / p as real, Sum(WindowOf(Losses(cs), i, p)) / p as real;
      assert 0.0 <= up && 0.0 <= down by {
        WindowNonNegative(Gains(cs), i, p);
        WindowNonNegative(Losses(cs), i, p);
      }
      assert up == 0.0 && down == 0.0 <==> !exists j :: i - p < j <= i && 0 < j && Moved(cs, j) by {
        StillWindow(cs, p, i);
      }
      RsiAt(cs, p, i);
      RatioIndexRange(up, down);
    }
  }

  /** Both mean moves over a window vanish exactly when no close in it moved. */
  lemma StillWindow(cs: seq<Candle>, p: Period, i: nat)
    requires p - 1 <= i < |cs|
    ensures (Sum(WindowOf(Gains(cs), i, p)) / p as real == 0.0 && Sum(WindowOf(Losses(cs), i, p)) / p as real == 0.0)
      <==> !exists j :: i - p < j <= i && 0 < j && Moved(cs, j)
  {
    WindowNonNegative(Gains(cs), i, p);
    WindowNonNegative(Losses(cs), i, p);
    forall j | 0 < j < |cs|
      ensures Moved(cs, j) <==> Gains(cs)[j] != 0.0 || Losses(cs)[j] != 0.0
    {
    }
  }

  lemma NoRiseNoGain(cs: seq<Candle>, p: Period, i: nat)
    requires p - 1 <= i < |cs|
    requires forall j :: i - p < j <= i && 0 < j ==> !Rose(cs, j)
    ensures Sum(WindowOf(Gains(cs), i, p)) / p as real == 0.0
  {
    forall j | i - p < j <= i
      ensures Gains(cs)[j] == 0.0
    {
      if 0 < j {
        assert !Rose(cs, j);
      }
    }
    WindowNonNegative(Gains(cs), i, p);
  }

  lemma NoFallNoLoss(cs: seq<Candle>, p: Period, i: nat)
    requires p - 1 <= i < |cs|
    requires forall j :: i - p < j <= i && 0 < j ==> !Fell(cs, j)
    ensures Sum(WindowOf(Losses(cs), i, p)) / p as real == 0.0
  {
    forall j | i - p < j <= i
      ensures Losses(cs)[j] == 0.0
    {
      if 0 < j {
        assert !Fell(cs, j);
      }
    }
    WindowNonNegative(Losses(cs), i, p);
  }

  lemma RiseGivesGain(cs: seq<Candle>, p: Period, i: nat, j: int)
    requires p - 1 <= i < |cs| && i - p < j <= i && 0 < j && Rose(cs, j)
    ensures 0.0 < Sum(WindowOf(Gains(cs), i, p)) / p as real
  {
    assert Gains(cs)[j] != 0.0;
    WindowNonNegative(Gains(cs), i, p);
  }

  lemma FallGivesLoss(cs: seq<Candle>, p: Period, i: nat, j: int)
    requires p - 1 <= i < |cs| && i - p < j <= i && 0 < j && Fell(cs, j)
    ensures 0.0 < Sum(WindowOf(Losses(cs), i, p)) / p as real
  {
    assert Losses(cs)[j] != 0.0;
    WindowNonNegative(Losses(cs), i, p);
  }

  /** A window whose closes rose at least once and never fell gives RSI 100. */
  lemma RsiAllRises(cs: seq<Candle>, p: Period, i: nat)
    requires p - 1 <= i < |cs|
    requires forall j :: i - p < j <= i && 0 < j ==> !Fell(cs, j)
    requires exists j :: i - p < j <= i && 0 < j && Rose(cs, j)
    ensures Rsi(cs, p)[i] == Some(100.0)
  {
    var up, down := Sum(WindowOf(Gains(cs), i, p)) / p as real, Sum(WindowOf(Losses(cs), i, p)) / p as real;
    assert 0.0 < up by {
      var j :| i - p < j <= i && 0 < j && Rose(cs, j);
      RiseGivesGain(cs, p, i, j);
    }
    assert down == 0.0 by {
      NoFallNoLoss(cs, p, i);
    }
    RsiAt(cs, p, i);
    IndexWhenNoDown(Rsi(cs, p)[i], up, down);
  }

  /** A window whose closes fell at least once and never rose gives RSI 0. */
  lemma RsiAllFalls(cs: seq<Candle>, p: Period, i: nat)
    requires p - 1 <= i < |cs|
    requires forall j :: i - p < j <= i && 0 < j ==> !Rose(cs, j)
    requires exists j :: i - p < j <= i && 0 < j && Fell(cs, j)
    ensures Rsi(cs, p)[i] == Some(0.0)
  {
    var up, down := Sum(WindowOf(Gains(cs), i, p)) / p as real, Sum(WindowOf(Losses(cs), i, p)) / p as real;
    assert 0.0 < down by {
      var j :| i - p < j <= i && 0 < j && Fell(cs, j);
      FallGivesLoss(cs, p, i, j);
    }
    assert up == 0.0 by {
      NoRiseNoGain(cs, p, i);
    }
    RsiAt(cs, p, i);
    IndexWhenNoUp(Rsi(cs, p)[i], up, down);
  }

  // ---------------------------------------------------------------------------
  // MFI
  // ---------------------------------------------------------------------------

  /** The money flow of a candle: typical price times volume. */
  function MoneyFlow(c: Candle): real
  {
    TypicalPrice(c) * c.volume
  }

  /** The money flow of the rows whose typical price rose; 0 elsewhere and on row 0. */
  function PositiveFlow(cs: seq<Candle>): (r: seq<real>)
    ensures |r| == |cs|
  {
    seq(|cs|, i requires 0 <= i < |cs| =>
      if i > 0 && TypicalPrice(cs[i]) - TypicalPrice(cs[i - 1]) > 0.0 then MoneyFlow(cs[i]) else 0.0)
  }

  /** The money flow of the rows whose typical price fell; 0 elsewhere and on row 0. */
  function NegativeFlow(cs: seq<Candle>): (r: seq<real>)
    ensures |r| == |cs|
  {
    seq(|cs|, i requires 0 <= i < |cs| =>
      if i > 0 && TypicalPrice(cs[i]) - TypicalPrice(cs[i - 1]) < 0.0 then MoneyFlow(cs[i]) else 0.0)
  }

  /** Money Flow Index over `p` rows: the RSI formula on summed flows. */
  function Mfi(cs: seq<Candle>, p: Period): (r: Column)
    ensures |r| == |cs|
  {
    var pos := RollingSum(Defined(PositiveFlow(cs)), p);
    var neg := RollingSum(Defined(NegativeFlow(cs)), p);
    seq(|cs|, i requires 0 <= i < |cs| => RatioIndex(pos[i], neg[i]))
  }

  lemma MfiAt(cs: seq<Candle>, p: Period, i: nat)
    requires i < |cs|
    ensures i < p - 1 ==> Mfi(cs, p)[i] == None
    ensures p - 1 <= i ==> Mfi(cs, p)[i] == RatioIndex(Some(Sum(WindowOf(PositiveFlow(cs), i, p))),
                                                       Some(Sum(WindowOf(NegativeFlow(cs), i, p))))
  {
    WindowDefined(PositiveFlow(cs), i, p);
    WindowDefined(NegativeFlow(cs), i, p);
  }

  /** The typical price rose between row `j - 1` and row `j`. */
  predicate TypicalRose(cs: seq<Candle>, j: int)
    requires 0 < j < |cs|
  {
    TypicalPrice(cs[j - 1]) < TypicalPrice(cs[j])
  }

  /** The typical price fell between row `j - 1` and row `j`. */
  predicate TypicalFell(cs: seq<Candle>, j: int)
    requires 0 < j < |cs|
  {
    TypicalPrice(cs[j]) < TypicalPrice(cs[j - 1])
  }

  /** The typical price moved between row `j - 1` and row `j` on positive volume. */
  predicate FlowMoved(cs: seq<Candle>, j: int)
    requires 0 < j < |cs|
  {
    TypicalPrice(cs[j]) != TypicalPrice(cs[j - 1]) && cs[j].volume > 0.0
  }

  lemma FlowsNonNegative(cs: seq<Candle>)
    requires WellFormedSeries(cs)
    ensures forall k :: 0 <= k < |cs| ==> 0.0 <= PositiveFlow(cs)[k] && 0.0 <= NegativeFlow(cs)[k]
    ensures forall k :: 0 < k < |cs| ==>
      (FlowMoved(cs, k) <==> PositiveFlow(cs)[k] != 0.0 || NegativeFlow(cs)[k] != 0.0)
  {
    forall k | 0 <= k < |cs|
      ensures 0.0 <= MoneyFlow(cs[k])
      ensures MoneyFlow(cs[k]) == 0.0 <==> cs[k].volume == 0.0
    {
      assert WellFormed(cs[k]);
      assert 0.0 < TypicalPrice(cs[k]);
    }
  }

  /**
   * Over well-formed candles every defined MFI value lies in [0, 100], and from
   * row `p - 1` on it is defined exactly when some row of the window moved the
   * typical price on positive volume.
   */
  lemma MfiRange(cs: seq<Candle>, p: Period, i: nat)
    requires WellFormedSeries(cs) && i < |cs|
    ensures Mfi(cs, p)[i].Some? ==> 0.0 <= Mfi(cs, p)[i].value <= 100.0
    ensures Mfi(cs, p)[i].Some? <==> i >= p - 1 && exists j :: i - p < j <= i && 0 < j && FlowMoved(cs, j)
  {
    MfiAt(cs, p, i);
    if p - 1 <= i {
      FlowsNonNegative(cs);
      WindowNonNegative(PositiveFlow(cs), i, p);
      WindowNonNegative(NegativeFlow(cs), i, p);
      RatioIndexRange(Sum(WindowOf(PositiveFlow(cs), i, p)), Sum(WindowOf(NegativeFlow(cs), i, p)));
    }
  }

  lemma NoDropNoOutflow(cs: seq<Candle>, p: Period, i: nat)
    requires WellFormedSeries(cs) && p - 1 <= i < |cs|
    requires forall j :: i - p < j <= i && 0 < j ==> !TypicalFell(cs, j)
    ensures Sum(WindowOf(NegativeFlow(cs), i, p)) == 0.0
  {
    FlowsNonNegative(cs);
    forall j | i - p < j <= i
      ensures NegativeFlow(cs)[j] == 0.0
    {
      if 0 < j {
        assert !TypicalFell(cs, j);
      }
    }
    WindowNonNegative(NegativeFlow(cs), i, p);
  }

  lemma RiseGivesInflow(cs: seq<Candle>, p: Period, i: nat, j: int)
    requires WellFormedSeries(cs) && p - 1 <= i < |cs|
    requires i - p < j <= i && 0 < j && TypicalRose(cs, j) && cs[j].volume > 0.0
    ensures 0.0 < Sum(WindowOf(PositiveFlow(cs), i, p))
  {
    FlowsNonNegative(cs);
    assert FlowMoved(cs, j);
    WindowNonNegative(PositiveFlow(cs), i, p);
  }

  /**
   * Over well-formed candles, a window in which the typical price never fell and
   * rose at least once on positive volume gives MFI 100.
   */
  lemma MfiAllInflow(cs: seq<Candle>, p: Period, i: nat)
    requires WellFormedSeries(cs) && p - 1 <= i < |cs|
    requires forall j :: i - p < j <= i && 0 < j ==> !TypicalFell(cs, j)
    requires exists j :: i - p < j <= i && 0 < j && TypicalRose(cs, j) && cs[j].volume > 0.0
    ensures Mfi(cs, p)[i] == Some(100.0)
  {
    var up, down := Sum(WindowOf(PositiveFlow(cs), i, p)), Sum(WindowOf(NegativeFlow(cs), i, p));
    assert 0.0 < up by {
      var j :| i - p < j <= i && 0 < j && TypicalRose(cs, j) && cs[j].volume > 0.0;
      RiseGivesInflow(cs, p, i, j);
    }
    assert down == 0.0 by {
      NoDropNoOutflow(cs, p, i);
    }
    MfiAt(cs, p, i);
    IndexWhenNoDown(Mfi(cs, p)[i], up, down);
  }

  // ---------------------------------------------------------------------------
  // Chaikin Money Flow
  // ---------------------------------------------------------------------------

  /**
   * `((close - low) - (high - close)) / (high - low)`; a candle with
   * `high == low` has none (its IEEE value is NaN or an infinity).
   */
  function Multiplier(c: Candle): Option<real>
  {
    if c.high == c.low then None
    else Some(((c.close - c.low) - (c.high - c.close)) / (c.high - c.low))
  }

  /** The money flow volume: multiplier times volume. */
  function FlowVolume(cs: seq<Candle>): (r: Column)
    ensures |r| == |cs|
  {
    seq(|cs|, i requires 0 <= i < |cs| =>
      match Multiplier(cs[i])
      case Some(m) => Some(m * cs[i].volume)
      case None => None)
  }

  /** Chaikin Money Flow over `p` rows: summed flow volume over summed volume. */
  function Cmf(cs: seq<Candle>, p: Period): (r: Column)
    ensures |r| == |cs|
  {
    var flow := RollingSum(FlowVolume(cs), p);
    var volume := RollingSum(Defined(Volumes(cs)), p);
    seq(|cs|, i requires 0 <= i < |cs| => Div(flow[i], volume[i]))
  }

  /** The multiplier of a well-formed candle with a range lies in [-1, 1]. */
  lemma MultiplierRange(c: Candle)
    requires WellFormed(c) && c.high != c.low
    ensures -1.0 <= Multiplier(c).value <= 1.0
  {
    QuotientBetween((c.close - c.low) - (c.high - c.close), c.high - c.low, -1.0, 1.0);
  }

  lemma FlowVolumeBounds(cs: seq<Candle>, k: nat)
    requires WellFormedSeries(cs) && k < |cs| && FlowVolume(cs)[k].Some?
    ensures -1.0 * cs[k].volume <= FlowVolume(cs)[k].value <= 1.0 * cs[k].volume
  {
    var c := cs[k];
    assert WellFormed(c) && c.high != c.low;
    MultiplierRange(c);
    var m := Multiplier(c).value;
    assert FlowVolume(cs)[k].value == m * c.volume;
    ScaleLe(-1.0, m, c.volume);
    ScaleLe(m, 1.0, c.volume);
  }

  /**
   * A candle with `high == low` leaves CMF undefined on its own row and on the
   * `p - 1` rows after it, since every window containing it has a NaN sum.
   */
  lemma CmfFlatCandle(cs: seq<Candle>, p: Period, j: nat, i: nat)
    requires j <= i < |cs| && i < j + p && cs[j].high == cs[j].low
    ensures Cmf(cs, p)[i] == None
  {
    assert FlowVolume(cs)[j] == None;
  }

  /** The flow-volume window of row `i` exists when `p` rows exist and none is a `high == low` candle. */
  lemma FlowWindowDefined(cs: seq<Candle>, p: Period, i: nat)
    requires i < |cs|
    ensures Window(FlowVolume(cs), i, p).Some? <==>
      i >= p - 1 && forall j :: i - p < j <= i ==> cs[j].high != cs[j].low
  {
    assert forall j :: 0 <= j < |cs| ==> (FlowVolume(cs)[j].Some? <==> cs[j].high != cs[j].low);
  }

  /** Summed flow volume is bounded by plus or minus summed volume. */
  lemma FlowWindowBounds(cs: seq<Candle>, p: Period, i: nat)
    requires WellFormedSeries(cs) && p - 1 <= i < |cs| && Window(FlowVolume(cs), i, p).Some?
    ensures 0.0 <= Sum(WindowOf(Volumes(cs), i, p))
    ensures -1.0 * Sum(WindowOf(Volumes(cs), i, p)) <= Sum(Window(FlowVolume(cs), i, p).value)
                                                 <= 1.0 * Sum(WindowOf(Volumes(cs), i, p))
  {
    var vs := WindowOf(Volumes(cs), i, p);
    var fs := Window(FlowVolume(cs), i, p).value;
    forall k | 0 <= k < p
      ensures -1.0 * vs[k] <= fs[k] <= 1.0 * vs[k]
    {
      FlowVolumeBounds(cs, i - p + 1 + k);
    }
    forall k | 0 <= k < p
      ensures 0.0 <= vs[k]
    {
      assert WellFormed(cs[i - p + 1 + k]);
    }
    WeightedSumBounds(vs, fs, -1.0, 1.0);
    SumNonNegative(vs);
  }

  /**
   * Over well-formed candles every defined CMF value lies in [-1, 1]; it is
   * defined exactly when the window is full, holds no `high == low` candle and
   * has positive total volume.
   */
  lemma CmfRange(cs: seq<Candle>, p: Period, i: nat)
    requires WellFormedSeries(cs) && i < |cs|
    ensures Cmf(cs, p)[i].Some? ==> -1.0 <= Cmf(cs, p)[i].value <= 1.0
    ensures Cmf(cs, p)[i].Some? <==>
      i >= p - 1 && (forall j :: i - p < j <= i ==> cs[j].high != cs[j].low) &&
      Sum(WindowOf(Volumes(cs), i, p)) != 0.0
  {
    CmfAt(cs, p, i);
    if Cmf(cs, p)[i].Some? {
      var f, v := Sum(Window(FlowVolume(cs), i, p).value), Sum(WindowOf(Volumes(cs), i, p));
      assert 0.0 <= v && -1.0 * v <= f <= 1.0 * v by {
        FlowWindowBounds(cs, p, i);
      }
      QuotientBounds(f, v, -1.0, 1.0);
    }
  }

  /** Where CMF is defined it is the quotient of the two window sums. */
  lemma CmfAt(cs: seq<Candle>, p: Period, i: nat)
    requires i < |cs|
    ensures Cmf(cs, p)[i].Some? <==>
      i >= p - 1 && (forall j :: i - p < j <= i ==> cs[j].high != cs[j].low) &&
      Sum(WindowOf(Volumes(cs), i, p)) != 0.0
    ensures Cmf(cs, p)[i].Some? ==>
      && p - 1 <= i
      && Window(FlowVolume(cs), i, p).Some?
      && Cmf(cs, p)[i] == Div(Some(Sum(Window(FlowVolume(cs), i, p).value)), Some(Sum(WindowOf(Volumes(cs), i, p))))
  {
    WindowDefined(Volumes(cs), i, p);
    FlowWindowDefined(cs, p, i);
  }

  // ---------------------------------------------------------------------------
  // Stochastic RSI
  // ---------------------------------------------------------------------------

  /** `x * k`, NaN staying NaN. */
  function Scale(x: Option<real>, k: real): Option<real>
  {
    match x
    case Some(v) => Some(v * k)
    case None => None
  }

  /**
   * Where `v` sits between `lo` and `hi`, in percent: `(v - lo) / (hi - lo) * 100`,
   * undefined when `lo == hi` (`0 / 0`) or when any operand is.
   */
  function Position(v: Option<real>, lo: Option<real>, hi: Option<real>): Option<real>
  {
    if v.Some? && lo.Some? && hi.Some?
    then Scale(Div(Some(v.value - lo.value), Some(hi.value - lo.value)), 100.0)
    else None
  }

  /** The position of each value among its last `p` values. */
  function Stoch(c: Column, p: Period): (r: Column)
    ensures |r| == |c|
  {
    seq(|c|, i requires 0 <= i < |c| => Position(c[i], RollingMin(c, p)[i], RollingMax(c, p)[i]))
  }

  datatype StochLines = StochLines(k: Column, d: Column)

  /** `%K` is the stochastic of RSI smoothed over `smoothK` rows, `%D` is `%K` smoothed over `smoothD`. */
  function StochRsi(cs: seq<Candle>, p: Period, smoothK: Period, smoothD: Period): (r: StochLines)
    ensures |r.k| == |r.d| == |cs|
  {
    var k := RollingMean(Stoch(Rsi(cs, p), p), smoothK);
    StochLines(k, RollingMean(k, smoothD))
  }

  /** A value between `lo` and `hi` has a position in [0, 100], defined exactly when `lo != hi`. */
  lemma PositionRange(v: real, lo: real, hi: real)
    requires lo <= v <= hi
    ensures Position(Some(v), Some(lo), Some(hi)).Some? <==> lo != hi
    ensures Position(Some(v), Some(lo), Some(hi)).Some? ==>
      0.0 <= Position(Some(v), Some(lo), Some(hi)).value <= 100.0
  {
    QuotientBounds(v - lo, hi - lo, 0.0, 1.0);
  }

  lemma StochAt(c: Column, p: Period, i: nat)
    requires i < |c| && Stoch(c, p)[i].Some?
    ensures 0.0 <= Stoch(c, p)[i].value <= 100.0
    ensures RollingMin(c, p)[i].Some? && RollingMin(c, p)[i] != RollingMax(c, p)[i]
  {
    RollingExtremaEnclose(c, p, i);
    PositionRange(c[i].value, RollingMin(c, p)[i].value, RollingMax(c, p)[i].value);
  }

  /**
   * The stochastic of any column is a percentage, and it is defined only where the
   * window is not flat.
   */
  lemma StochRange(c: Column, p: Period)
    ensures Bounded(Stoch(c, p), 0.0, 100.0)
    ensures forall i :: 0 <= i < |c| && Stoch(c, p)[i].Some? ==>
      RollingMin(c, p)[i].Some? && RollingMin(c, p)[i] != RollingMax(c, p)[i]
  {
    forall i | 0 <= i < |c| && Stoch(c, p)[i].Some?
      ensures 0.0 <= Stoch(c, p)[i].value <= 100.0
      ensures RollingMin(c, p)[i].Some? && RollingMin(c, p)[i] != RollingMax(c, p)[i]
    {
      StochAt(c, p, i);
    }
  }

  /** Both Stochastic RSI lines stay within [0, 100]. */
  lemma StochRsiRange(cs: seq<Candle>, p: Period, smoothK: Period, smoothD: Period)
    ensures Bounded(StochRsi(cs, p, smoothK, smoothD).k, 0.0, 100.0)
    ensures Bounded(StochRsi(cs, p, smoothK, smoothD).d, 0.0, 100.0)
  {
    var stoch := Stoch(Rsi(cs, p), p);
    StochRange(Rsi(cs, p), p);
    RollingMeanBounded(stoch, smoothK, 0.0, 100.0);
    RollingMeanBounded(RollingMean(stoch, smoothK), smoothD, 0.0, 100.0);
  }
}
