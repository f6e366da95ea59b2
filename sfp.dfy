/**
 * The swing-failure-pattern detector of `QuantLogic`: a candle that pierces the
 * extreme of the previous `window` candles but closes back inside it.
 */
module Sfp {
  import opened Wrappers
  import opened Columns
  import opened Candles

  const SfpWindow: Period := 5

  datatype Signal = BullishSfp | BearishSfp
  {
    /** The label written into the signal column. */
    function Text(): string
    {
      match this
      case BullishSfp => "Bullish SFP 🚀"
      case BearishSfp => "Bearish SFP 🔻"
    }
  }

  /** The lowest low of the `w` candles before each row. */
  function PriorLow(cs: seq<Candle>, w: Period): (r: Column)
    ensures |r| == |cs|
  {
    ShiftOne(RollingMin(Defined(Lows(cs)), w))
  }

  /** The highest high of the `w` candles before each row. */
  function PriorHigh(cs: seq<Candle>, w: Period): (r: Column)
    ensures |r| == |cs|
  {
    ShiftOne(RollingMax(Defined(Highs(cs)), w))
  }

  /** Rows whose low undercuts the prior low and whose close ends above it. */
  function BullMask(cs: seq<Candle>, w: Period): (m: seq<bool>)
    ensures |m| == |cs|
  {
    var prior := PriorLow(cs, w);
    seq(|cs|, i requires 0 <= i < |cs| =>
      prior[i].Some? && cs[i].low < prior[i].value && cs[i].close > prior[i].value)
  }

  /** Rows whose high overshoots the prior high and whose close ends below it. */
  function BearMask(cs: seq<Candle>, w: Period): (m: seq<bool>)
    ensures |m| == |cs|
  {
    var prior := PriorHigh(cs, w);
    seq(|cs|, i requires 0 <= i < |cs| =>
      prior[i].Some? && cs[i].high > prior[i].value && cs[i].close < prior[i].value)
  }

  /** The label a row ends with: the bearish write comes second and wins. */
  function Pick(bull: bool, bear: bool): Option<Signal>
  {
    if bear then Some(BearishSfp) else if bull then Some(BullishSfp) else None
  }

  /** The signal of row `i`. */
  function SignalAt(cs: seq<Candle>, w: Period, i: nat): Option<Signal>
    requires i < |cs|
  {
    Pick(BullMask(cs, w)[i], BearMask(cs, w)[i])
  }

  /**
   * The masked writes: starts from an empty column, writes the bullish label on
   * every row of `bull`, then the bearish label on every row of `bear`.
   */
  method WriteSignals(bull: seq<bool>, bear: seq<bool>) returns (signals: seq<Option<Signal>>)
    requires |bull| == |bear|
    ensures |signals| == |bull|
    ensures forall i :: 0 <= i < |bull| ==> signals[i] == Pick(bull[i], bear[i])
  {
    var column := new Option<Signal>[|bull|](_ => None);
    var i := 0;
    while i < |bull|
      invariant 0 <= i <= |bull|
      invariant forall k :: 0 <= k < i ==> column[k] == Pick(bull[k], false)
      invariant forall k :: i <= k < |bull| ==> column[k] == None
    {
      if bull[i] {
        column[i] := Some(BullishSfp);
      }
      i := i + 1;
    }
    i := 0;
    while i < |bear|
      invariant 0 <= i <= |bull|
      invariant forall k :: 0 <= k < i ==> column[k] == Pick(bull[k], bear[k])
      invariant forall k :: i <= k < |bull| ==> column[k] == Pick(bull[k], false)
    {
      if bear[i] {
        column[i] := Some(BearishSfp);
      }
      i := i + 1;
    }
    signals := column[..];
  }

  /** The signal column of a candle series. */
  method DetectSfp(cs: seq<Candle>, w: Period) returns (signals: seq<Option<Signal>>)
    ensures |signals| == |cs|
    ensures forall i :: 0 <= i < |cs| ==> signals[i] == SignalAt(cs, w, i)
  {
    signals := WriteSignals(BullMask(cs, w), BearMask(cs, w));
  }

  /** The prior low exists from row `w` on: the lowest of rows `i - w` to `i - 1`. */
  lemma PriorLowAt(cs: seq<Candle>, w: Period, i: nat)
    requires i < |cs|
    ensures PriorLow(cs, w)[i].Some? <==> i >= w
    ensures i >= w ==> PriorLow(cs, w)[i] == Some(SeqMin(WindowOf(Lows(cs), i - 1, w)))
  {
    if i > 0 {
      assert PriorLow(cs, w)[i] == RollingMin(Defined(Lows(cs)), w)[i - 1];
      RollingExtremaDefined(Lows(cs), i - 1, w);
    }
  }

  /** The prior high exists from row `w` on: the highest of rows `i - w` to `i - 1`. */
  lemma PriorHighAt(cs: seq<Candle>, w: Period, i: nat)
    requires i < |cs|
    ensures PriorHigh(cs, w)[i].Some? <==> i >= w
    ensures i >= w ==> PriorHigh(cs, w)[i] == Some(SeqMax(WindowOf(Highs(cs), i - 1, w)))
  {
    if i > 0 {
      assert PriorHigh(cs, w)[i] == RollingMax(Defined(Highs(cs)), w)[i - 1];
      RollingExtremaDefined(Highs(cs), i - 1, w);
    }
  }

  /** No row before `w` carries a signal. */
  lemma SignalWarmUp(cs: seq<Candle>, w: Period, i: nat)
    requires i < |cs| && i < w
    ensures SignalAt(cs, w, i) == None
  {
    PriorLowAt(cs, w, i);
    PriorHighAt(cs, w, i);
  }

  /**
   * A row is bearish exactly when its high exceeds the highest of the previous
   * `w` highs and its close ends below it; it is bullish exactly when its low
   * undercuts the lowest of the previous `w` lows, its close ends above it, and
   * it is not bearish.
   */
  lemma SignalExact(cs: seq<Candle>, w: Period, i: nat)
    requires w <= i < |cs|
    ensures SignalAt(cs, w, i) == Some(BearishSfp) <==>
      cs[i].close < SeqMax(WindowOf(Highs(cs), i - 1, w)) < cs[i].high
    ensures SignalAt(cs, w, i) == Some(BullishSfp) <==>
      cs[i].low < SeqMin(WindowOf(Lows(cs), i - 1, w)) < cs[i].close &&
      !(cs[i].close < SeqMax(WindowOf(Highs(cs), i - 1, w)) < cs[i].high)
  {
    PriorLowAt(cs, w, i);
    PriorHighAt(cs, w, i);
  }
}
