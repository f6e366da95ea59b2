/**
 * The technical summary of the latest candle: divergence signals and six
 * indicator rules each add a signal and move an integer score, the score is
 * mapped to one of five sentiment tiers with a display colour, and the signals
 * are returned without duplicates, in first-occurrence order.
 */
module Summary {
  import opened Wrappers
  import opened Columns
  import Divergence

  const RsiOversold: real := 30.0
  const RsiOverbought: real := 70.0
  const CmfInflow: real := 0.05
  const CmfOutflow: real := -0.05
  const StochOversold: real := 20.0
  const StochOverbought: real := 80.0

  // Signal texts of the six rules
  const VwapAbove: string := "Price > VWAP (Bullish Trend)"
  const VwapBelow: string := "Price < VWAP (Bearish Trend)"
  const RsiLow: string := "RSI Oversold (Bullish Reversal Potential)"
  const RsiHigh: string := "RSI Overbought (Bearish Reversal Potential)"
  const CmfPositive: string := "CMF Positive (Inflow)"
  const CmfNegative: string := "CMF Negative (Outflow)"
  const MacdAbove: string := "MACD Bullish Crossover"
  const MacdBelow: string := "MACD Bearish Crossover"
  const BandLow: string := "Price Below BB Lower (Oversold)"
  const BandHigh: string := "Price Above BB Upper (Overbought)"
  const StochUp: string := "Stoch RSI Oversold & Crossing Up"
  const StochDown: string := "Stoch RSI Overbought & Crossing Down"

  // Sentiment labels
  const StrongBullishLabel: string := "STRONG BULLISH 🚀"
  const BullishLabel: string := "BULLISH 🟢"
  const NeutralLabel: string := "NEUTRAL ⚖️"
  const BearishLabel: string := "BEARISH 🔴"
  const StrongBearishLabel: string := "STRONG BEARISH 🩸"

  // ---------------------------------------------------------------------------
  // Input and output
  // ---------------------------------------------------------------------------

  /**
   * The indicator frame the summary reads: prices and the derived columns. The
   * rules read every column but `mfi`, which only the divergence detector
   * examines, and only when the frame has it.
   */
  datatype Frame = Frame(
    high: seq<real>, low: seq<real>, close: seq<real>,
    vwap: Column, rsi: Column, mfi: Option<Column>, cmf: Column,
    macd: Column, macdSignal: Column, bbUpper: Column, bbLower: Column,
    stochK: Column, stochD: Column)
  {
    /** Every column has one row per candle. */
    predicate Valid()
    {
      && |high| == |close| && |low| == |close|
      && |vwap| == |close| && |rsi| == |close| && (mfi.Some? ==> |mfi.value| == |close|) && |cmf| == |close|
      && |macd| == |close| && |macdSignal| == |close| && |bbUpper| == |close| && |bbLower| == |close|
      && |stochK| == |close| && |stochD| == |close|
    }

    /** The oscillator columns the frame has, for the divergence detector. */
    function Oscillators(): map<Divergence.Oscillator, Column>
    {
      var cols := map[Divergence.Rsi := rsi, Divergence.Cmf := cmf, Divergence.Macd := macd];
      if mfi.Some? then cols[Divergence.Mfi := mfi.value] else cols
    }
  }

  /** The values of the last row that the rules compare. */
  datatype Row = Row(
    close: real, vwap: Option<real>, rsi: Option<real>, cmf: Option<real>,
    macd: Option<real>, macdSignal: Option<real>, bbUpper: Option<real>, bbLower: Option<real>,
    stochK: Option<real>, stochD: Option<real>)

  function LastRow(f: Frame): Row
    requires f.Valid() && |f.close| > 0
  {
    var n := |f.close| - 1;
    Row(f.close[n], f.vwap[n], f.rsi[n], f.cmf[n], f.macd[n], f.macdSignal[n],
        f.bbUpper[n], f.bbLower[n], f.stochK[n], f.stochD[n])
  }

  datatype Sentiment = StrongBullish | Bullish | Neutral | Bearish | StrongBearish
  {
    function Label(): string
    {
      match this
      case StrongBullish => StrongBullishLabel
      case Bullish => BullishLabel
      case Neutral => NeutralLabel
      case Bearish => BearishLabel
      case StrongBearish => StrongBearishLabel
    }

    function Color(): string
    {
      match this
      case StrongBullish => "green"
      case Bullish => "lightgreen"
      case Neutral => "gray"
      case Bearish => "salmon"
      case StrongBearish => "red"
    }

    /** From most bearish (0) to most bullish (4). */
    function Rank(): nat
    {
      match this
      case StrongBearish => 0
      case Bearish => 1
      case Neutral => 2
      case Bullish => 3
      case StrongBullish => 4
    }
  }

  /** The summary: sentiment label, score, signals and colour. */
  datatype Report = Report(sentiment: string, score: int, signals: seq<string>, color: string)

  // ---------------------------------------------------------------------------
  // Sentiment tiers
  // ---------------------------------------------------------------------------

  /** The tier of a score: 3 and above, 1 to 2, 0, -2 to -1, -3 and below. */
  function SentimentOf(score: int): (s: Sentiment)
    ensures s == StrongBullish <==> score >= 3
    ensures s == Bullish <==> 1 <= score <= 2
    ensures s == Neutral <==> score == 0
    ensures s == Bearish <==> -2 <= score <= -1
    ensures s == StrongBearish <==> score <= -3
  {
    if score >= 3 then StrongBullish
    else if score >= 1 then Bullish
    else if score <= -3 then StrongBearish
    else if score <= -1 then Bearish
    else Neutral
  }

  /** A higher score never gives a more bearish tier. */
  lemma SentimentMonotone(a: int, b: int)
    requires a <= b
    ensures SentimentOf(a).Rank() <= SentimentOf(b).Rank()
  {
  }

  // ---------------------------------------------------------------------------
  // Substring test on signal texts
  // ---------------------------------------------------------------------------

  predicate OccursAt(s: string, t: string, i: int)
  {
    0 <= i <= |s| - |t| && s[i..i + |t|] == t
  }

  /** `t in s` for strings. */
  predicate Contains(s: string, t: string)
  {
    exists i :: 0 <= i <= |s| - |t| && OccursAt(s, t, i)
  }

  /** A word whose first letter occurs in `s` only at the start, and which `s` does not start with, is absent. */
  lemma AbsentWord(s: string, t: string)
    requires 0 < |t| <= |s|
    requires forall i :: 1 <= i < |s| ==> s[i] != t[0]
    requires s[..|t|] != t
    ensures !Contains(s, t)
  {
    forall i | 0 <= i <= |s| - |t|
      ensures !OccursAt(s, t, i)
    {
      if 0 < i {
        assert s[i..i + |t|][0] == s[i];
      }
    }
  }

  /** After its first letter a divergence signal holds no capital `B`. */
  lemma NoInnerB(d: Divergence.Divergence)
    ensures forall i :: 1 <= i < |d.Text()| ==> d.Text()[i] != 'B'
  {
    var word := if d.polarity == Divergence.Bearish then "Bearish " else "Bullish ";
    var name := d.oscillator.Name();
    var s := d.Text();
    assert s == word + name + " Divergence";
    forall i | 1 <= i < |s|
      ensures s[i] != 'B'
    {
      if i < 8 {
        assert s[i] == word[i];
      } else if i < 8 + |name| {
        assert s[i] == name[i - 8];
      } else {
        assert s[i] == " Divergence"[i - 8 - |name|];
      }
    }
  }

  /** A divergence signal contains "Bullish" exactly when it is bullish, and "Bearish" exactly when bearish. */
  lemma SignalPolarity(d: Divergence.Divergence)
    ensures Contains(d.Text(), "Bullish") <==> d.polarity == Divergence.Bullish
    ensures Contains(d.Text(), "Bearish") <==> d.polarity == Divergence.Bearish
  {
    var s := d.Text();
    NoInnerB(d);
    if d.polarity == Divergence.Bullish {
      assert OccursAt(s, "Bullish", 0);
      assert s[1] == 'u' && s[..7][1] == 'u';
      AbsentWord(s, "Bearish");
    } else {
      assert OccursAt(s, "Bearish", 0);
      assert s[1] == 'e' && s[..7][1] == 'e';
      AbsentWord(s, "Bullish");
    }
  }

  // ---------------------------------------------------------------------------
  // Score and signals
  // ---------------------------------------------------------------------------

  /** A rule's contribution: its signal text and how it moves the score. */
  datatype Vote = Vote(signal: string, weight: int)

  /** Close above VWAP is bullish; anything else, an undefined VWAP included, is bearish. */
  function VwapVote(r: Row): Option<Vote>
  {
    if Less(r.vwap, Some(r.close)) then Some(Vote(VwapAbove, 1))
    else Some(Vote(VwapBelow, -1))
  }

  function RsiVote(r: Row): Option<Vote>
  {
    if Less(r.rsi, Some(RsiOversold)) then Some(Vote(RsiLow, 2))
    else if Less(Some(RsiOverbought), r.rsi) then Some(Vote(RsiHigh, -2))
    else None
  }

  function CmfVote(r: Row): Option<Vote>
  {
    if Less(Some(CmfInflow), r.cmf) then Some(Vote(CmfPositive, 1))
    else if Less(r.cmf, Some(CmfOutflow)) then Some(Vote(CmfNegative, -1))
    else None
  }

  /** MACD above its signal line is bullish; anything else, undefined values included, is bearish. */
  function MacdVote(r: Row): Option<Vote>
  {
    if Less(r.macdSignal, r.macd) then Some(Vote(MacdAbove, 1))
    else Some(Vote(MacdBelow, -1))
  }

  function BollingerVote(r: Row): Option<Vote>
  {
    if Less(Some(r.close), r.bbLower) then Some(Vote(BandLow, 1))
    else if Less(r.bbUpper, Some(r.close)) then Some(Vote(BandHigh, -1))
    else None
  }

  function StochVote(r: Row): Option<Vote>
  {
    if Less(r.stochK, Some(StochOversold)) && Less(r.stochD, r.stochK) then
      Some(Vote(StochUp, 1))
    else if Less(Some(StochOverbought), r.stochK) && Less(r.stochK, r.stochD) then
      Some(Vote(StochDown, -1))
    else None
  }

  /** How a vote moves the score; no vote leaves it unchanged. */
  function Gain(v: Option<Vote>): int
  {
    match v
    case Some(x) => x.weight
    case None => 0
  }

  /** The signals a vote adds: its text, or nothing. */
  function Said(v: Option<Vote>): seq<string>
  {
    match v
    case Some(x) => [x.signal]
    case None => []
  }

  /** The score the six rules add, in the order they are applied. */
  function RuleScore(r: Row): int
  {
    Gain(VwapVote(r)) + Gain(RsiVote(r)) + Gain(CmfVote(r)) +
    Gain(MacdVote(r)) + Gain(BollingerVote(r)) + Gain(StochVote(r))
  }

  /** The signals the six rules add, in the order they are applied. */
  function RuleSignals(r: Row): seq<string>
  {
    Said(VwapVote(r)) + Said(RsiVote(r)) + Said(CmfVote(r)) +
    Said(MacdVote(r)) + Said(BollingerVote(r)) + Said(StochVote(r))
  }

  /** The score the divergence signals contribute. */
  function DivergenceScore(divs: seq<string>): int
  {
    if |divs| == 0 then 0
    else
      DivergenceScore(divs[..|divs| - 1]) + Points(divs[|divs| - 1])
  }

  /** One divergence signal's points: +2 if it mentions "Bullish", -2 if it mentions "Bearish". */
  function Points(d: string): int
  {
    (if Contains(d, "Bullish") then 2 else 0) - (if Contains(d, "Bearish") then 2 else 0)
  }

  /** The divergences found in a frame, as signal texts. */
  function DivergenceSignals(f: Frame): seq<string>
    requires f.Valid()
  {
    Divergence.Texts(Divergence.Divergences(f.high, f.low, f.Oscillators(), Divergence.PivotWindow))
  }

  /** All signals before duplicates are removed: divergences, then the rules. */
  function RawSignals(f: Frame): seq<string>
    requires f.Valid() && |f.close| > 0
  {
    DivergenceSignals(f) + RuleSignals(LastRow(f))
  }

  function Score(f: Frame): int
    requires f.Valid() && |f.close| > 0
  {
    DivergenceScore(DivergenceSignals(f)) + RuleScore(LastRow(f))
  }

  /** The report for a frame with at least one row. */
  function Expected(f: Frame): Report
    requires f.Valid() && |f.close| > 0
  {
    var s := SentimentOf(Score(f));
    Report(s.Label(), Score(f), Unique(RawSignals(f)), s.Color())
  }

  // ---------------------------------------------------------------------------
  // Properties of the score
  // ---------------------------------------------------------------------------

  /** Twice the number of bullish divergences minus twice the number of bearish ones. */
  function Tally(ds: seq<Divergence.Divergence>): int
  {
    if |ds| == 0 then 0
    else Tally(ds[..|ds| - 1]) + (if ds[|ds| - 1].polarity == Divergence.Bullish then 2 else -2)
  }

  lemma {:induction false} TallyConcat(xs: seq<Divergence.Divergence>, ys: seq<Divergence.Divergence>)
    ensures Tally(xs + ys) == Tally(xs) + Tally(ys)
    decreases |ys|
  {
    if |ys| > 0 {
      var init := ys[..|ys| - 1];
      var last := if ys[|ys| - 1].polarity == Divergence.Bullish then 2 else -2;
      assert (xs + ys)[..|xs + ys| - 1] == xs + init;
      assert (xs + ys)[|xs + ys| - 1] == ys[|ys| - 1];
      assert Tally(xs + ys) == Tally(xs + init) + last;
      assert Tally(ys) == Tally(init) + last;
      TallyConcat(xs, init);
    } else {
      assert xs + ys == xs;
    }
  }

  /** Scoring the texts of divergences counts each bullish one +2 and each bearish one -2. */
  lemma {:induction false} DivergenceScoreIsTally(ds: seq<Divergence.Divergence>)
    ensures DivergenceScore(Divergence.Texts(ds)) == Tally(ds)
    decreases |ds|
  {
    if |ds| > 0 {
      var init := ds[..|ds| - 1];
      assert Divergence.Texts(ds)[..|ds| - 1] == Divergence.Texts(init);
      DivergenceScoreIsTally(init);
      SignalPolarity(ds[|ds| - 1]);
    }
  }

  /** The first `n` oscillators contribute between -2n and 2n. */
  lemma {:induction false} TallyUpTo(n: nat, f: Frame)
    requires n <= |Divergence.Checked| && f.Valid()
    ensures -2 * n <= Tally(Divergence.DivergencesUpTo(n, f.high, f.low, f.Oscillators(), Divergence.PivotWindow)) <= 2 * n
  {
    if n > 0 {
      var cols := f.Oscillators();
      var o := Divergence.Checked[n - 1];
      var init := Divergence.DivergencesUpTo(n - 1, f.high, f.low, cols, Divergence.PivotWindow);
      TallyUpTo(n - 1, f);
      if o in cols {
        var part := Divergence.OscillatorDivergences(f.high, f.low, cols[o], o, Divergence.PivotWindow);
        assert -2 <= Tally(part) <= 2 by {
          var bear := Divergence.Diverges(f.high, cols[o], Divergence.PivotWindow, Divergence.Peak);
          var bull := Divergence.Diverges(f.low, cols[o], Divergence.PivotWindow, Divergence.Trough);
          TallyEmitted(o, bear, bull);
        }
        TallyConcat(init, part);
      } else {
        assert init + [] == init;
      }
    }
  }

  lemma TallyEmitted(o: Divergence.Oscillator, bear: bool, bull: bool)
    ensures -2 <= Tally(Divergence.Emitted(o, bear, bull)) <= 2
  {
    var e := Divergence.Emitted(o, bear, bull);
    assert |e| <= 2;
    if |e| == 2 {
      assert e[..1][..0] == [];
      assert Tally(e[..1]) == -2;
      assert Tally(e) == Tally(e[..1]) + 2;
    } else if |e| == 1 {
      assert e[..0] == [];
    }
  }

  /**
   * The score is twice the bullish divergences minus twice the bearish ones
   * plus the rule weights, and lies in [-15, 15]: each of the four oscillators
   * adds at most one divergence of each polarity and the rules at most 7.
   */
  lemma ScoreBounds(f: Frame)
    requires f.Valid() && |f.close| > 0
    ensures Score(f) == Tally(Divergence.Divergences(f.high, f.low, f.Oscillators(), Divergence.PivotWindow))
                        + RuleScore(LastRow(f))
    ensures -15 <= Score(f) <= 15
  {
    DivergenceScoreIsTally(Divergence.Divergences(f.high, f.low, f.Oscillators(), Divergence.PivotWindow));
    TallyUpTo(4, f);
    RulesVote(LastRow(f));
  }

  /**
   * The VWAP and MACD rules always vote, bearishly when a value is undefined;
   * an undefined RSI, CMF, pair of bands or %K casts no vote; together the rules add between 2 and 6
   * signals and move the score by at most 7 either way.
   */
  lemma RulesVote(r: Row)
    ensures VwapVote(r).Some? && MacdVote(r).Some?
    ensures r.vwap.None? ==> VwapVote(r) == Some(Vote(VwapBelow, -1))
    ensures r.macd.None? || r.macdSignal.None? ==> MacdVote(r) == Some(Vote(MacdBelow, -1))
    ensures r.rsi.None? ==> RsiVote(r).None?
    ensures r.cmf.None? ==> CmfVote(r).None?
    ensures r.bbLower.None? && r.bbUpper.None? ==> BollingerVote(r).None?
    ensures r.stochK.None? ==> StochVote(r).None?
    ensures 2 <= |RuleSignals(r)| <= 6
    ensures -7 <= RuleScore(r) <= 7
  {
  }

  // ---------------------------------------------------------------------------
  // Order-preserving removal of duplicates
  // ---------------------------------------------------------------------------

  /** The elements of `xs` at their first occurrences, in order. */
  function Unique<T(==)>(xs: seq<T>): seq<T>
  {
    if |xs| == 0 then []
    else
      var u := Unique(xs[..|xs| - 1]);
      if xs[|xs| - 1] in u then u else u + [xs[|xs| - 1]]
  }

  predicate Distinct<T(==)>(xs: seq<T>)
  {
    forall a, b :: 0 <= a < b < |xs| ==> xs[a] != xs[b]
  }

  /** The index of the first occurrence of `x`. */
  function FirstIndex<T(==)>(xs: seq<T>, x: T): (k: nat)
    requires x in xs
    ensures k < |xs| && xs[k] == x && forall j :: 0 <= j < k ==> xs[j] != x
  {
    if xs[0] == x then 0 else 1 + FirstIndex(xs[1..], x)
  }

  /** Removing duplicates keeps exactly the elements of the input. */
  lemma {:induction false} UniqueElements<T>(xs: seq<T>)
    ensures forall x :: x in Unique(xs) <==> x in xs
  {
    if |xs| > 0 {
      var init := xs[..|xs| - 1];
      UniqueElements(init);
      assert xs == init + [xs[|xs| - 1]];
    }
  }

  /** No element appears twice in the result. */
  lemma {:induction false} UniqueDistinct<T>(xs: seq<T>)
    ensures Distinct(Unique(xs))
  {
    if |xs| > 0 {
      UniqueDistinct(xs[..|xs| - 1]);
    }
  }

  lemma FirstIndexOfPrefix<T>(xs: seq<T>, x: T, n: nat)
    requires n <= |xs| && x in xs[..n]
    ensures FirstIndex(xs, x) == FirstIndex(xs[..n], x)
  {
    var k := FirstIndex(xs[..n], x);
    var m := FirstIndex(xs, x);
    assert xs[k] == xs[..n][k] == x;
    assert m <= k;
    assert xs[..n][m] == xs[m];
  }

  /** Elements come out in the order of their first occurrences in the input. */
  lemma {:induction false} UniqueOrder<T>(xs: seq<T>)
    ensures forall x :: x in Unique(xs) ==> x in xs
    ensures forall a, b :: 0 <= a < b < |Unique(xs)| ==>
      FirstIndex(xs, Unique(xs)[a]) < FirstIndex(xs, Unique(xs)[b])
  {
    UniqueElements(xs);
    if |xs| > 0 {
      var n := |xs| - 1;
      var init := xs[..n];
      var u := Unique(init);
      UniqueOrder(init);
      UniqueElements(init);
      forall a, b | 0 <= a < b < |Unique(xs)|
        ensures FirstIndex(xs, Unique(xs)[a]) < FirstIndex(xs, Unique(xs)[b])
      {
        assert Unique(xs)[a] == u[a];
        FirstIndexOfPrefix(xs, u[a], n);
        if b < |u| {
          assert Unique(xs)[b] == u[b];
          FirstIndexOfPrefix(xs, u[b], n);
        } else {
          assert Unique(xs)[b] == xs[n] && xs[n] !in init;
        }
      }
    }
  }

  /** A list without duplicates is left unchanged. */
  lemma {:induction false} UniqueOfDistinct<T>(xs: seq<T>)
    requires Distinct(xs)
    ensures Unique(xs) == xs
  {
    if |xs| > 0 {
      var init := xs[..|xs| - 1];
      UniqueOfDistinct(init);
      assert xs == init + [xs[|xs| - 1]];
    }
  }

  /** The loop with a `seen` set that keeps each signal's first occurrence. */
  method RemoveDuplicates(xs: seq<string>) returns (unique: seq<string>)
    ensures unique == Unique(xs)
  {
    unique := [];
    var seen: set<string> := {};
    for i := 0 to |xs|
      invariant unique == Unique(xs[..i])
      invariant forall x :: x in seen <==> x in unique
    {
      assert xs[..i + 1][..i] == xs[..i];
      var s := xs[i];
      if s !in seen {
        unique := unique + [s];
        seen := seen + {s};
      }
    }
    assert xs[..|xs|] == xs;
  }

  /**
   * The report of a non-empty frame: its signals are the raw signals without
   * repeats, in first-occurrence order; its label and colour are those of the
   * tier of its score, which lies in [-15, 15].
   */
  lemma ReportShape(f: Frame)
    requires f.Valid() && |f.close| > 0
    ensures Distinct(Expected(f).signals)
    ensures forall x :: x in Expected(f).signals <==> x in RawSignals(f)
    ensures forall a, b :: 0 <= a < b < |Expected(f).signals| ==>
      FirstIndex(RawSignals(f), Expected(f).signals[a]) < FirstIndex(RawSignals(f), Expected(f).signals[b])
    ensures -15 <= Expected(f).score <= 15
    ensures Expected(f).sentiment == SentimentOf(Expected(f).score).Label()
    ensures Expected(f).color == SentimentOf(Expected(f).score).Color()
  {
    UniqueDistinct(RawSignals(f));
    UniqueElements(RawSignals(f));
    UniqueOrder(RawSignals(f));
    ScoreBounds(f);
  }

  // ---------------------------------------------------------------------------
  // The summary
  // ---------------------------------------------------------------------------

  /**
   * The summary of the last row: no report for an empty frame (the last row
   * does not exist); otherwise divergences, the six rules, the tier of the
   * score and the signals with duplicates removed.
   */
  method GenerateTechnicalSummary(f: Frame) returns (r: Option<Report>)
    requires f.Valid()
    ensures r.None? <==> |f.close| == 0
    ensures r.Some? ==> r.value == Expected(f)
  {
    if |f.close| == 0 {
      return None;
    }
    var last := LastRow(f);
    var cols := f.Oscillators();
    assert Divergence.Aligned(f.high, f.low, cols);
    var divSignals := Divergence.DetectDivergences(f.high, f.low, cols, Divergence.PivotWindow);
    var signals, score := CountDivergences(divSignals);
    signals, score := ApplyRules(last, signals, score);
    assert signals == RawSignals(f) && score == Score(f);

    var tier: Sentiment;
    if score >= 3 {
      tier := StrongBullish;
    } else if score >= 1 {
      tier := Bullish;
    } else if score <= -3 {
      tier := StrongBearish;
    } else if score <= -1 {
      tier := Bearish;
    } else {
      tier := Neutral;
    }
    assert tier == SentimentOf(score);

    var unique := RemoveDuplicates(signals);
    return Some(Report(tier.Label(), score, unique, tier.Color()));
  }

  /** Each divergence signal is kept and moves the score by its points. */
  method CountDivergences(divSignals: seq<string>) returns (signals: seq<string>, score: int)
    ensures signals == divSignals
    ensures score == DivergenceScore(divSignals)
  {
    signals, score := [], 0;
    for i := 0 to |divSignals|
      invariant signals == divSignals[..i]
      invariant score == DivergenceScore(divSignals[..i])
    {
      var d := divSignals[i];
      TakeOneMore(divSignals, i);
      ghost var before := score;
      signals := signals + [d];
      if Contains(d, "Bullish") {
        score := score + 2;
      }
      if Contains(d, "Bearish") {
        score := score - 2;
      }
      assert score == before + Points(d);
    }
    assert divSignals[..|divSignals|] == divSignals;
  }

  /** The six rules applied in order to the last row, each appending its signal and moving the score. */
  method ApplyRules(last: Row, signals0: seq<string>, score0: int) returns (signals: seq<string>, score: int)
    ensures signals == signals0 + RuleSignals(last)
    ensures score == score0 + RuleScore(last)
  {
    signals, score := VwapRule(last, signals0, score0);
    signals, score := RsiRule(last, signals, score);
    signals, score := CmfRule(last, signals, score);
    signals, score := MacdRule(last, signals, score);
    signals, score := BollingerRule(last, signals, score);
    signals, score := StochRule(last, signals, score);
    AppendSix(signals0, Said(VwapVote(last)), Said(RsiVote(last)), Said(CmfVote(last)),
              Said(MacdVote(last)), Said(BollingerVote(last)), Said(StochVote(last)));
  }

  /** The VWAP trend rule: appends its signal, if any, and moves the score by its weight. */
  method VwapRule(last: Row, signals0: seq<string>, score0: int) returns (signals: seq<string>, score: int)
    ensures signals == signals0 + Said(VwapVote(last))
    ensures score == score0 + Gain(VwapVote(last))
  {
    if Less(last.vwap, Some(last.close)) {
      signals, score := signals0 + [VwapAbove], score0 + 1;
    } else {
      signals, score := signals0 + [VwapBelow], score0 - 1;
    }
  }

  /** The RSI extremes rule: appends its signal, if any, and moves the score by its weight. */
  method RsiRule(last: Row, signals0: seq<string>, score0: int) returns (signals: seq<string>, score: int)
    ensures signals == signals0 + Said(RsiVote(last))
    ensures score == score0 + Gain(RsiVote(last))
  {
    signals, score := signals0, score0;
    if Less(last.rsi, Some(RsiOversold)) {
      signals, score := signals0 + [RsiLow], score0 + 2;
    } else if Less(Some(RsiOverbought), last.rsi) {
      signals, score := signals0 + [RsiHigh], score0 - 2;
    }
  }

  /** The money flow rule: appends its signal, if any, and moves the score by its weight. */
  method CmfRule(last: Row, signals0: seq<string>, score0: int) returns (signals: seq<string>, score: int)
    ensures signals == signals0 + Said(CmfVote(last))
    ensures score == score0 + Gain(CmfVote(last))
  {
    signals, score := signals0, score0;
    if Less(Some(CmfInflow), last.cmf) {
      signals, score := signals0 + [CmfPositive], score0 + 1;
    } else if Less(last.cmf, Some(CmfOutflow)) {
      signals, score := signals0 + [CmfNegative], score0 - 1;
    }
  }

  /** The MACD crossover rule: appends its signal, if any, and moves the score by its weight. */
  method MacdRule(last: Row, signals0: seq<string>, score0: int) returns (signals: seq<string>, score: int)
    ensures signals == signals0 + Said(MacdVote(last))
    ensures score == score0 + Gain(MacdVote(last))
  {
    if Less(last.macdSignal, last.macd) {
      signals, score := signals0 + [MacdAbove], score0 + 1;
    } else {
      signals, score := signals0 + [MacdBelow], score0 - 1;
    }
  }

  /** The Bollinger band breakout rule: appends its signal, if any, and moves the score by its weight. */
  method BollingerRule(last: Row, signals0: seq<string>, score0: int) returns (signals: seq<string>, score: int)
    ensures signals == signals0 + Said(BollingerVote(last))
    ensures score == score0 + Gain(BollingerVote(last))
  {
    signals, score := signals0, score0;
    if Less(Some(last.close), last.bbLower) {
      signals, score := signals0 + [BandLow], score0 + 1;
    } else if Less(last.bbUpper, Some(last.close)) {
      signals, score := signals0 + [BandHigh], score0 - 1;
    }
  }

  /** The stochastic RSI crossing rule: appends its signal, if any, and moves the score by its weight. */
  method StochRule(last: Row, signals0: seq<string>, score0: int) returns (signals: seq<string>, score: int)
    ensures signals == signals0 + Said(StochVote(last))
    ensures score == score0 + Gain(StochVote(last))
  {
    signals, score := signals0, score0;
    if Less(last.stochK, Some(StochOversold)) && Less(last.stochD, last.stochK) {
      signals, score := signals0 + [StochUp], score0 + 1;
    } else if Less(Some(StochOverbought), last.stochK) && Less(last.stochK, last.stochD) {
      signals, score := signals0 + [StochDown], score0 - 1;
    }
  }

  lemma AppendSix<T>(s: seq<T>, a: seq<T>, b: seq<T>, c: seq<T>, d: seq<T>, e: seq<T>, g: seq<T>)
    ensures s + a + b + c + d + e + g == s + (a + b + c + d + e + g)
  {
  }

  lemma TakeOneMore<T>(xs: seq<T>, i: nat)
    requires i < |xs|
    ensures xs[..i + 1] == xs[..i] + [xs[i]]
  {
  }
}
