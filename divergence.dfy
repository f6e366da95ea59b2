/**
 * Regular divergences between price pivots and the oscillators RSI, MFI, CMF
 * and MACD. A bearish divergence is a higher high in price whose oscillator
 * value is lower than at the previous high; a bullish one is a lower low whose
 * oscillator value is higher than at the previous low.
 */
module Divergence {
  import opened Wrappers
  import opened Columns

  /** Half-width of the neighbourhood a pivot must dominate (the default `window`). */
  const PivotWindow: nat := 5
  /** Rows scanned for the latest pivot, from the second-to-last row backwards. */
  const RecentSpan: nat := 20
  /** Rows scanned for the pivot before it, from the row before the latest pivot. */
  const PreviousSpan: nat := 49

  datatype Oscillator = Rsi | Mfi | Cmf | Macd
  {
    /** The column name in upper case, as it appears in a signal. */
    function Name(): string
    {
      match this
      case Rsi => "RSI"
      case Mfi => "MFI"
      case Cmf => "CMF"
      case Macd => "MACD"
    }

    /** Position in the order the oscillators are checked. */
    function Rank(): nat
    {
      match this
      case Rsi => 0
      case Mfi => 1
      case Cmf => 2
      case Macd => 3
    }
  }

  /** The oscillators, in the order they are checked. */
  const Checked: seq<Oscillator> := [Rsi, Mfi, Cmf, Macd]

  /** A local maximum of the highs or a local minimum of the lows. */
  datatype Turn = Peak | Trough

  datatype Polarity = Bearish | Bullish

  datatype Divergence = Divergence(polarity: Polarity, oscillator: Oscillator)
  {
    /** The signal text, such as "Bearish RSI Divergence". */
    function Text(): string
    {
      (if polarity == Bearish then "Bearish " else "Bullish ") + oscillator.Name() + " Divergence"
    }

    /** Position in the output: by oscillator, bearish before bullish. */
    function Key(): nat
    {
      2 * oscillator.Rank() + (if polarity == Bullish then 1 else 0)
    }
  }

  // ---------------------------------------------------------------------------
  // Pivots
  // ---------------------------------------------------------------------------

  /** The largest of rows `lo` to `hi - 1`, as pandas' `max` over that slice. */
  function RangeMax(xs: seq<real>, lo: nat, hi: nat): real
    requires lo < hi <= |xs|
    decreases hi - lo
  {
    if hi - lo == 1 then xs[lo]
    else
      var m := RangeMax(xs, lo, hi - 1);
      if xs[hi - 1] > m then xs[hi - 1] else m
  }

  /** The smallest of rows `lo` to `hi - 1`. */
  function RangeMin(xs: seq<real>, lo: nat, hi: nat): real
    requires lo < hi <= |xs|
    decreases hi - lo
  {
    if hi - lo == 1 then xs[lo]
    else
      var m := RangeMin(xs, lo, hi - 1);
      if xs[hi - 1] < m then xs[hi - 1] else m
  }

  /** The maximum bounds every row of the range and is one of them. */
  lemma {:induction false} RangeMaxBounds(xs: seq<real>, lo: nat, hi: nat)
    requires lo < hi <= |xs|
    ensures forall j :: lo <= j < hi ==> xs[j] <= RangeMax(xs, lo, hi)
    ensures exists j :: lo <= j < hi && xs[j] == RangeMax(xs, lo, hi)
    decreases hi - lo
  {
    if hi - lo == 1 {
      assert xs[lo] == RangeMax(xs, lo, hi);
    } else {
      RangeMaxBounds(xs, lo, hi - 1);
      if xs[hi - 1] <= RangeMax(xs, lo, hi - 1) {
        var j :| lo <= j < hi - 1 && xs[j] == RangeMax(xs, lo, hi - 1);
        assert xs[j] == RangeMax(xs, lo, hi);
      } else {
        assert xs[hi - 1] == RangeMax(xs, lo, hi);
      }
    }
  }

  /** The minimum is below every row of the range and is one of them. */
  lemma {:induction false} RangeMinBounds(xs: seq<real>, lo: nat, hi: nat)
    requires lo < hi <= |xs|
    ensures forall j :: lo <= j < hi ==> RangeMin(xs, lo, hi) <= xs[j]
    ensures exists j :: lo <= j < hi && xs[j] == RangeMin(xs, lo, hi)
    decreases hi - lo
  {
    if hi - lo == 1 {
      assert xs[lo] == RangeMin(xs, lo, hi);
    } else {
      RangeMinBounds(xs, lo, hi - 1);
      if RangeMin(xs, lo, hi - 1) <= xs[hi - 1] {
        var j :| lo <= j < hi - 1 && xs[j] == RangeMin(xs, lo, hi - 1);
        assert xs[j] == RangeMin(xs, lo, hi);
      } else {
        assert xs[hi - 1] == RangeMin(xs, lo, hi);
      }
    }
  }

  /** Row `idx` equals the maximum of the `2w + 1` rows centred on it, all of which exist. */
  function IsPeak(xs: seq<real>, idx: int, w: nat): bool
  {
    if idx < w || idx >= |xs| - w then false
    else xs[idx] == RangeMax(xs, idx - w, idx + w + 1)
  }

  /** Row `idx` equals the minimum of the `2w + 1` rows centred on it, all of which exist. */
  function IsTrough(xs: seq<real>, idx: int, w: nat): bool
  {
    if idx < w || idx >= |xs| - w then false
    else xs[idx] == RangeMin(xs, idx - w, idx + w + 1)
  }

  function IsTurn(xs: seq<real>, idx: int, w: nat, turn: Turn): bool
  {
    match turn
    case Peak => IsPeak(xs, idx, w)
    case Trough => IsTrough(xs, idx, w)
  }

  /**
   * A peak is a row with `w` rows on either side, none of them higher: the
   * maximum of the window is attained at its centre.
   */
  lemma PeakExact(xs: seq<real>, idx: int, w: nat)
    ensures IsPeak(xs, idx, w) <==>
      w <= idx < |xs| - w && forall j :: idx - w <= j <= idx + w ==> xs[j] <= xs[idx]
  {
    if w <= idx < |xs| - w {
      RangeMaxBounds(xs, idx - w, idx + w + 1);
    }
  }

  /** A trough is a row with `w` rows on either side, none of them lower. */
  lemma TroughExact(xs: seq<real>, idx: int, w: nat)
    ensures IsTrough(xs, idx, w) <==>
      w <= idx < |xs| - w && forall j :: idx - w <= j <= idx + w ==> xs[idx] <= xs[j]
  {
    if w <= idx < |xs| - w {
      RangeMinBounds(xs, idx - w, idx + w + 1);
    }
  }

  // ---------------------------------------------------------------------------
  // Backward search with a -1 sentinel
  // ---------------------------------------------------------------------------

  /**
   * The first pivot met scanning rows `from, from - 1, ...` down to, but not
   * including, `stop`, or -1 when there is none. A found row is a genuine pivot
   * in the scanned range, so it is never confused with the sentinel.
   */
  function LastTurn(xs: seq<real>, w: nat, turn: Turn, from: int, stop: int): (r: int)
    ensures r == -1 || (stop < r <= from && w <= r < |xs| - w)
    decreases from - stop
  {
    if from <= stop then -1
    else if IsTurn(xs, from, w, turn) then from
    else LastTurn(xs, w, turn, from - 1, stop)
  }

  /**
   * The search returns -1 exactly when no scanned row is a pivot, and otherwise
   * the pivot nearest to `from`: every row it skipped is not a pivot.
   */
  lemma {:induction false} LastTurnNearest(xs: seq<real>, w: nat, turn: Turn, from: int, stop: int)
    ensures LastTurn(xs, w, turn, from, stop) != -1 ==> IsTurn(xs, LastTurn(xs, w, turn, from, stop), w, turn)
    ensures LastTurn(xs, w, turn, from, stop) == -1 <==>
      forall i :: stop < i <= from ==> !IsTurn(xs, i, w, turn)
    ensures LastTurn(xs, w, turn, from, stop) != -1 ==>
      forall i :: LastTurn(xs, w, turn, from, stop) < i <= from ==> !IsTurn(xs, i, w, turn)
    decreases from - stop
  {
    if stop < from && !IsTurn(xs, from, w, turn) {
      LastTurnNearest(xs, w, turn, from - 1, stop);
    }
  }

  /** The scan loop over rows `from` down to `stop + 1`, stopping at the first pivot. */
  method FindTurn(xs: seq<real>, w: nat, turn: Turn, from: int, stop: int) returns (idx: int)
    ensures idx == LastTurn(xs, w, turn, from, stop)
  {
    idx := -1;
    var i := from;
    while i > stop
      invariant LastTurn(xs, w, turn, from, stop) == LastTurn(xs, w, turn, i, stop)
    {
      if IsTurn(xs, i, w, turn) {
        idx := i;
        break;
      }
      i := i - 1;
    }
  }

  // ---------------------------------------------------------------------------
  // Divergence conditions
  // ---------------------------------------------------------------------------

  /**
   * The latest pivot at or before the second-to-last row and the pivot before
   * it make a divergence: for peaks a strictly higher price with a strictly
   * lower oscillator, for troughs a strictly lower price with a strictly higher
   * oscillator. An undefined oscillator value never diverges.
   */
  predicate Diverges(prices: seq<real>, ind: Column, w: nat, turn: Turn)
    requires |ind| == |prices|
  {
    var r := LastTurn(prices, w, turn, |prices| - 2, |prices| - 2 - RecentSpan);
    r != -1 &&
    var q := LastTurn(prices, w, turn, r - 1, r - 1 - PreviousSpan);
    q != -1 &&
    match turn
    case Peak => prices[r] > prices[q] && Less(ind[r], ind[q])
    case Trough => prices[r] < prices[q] && Less(ind[q], ind[r])
  }

  /** `Diverges` in terms of the results `r` and `q` of the two searches. */
  lemma DivergesFromSearch(prices: seq<real>, ind: Column, w: nat, turn: Turn, r: int, q: int)
    requires |ind| == |prices|
    requires r == LastTurn(prices, w, turn, |prices| - 2, |prices| - 2 - RecentSpan)
    requires r != -1 ==> q == LastTurn(prices, w, turn, r - 1, r - 1 - PreviousSpan)
    ensures Diverges(prices, ind, w, turn) <==>
      r != -1 && q != -1 &&
      match turn
      case Peak => prices[r] > prices[q] && Less(ind[r], ind[q])
      case Trough => prices[r] < prices[q] && Less(ind[q], ind[r])
  {
  }

  /** Price and oscillator move apart between pivots `q` and `r`. */
  predicate MoveApart(prices: seq<real>, ind: Column, turn: Turn, q: nat, r: nat)
    requires q < |prices| && r < |prices| && |ind| == |prices|
  {
    match turn
    case Peak => prices[q] < prices[r] && Less(ind[r], ind[q])
    case Trough => prices[r] < prices[q] && Less(ind[q], ind[r])
  }

  /**
   * The pivot pair behind a divergence, described directly: `r` is the pivot
   * nearest the second-to-last row among the last `RecentSpan` candidates, `q`
   * the nearest pivot before `r` among the `PreviousSpan` rows before it, and
   * price and oscillator move apart between them.
   */
  predicate PivotPair(prices: seq<real>, ind: Column, w: nat, turn: Turn, r: int, q: int)
    requires |ind| == |prices|
  {
    && |prices| - 2 - RecentSpan < r <= |prices| - 2
    && r - 1 - PreviousSpan < q < r
    && 0 <= q
    && IsTurn(prices, r, w, turn) && IsTurn(prices, q, w, turn)
    && (forall i :: r < i <= |prices| - 2 ==> !IsTurn(prices, i, w, turn))
    && (forall i :: q < i < r ==> !IsTurn(prices, i, w, turn))
    && MoveApart(prices, ind, turn, q, r)
  }

  /** A divergence is signalled exactly when such a pivot pair exists. */
  lemma DivergesExact(prices: seq<real>, ind: Column, w: nat, turn: Turn)
    requires |ind| == |prices|
    ensures Diverges(prices, ind, w, turn) <==> exists r, q :: PivotPair(prices, ind, w, turn, r, q)
  {
    if Diverges(prices, ind, w, turn) {
      var r, q := PairOfDivergence(prices, ind, w, turn);
    }
    if exists r, q :: PivotPair(prices, ind, w, turn, r, q) {
      var r, q :| PivotPair(prices, ind, w, turn, r, q);
      DivergenceOfPair(prices, ind, w, turn, r, q);
    }
  }

  lemma PairOfDivergence(prices: seq<real>, ind: Column, w: nat, turn: Turn) returns (r: int, q: int)
    requires |ind| == |prices| && Diverges(prices, ind, w, turn)
    ensures PivotPair(prices, ind, w, turn, r, q)
  {
    var from := |prices| - 2;
    r := LastTurn(prices, w, turn, from, from - RecentSpan);
    q := LastTurn(prices, w, turn, r - 1, r - 1 - PreviousSpan);
    DivergesFromSearch(prices, ind, w, turn, r, q);
    LastTurnNearest(prices, w, turn, from, from - RecentSpan);
    LastTurnNearest(prices, w, turn, r - 1, r - 1 - PreviousSpan);
  }

  lemma DivergenceOfPair(prices: seq<real>, ind: Column, w: nat, turn: Turn, r: int, q: int)
    requires |ind| == |prices| && PivotPair(prices, ind, w, turn, r, q)
    ensures Diverges(prices, ind, w, turn)
  {
    var from := |prices| - 2;
    NearestFound(prices, w, turn, from, from - RecentSpan, r);
    NearestFound(prices, w, turn, r - 1, r - 1 - PreviousSpan, q);
    DivergesFromSearch(prices, ind, w, turn, r, q);
  }

  /** A pivot in the scanned range with no pivot after it is what the search returns. */
  lemma {:induction false} NearestFound(xs: seq<real>, w: nat, turn: Turn, from: int, stop: int, r: int)
    requires stop < r <= from && IsTurn(xs, r, w, turn)
    requires forall i :: r < i <= from ==> !IsTurn(xs, i, w, turn)
    ensures LastTurn(xs, w, turn, from, stop) == r
    decreases from - stop
  {
    if r < from {
      NearestFound(xs, w, turn, from - 1, stop, r);
    }
  }

  // ---------------------------------------------------------------------------
  // All divergences
  // ---------------------------------------------------------------------------

  /** Highs, lows and every present oscillator column have one row per candle. */
  predicate Aligned(highs: seq<real>, lows: seq<real>, cols: map<Oscillator, Column>)
  {
    |lows| == |highs| && forall o :: o in cols ==> |cols[o]| == |highs|
  }

  /** The divergences of one oscillator, given which polarities hold: bearish first. */
  function Emitted(o: Oscillator, bearish: bool, bullish: bool): (ds: seq<Divergence>)
  {
    (if bearish then [Divergence(Bearish, o)] else []) +
    (if bullish then [Divergence(Bullish, o)] else [])
  }

  /** The divergences of one oscillator column. */
  function OscillatorDivergences(highs: seq<real>, lows: seq<real>, ind: Column, o: Oscillator, w: nat): seq<Divergence>
    requires |lows| == |highs| == |ind|
  {
    Emitted(o, Diverges(highs, ind, w, Peak), Diverges(lows, ind, w, Trough))
  }

  /** The divergences of the first `n` checked oscillators; an absent column is skipped. */
  function DivergencesUpTo(n: nat, highs: seq<real>, lows: seq<real>, cols: map<Oscillator, Column>, w: nat): seq<Divergence>
    requires n <= |Checked| && Aligned(highs, lows, cols)
  {
    if n == 0 then []
    else
      var o := Checked[n - 1];
      DivergencesUpTo(n - 1, highs, lows, cols, w) +
      (if o in cols then OscillatorDivergences(highs, lows, cols[o], o, w) else [])
  }

  function Divergences(highs: seq<real>, lows: seq<real>, cols: map<Oscillator, Column>, w: nat): seq<Divergence>
    requires Aligned(highs, lows, cols)
  {
    DivergencesUpTo(|Checked|, highs, lows, cols, w)
  }

  /** The signal texts of a list of divergences. */
  function Texts(ds: seq<Divergence>): (ts: seq<string>)
    ensures |ts| == |ds|
  {
    seq(|ds|, i requires 0 <= i < |ds| => ds[i].Text())
  }

  lemma TextsConcat(a: seq<Divergence>, b: seq<Divergence>)
    ensures Texts(a + b) == Texts(a) + Texts(b)
  {
    assert forall i :: 0 <= i < |a + b| ==> Texts(a + b)[i] == (Texts(a) + Texts(b))[i];
  }

  /** The condition under which a divergence of polarity `d.polarity` is emitted for a column. */
  predicate Holds(highs: seq<real>, lows: seq<real>, ind: Column, w: nat, p: Polarity)
    requires |lows| == |highs| == |ind|
  {
    match p
    case Bearish => Diverges(highs, ind, w, Peak)
    case Bullish => Diverges(lows, ind, w, Trough)
  }

  /**
   * A divergence is among those of the first `n` oscillators exactly when its
   * oscillator is one of them, its column is present and the condition of its
   * polarity holds for that column.
   */
  lemma {:induction false} DivergencesUpToMembers(n: nat, highs: seq<real>, lows: seq<real>,
                                                  cols: map<Oscillator, Column>, w: nat, d: Divergence)
    requires n <= |Checked| && Aligned(highs, lows, cols)
    ensures d in DivergencesUpTo(n, highs, lows, cols, w) <==>
      d.oscillator.Rank() < n && d.oscillator in cols && Holds(highs, lows, cols[d.oscillator], w, d.polarity)
  {
    if n > 0 {
      DivergencesUpToMembers(n - 1, highs, lows, cols, w, d);
      var o := Checked[n - 1];
      assert o.Rank() == n - 1;
      if o in cols {
        EmittedMembers(o, Diverges(highs, cols[o], w, Peak), Diverges(lows, cols[o], w, Trough), d);
      }
    }
  }

  lemma EmittedMembers(o: Oscillator, bearish: bool, bullish: bool, d: Divergence)
    ensures d in Emitted(o, bearish, bullish) <==>
      d.oscillator == o && (if d.polarity == Bearish then bearish else bullish)
  {
  }

  lemma DivergenceEmitted(highs: seq<real>, lows: seq<real>, cols: map<Oscillator, Column>, w: nat, d: Divergence)
    requires Aligned(highs, lows, cols)
    ensures d in Divergences(highs, lows, cols, w) <==>
      d.oscillator in cols && Holds(highs, lows, cols[d.oscillator], w, d.polarity)
  {
    DivergencesUpToMembers(|Checked|, highs, lows, cols, w, d);
  }

  /** Strictly increasing keys over a list. */
  predicate KeysIncrease(ds: seq<Divergence>)
  {
    forall a, b :: 0 <= a < b < |ds| ==> ds[a].Key() < ds[b].Key()
  }

  /** Every key in `ds` lies in `[lo, hi)`. */
  predicate KeysWithin(ds: seq<Divergence>, lo: nat, hi: nat)
  {
    forall a :: 0 <= a < |ds| ==> lo <= ds[a].Key() < hi
  }

  lemma ConcatIncrease(xs: seq<Divergence>, ys: seq<Divergence>, lo: nat, mid: nat, hi: nat)
    requires lo <= mid <= hi
    requires KeysIncrease(xs) && KeysWithin(xs, lo, mid)
    requires KeysIncrease(ys) && KeysWithin(ys, mid, hi)
    ensures KeysIncrease(xs + ys) && KeysWithin(xs + ys, lo, hi)
  {
    var zs := xs + ys;
    forall a, b | 0 <= a < b < |zs| ensures zs[a].Key() < zs[b].Key() {
      if b < |xs| {
        assert zs[a] == xs[a] && zs[b] == xs[b];
      } else if a >= |xs| {
        assert zs[a] == ys[a - |xs|] && zs[b] == ys[b - |xs|];
      } else {
        assert zs[a] == xs[a] && zs[b] == ys[b - |xs|];
      }
    }
    forall a | 0 <= a < |zs| ensures lo <= zs[a].Key() < hi {
      if a < |xs| {
        assert zs[a] == xs[a];
      } else {
        assert zs[a] == ys[a - |xs|];
      }
    }
  }

  lemma EmittedKeys(o: Oscillator, bearish: bool, bullish: bool)
    ensures KeysIncrease(Emitted(o, bearish, bullish))
    ensures KeysWithin(Emitted(o, bearish, bullish), 2 * o.Rank(), 2 * o.Rank() + 2)
  {
  }

  lemma {:induction false} DivergencesUpToOrdered(n: nat, highs: seq<real>, lows: seq<real>,
                                                  cols: map<Oscillator, Column>, w: nat)
    requires n <= |Checked| && Aligned(highs, lows, cols)
    ensures KeysIncrease(DivergencesUpTo(n, highs, lows, cols, w))
    ensures KeysWithin(DivergencesUpTo(n, highs, lows, cols, w), 0, 2 * n)
  {
    if n > 0 {
      DivergencesUpToOrdered(n - 1, highs, lows, cols, w);
      var o := Checked[n - 1];
      assert o.Rank() == n - 1;
      var init := DivergencesUpTo(n - 1, highs, lows, cols, w);
      if o in cols {
        var tail := OscillatorDivergences(highs, lows, cols[o], o, w);
        EmittedKeys(o, Diverges(highs, cols[o], w, Peak), Diverges(lows, cols[o], w, Trough));
        ConcatIncrease(init, tail, 0, 2 * (n - 1), 2 * n);
      } else {
        assert DivergencesUpTo(n, highs, lows, cols, w) == init;
      }
    }
  }

  /**
   * Divergences come out by oscillator in the order RSI, MFI, CMF, MACD, bearish
   * before bullish, so each oscillator yields at most one of each polarity.
   */
  lemma DivergencesOrdered(highs: seq<real>, lows: seq<real>, cols: map<Oscillator, Column>, w: nat)
    requires Aligned(highs, lows, cols)
    ensures KeysIncrease(Divergences(highs, lows, cols, w))
    ensures forall a, b :: 0 <= a < b < |Divergences(highs, lows, cols, w)| ==>
      Divergences(highs, lows, cols, w)[a] != Divergences(highs, lows, cols, w)[b]
  {
    DivergencesUpToOrdered(|Checked|, highs, lows, cols, w);
  }

  /**
   * The detector: for each oscillator whose column is present, search the
   * highs for the latest peak and the one before it, then the lows for the
   * latest trough and the one before it, and report what diverges.
   */
  method DetectDivergences(highs: seq<real>, lows: seq<real>, cols: map<Oscillator, Column>, w: nat)
    returns (signals: seq<string>)
    requires Aligned(highs, lows, cols)
    ensures signals == Texts(Divergences(highs, lows, cols, w))
  {
    signals := [];
    for k := 0 to |Checked|
      invariant signals == Texts(DivergencesUpTo(k, highs, lows, cols, w))
    {
      var o := Checked[k];
      ghost var before := DivergencesUpTo(k, highs, lows, cols, w);
      if o in cols {
        var found := ScanOscillator(highs, lows, cols[o], o, w);
        TextsConcat(before, OscillatorDivergences(highs, lows, cols[o], o, w));
        signals := signals + found;
      }
    }
  }

  /**
   * One oscillator's turn of the detector: a bearish divergence over the highs,
   * then a bullish one over the lows.
   */
  method ScanOscillator(highs: seq<real>, lows: seq<real>, ind: Column, o: Oscillator, w: nat)
    returns (signals: seq<string>)
    requires |lows| == |highs| == |ind|
    ensures signals == Texts(OscillatorDivergences(highs, lows, ind, o, w))
  {
    signals := [];
    var bearish := SearchDivergence(highs, ind, w, Peak);
    if bearish {
      signals := signals + [Divergence(Bearish, o).Text()];
    }
    var bullish := SearchDivergence(lows, ind, w, Trough);
    if bullish {
      signals := signals + [Divergence(Bullish, o).Text()];
    }
    assert signals == Texts(Emitted(o, bearish, bullish));
  }

  /**
   * The latest pivot among the `RecentSpan` rows ending at the second-to-last
   * row, the pivot before it among the `PreviousSpan` rows before that, and the
   * comparison of price and oscillator at the two.
   */
  method SearchDivergence(prices: seq<real>, ind: Column, w: nat, turn: Turn) returns (diverges: bool)
    requires |ind| == |prices|
    ensures diverges == Diverges(prices, ind, w, turn)
  {
    var lastIdx := |prices| - 2;
    diverges := false;
    var recent := FindTurn(prices, w, turn, lastIdx, lastIdx - RecentSpan);
    if recent != -1 {
      var prev := FindTurn(prices, w, turn, recent - 1, recent - 1 - PreviousSpan);
      DivergesFromSearch(prices, ind, w, turn, recent, prev);
      if prev != -1 {
        match turn
        case Peak =>
          diverges := prices[recent] > prices[prev] && Less(ind[recent], ind[prev]);
        case Trough =>
          diverges := prices[recent] < prices[prev] && Less(ind[prev], ind[recent]);
      }
    } else {
      DivergesFromSearch(prices, ind, w, turn, recent, -1);
    }
  }
}
