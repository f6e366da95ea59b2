/**
 * The open-interest regime of `QuantLogic`: each candle is classified by the
 * sign of its close change and of its open-interest change.
 */
module OiRegime {
  import opened Wrappers
  import opened Columns
  import opened Candles

  datatype Regime = LongBuildup | ShortCovering | ShortBuildup | LongLiquidation | Neutral
  {
    /** The label written into the regime column. */
    function Label(): string
    {
      match this
      case LongBuildup => "Long Buildup 🟢"
      case ShortCovering => "Short Covering 👻"
      case ShortBuildup => "Short Buildup 🔴"
      case LongLiquidation => "Long Liq 🩸"
      case Neutral => "Neutral"
    }
  }

  /** Different regimes carry different labels. */
  lemma LabelsDistinct(a: Regime, b: Regime)
    ensures a.Label() == b.Label() <==> a == b
  {
    if a != b {
      assert a.Label() != b.Label() by {
        // Each label is told apart by its length or by its first character.
        assert |LongBuildup.Label()| == 14 && |ShortCovering.Label()| == 16;
        assert |ShortBuildup.Label()| == 15 && |LongLiquidation.Label()| == 10 && |Neutral.Label()| == 7;
      }
    }
  }

  /**
   * numpy `select`: the choice of the first condition that holds, or `default`
   * when none does.
   */
  function Select<T>(conds: seq<bool>, choices: seq<T>, default: T): (r: T)
    requires |conds| == |choices|
    ensures (forall k :: 0 <= k < |conds| ==> !conds[k]) ==> r == default
    ensures forall k :: 0 <= k < |conds| && conds[k] && (forall j :: 0 <= j < k ==> !conds[j]) ==> r == choices[k]
  {
    if |conds| == 0 then default
    else if conds[0] then choices[0]
    else
      var r := Select(conds[1..], choices[1..], default);
      assert forall k :: 1 <= k < |conds| ==> conds[k] == conds[1..][k - 1] && choices[k] == choices[1..][k - 1];
      r
  }

  /** A change that is defined and positive; NaN compares false. */
  predicate Rising(x: Option<real>)
  {
    x.Some? && x.value > 0.0
  }

  /** A change that is defined and negative; NaN compares false. */
  predicate Falling(x: Option<real>)
  {
    x.Some? && x.value < 0.0
  }

  /** The regime of one row from its close change and its open-interest change. */
  function Classify(price: Option<real>, oi: Option<real>): Regime
  {
    Select([Rising(price) && Rising(oi), Rising(price) && Falling(oi),
            Falling(price) && Rising(oi), Falling(price) && Falling(oi)],
           [LongBuildup, ShortCovering, ShortBuildup, LongLiquidation],
           Neutral)
  }

  /**
   * The four conditions exclude one another, so each regime is chosen exactly
   * when its own condition holds, and `Neutral` exactly when none does.
   */
  lemma ClassifyExact(price: Option<real>, oi: Option<real>)
    ensures Classify(price, oi) == LongBuildup <==> Rising(price) && Rising(oi)
    ensures Classify(price, oi) == ShortCovering <==> Rising(price) && Falling(oi)
    ensures Classify(price, oi) == ShortBuildup <==> Falling(price) && Rising(oi)
    ensures Classify(price, oi) == LongLiquidation <==> Falling(price) && Falling(oi)
    ensures Classify(price, oi) == Neutral <==>
      (!Rising(price) && !Falling(price)) || (!Rising(oi) && !Falling(oi))
  {
    var conds := [Rising(price) && Rising(oi), Rising(price) && Falling(oi),
                  Falling(price) && Rising(oi), Falling(price) && Falling(oi)];
    var choices := [LongBuildup, ShortCovering, ShortBuildup, LongLiquidation];
    if Rising(price) && Rising(oi) {
      assert conds[0];
    } else if Rising(price) && Falling(oi) {
      assert conds[1] && !conds[0];
    } else if Falling(price) && Rising(oi) {
      assert conds[2] && !conds[0] && !conds[1];
    } else if Falling(price) && Falling(oi) {
      assert conds[3] && !conds[0] && !conds[1] && !conds[2];
    } else {
      assert forall k :: 0 <= k < 4 ==> !conds[k];
    }
  }

  /** The columns the regime step adds: both changes and the regime. */
  datatype RegimeColumns = RegimeColumns(priceChange: Column, oiChange: Column, regime: seq<Regime>)

  function IdentifyOiRegime(cs: seq<Candle>): (r: RegimeColumns)
    ensures |r.priceChange| == |r.oiChange| == |r.regime| == |cs|
  {
    var price := Diff(Defined(Closes(cs)));
    var oi := Diff(OpenInterest(cs));
    RegimeColumns(price, oi, seq(|cs|, i requires 0 <= i < |cs| => Classify(price[i], oi[i])))
  }

  /**
   * Row 0, an unchanged close, an unchanged open interest and a missing open
   * interest on this row or the one before all give `Neutral`; otherwise the
   * regime follows the signs of the two changes.
   */
  lemma RegimeRow(cs: seq<Candle>, i: nat)
    requires i < |cs|
    ensures i == 0 ==> IdentifyOiRegime(cs).regime[i] == Neutral
    ensures i > 0 && cs[i].close == cs[i - 1].close ==> IdentifyOiRegime(cs).regime[i] == Neutral
    ensures i > 0 && (cs[i].oi.None? || cs[i - 1].oi.None? || cs[i].oi == cs[i - 1].oi) ==>
      IdentifyOiRegime(cs).regime[i] == Neutral
    ensures i > 0 && cs[i].oi.Some? && cs[i - 1].oi.Some? ==>
      var up, down := cs[i - 1].close < cs[i].close, cs[i].close < cs[i - 1].close;
      var more, less := cs[i - 1].oi.value < cs[i].oi.value, cs[i].oi.value < cs[i - 1].oi.value;
      && (IdentifyOiRegime(cs).regime[i] == LongBuildup <==> up && more)
      && (IdentifyOiRegime(cs).regime[i] == ShortCovering <==> up && less)
      && (IdentifyOiRegime(cs).regime[i] == ShortBuildup <==> down && more)
      && (IdentifyOiRegime(cs).regime[i] == LongLiquidation <==> down && less)
  {
    var r := IdentifyOiRegime(cs);
    var price, oi := r.priceChange[i], r.oiChange[i];
    assert r.regime[i] == Classify(price, oi);
    if i > 0 {
      assert price == Some(cs[i].close - cs[i - 1].close);
      assert oi == if cs[i].oi.Some? && cs[i - 1].oi.Some? then Some(cs[i].oi.value - cs[i - 1].oi.value) else None;
    } else {
      assert price == None;
    }
    ClassifyExact(price, oi);
  }
}
