/**
 * The candle series the engine consumes: one record per candle, ordered by
 * time, already merged with open interest by the data feed.
 */
module Candles {
  import opened Wrappers

  /**
   * One candle. `oi` is undefined where the feed had no open-interest reading
   * (a forward fill leaves the leading rows undefined).
   */
  datatype Candle = Candle(
    timestamp: int,
    open: real,
    high: real,
    low: real,
    close: real,
    volume: real,
    takerBuyVol: real,
    oi: Option<real>)

  /** What the data feed guarantees of a single candle. */
  predicate WellFormed(c: Candle)
  {
    && 0.0 < c.low <= c.open <= c.high
    && c.low <= c.close <= c.high
    && 0.0 <= c.takerBuyVol <= c.volume
    && (c.oi.Some? ==> 0.0 <= c.oi.value)
  }

  /** What the data feed guarantees of the series: sound candles, strictly ascending timestamps. */
  predicate WellFormedSeries(cs: seq<Candle>)
  {
    && (forall i :: 0 <= i < |cs| ==> WellFormed(cs[i]))
    && (forall i, j :: 0 <= i < j < |cs| ==> cs[i].timestamp < cs[j].timestamp)
  }

  /** `(high + low + close) / 3`. */
  function TypicalPrice(c: Candle): real
  {
    (c.high + c.low + c.close) / 3.0
  }

  function Closes(cs: seq<Candle>): (r: seq<real>)
    ensures |r| == |cs|
  {
    seq(|cs|, i requires 0 <= i < |cs| => cs[i].close)
  }

  function Highs(cs: seq<Candle>): (r: seq<real>)
    ensures |r| == |cs|
  {
    seq(|cs|, i requires 0 <= i < |cs| => cs[i].high)
  }

  function Lows(cs: seq<Candle>): (r: seq<real>)
    ensures |r| == |cs|
  {
    seq(|cs|, i requires 0 <= i < |cs| => cs[i].low)
  }

  function Volumes(cs: seq<Candle>): (r: seq<real>)
    ensures |r| == |cs|
  {
    seq(|cs|, i requires 0 <= i < |cs| => cs[i].volume)
  }

  function TypicalPrices(cs: seq<Candle>): (r: seq<real>)
    ensures |r| == |cs|
  {
    seq(|cs|, i requires 0 <= i < |cs| => TypicalPrice(cs[i]))
  }

  function OpenInterest(cs: seq<Candle>): (r: seq<Option<real>>)
    ensures |r| == |cs|
  {
    seq(|cs|, i requires 0 <= i < |cs| => cs[i].oi)
  }
}
