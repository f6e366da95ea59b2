# QuantLogic indicator engine, modelled in Dafny

This project models the analytics core of a crypto market dashboard: the
`QuantLogic` class in `logic/indicators.py`. Its static methods take a
time-ordered candle series and attach derived columns. These are the anchored
VWAP, cumulative volume delta, the open-interest regime, swing-failure-pattern
labels, RSI, MFI, OBV, Chaikin Money Flow, Bollinger Bands, MACD and Stochastic
RSI. Two methods read those columns back. One searches price pivots for regular
divergences against four oscillators. The other combines divergences and six
indicator rules into a scored technical summary with a sentiment tier, a display
colour and a list of signals without duplicates.

Modelling conventions:

- A candle series is a `seq<Candle>`. A derived column is a `Column`, that is,
  a `seq<Option<real>>` where `None` stands for pandas' NaN. Every comparison
  with NaN is false, which is what `Columns.Less` states.
- pandas' `rolling(window=p)` gives a value only when all `p` values in the
  window are defined. `diff()` and `shift(1)` leave row 0 undefined.
  `cumsum()` is a prefix sum. `ewm(span, adjust=False)` is the recurrence that
  starts at the first value, with `alpha = 2 / (span + 1)`.
- The column transforms are pure functions (`wrappers.dfy`, `columns.dfy`,
  `candles.dfy`, `indicators.dfy`, `oscillators.dfy`, `trend.dfy`,
  `regime.dfy`). The swing-failure detector, the divergence detector and the
  summary keep the loops and masked writes of the source, as methods proved
  against specification functions (`sfp.dfy`, `divergence.dfy`, `summary.dfy`).
- The Python defaults are named constants: SFP window 5, RSI/MFI 14, CMF 20,
  Bollinger 20 and 2, MACD 12/26/9, StochRSI 14/3/3, pivot window 5, and search
  bounds of 20 recent and 49 previous candidates.

Where the code departs from the textbook definitions of these indicators, the model follows the code:

- The search for the previous pivot runs `range(r - 1, r - 50, -1)`. That is 49
  candidates, not 50 (`Divergence.PreviousSpan`).
- With `loss == 0` and some gain, RSI is 100 because `gain / 0` is infinite.
  It is undefined only when both averages are 0. MFI behaves the same way.
- A candle with `high == low` has an undefined CMF multiplier. The rolling sum
  then leaves CMF undefined on every row whose window contains that candle, not
  only on that row (`Oscillators.CmfFlatCandle`).
- The VWAP and MACD rules have a plain `else` branch. An undefined VWAP or MACD
  therefore votes bearish instead of being skipped (`Summary.RulesVote`).
- Four oscillators contribute at most ±2 each and the rules at most ±7, so the
  score lies in [-15, 15] (`Summary.ScoreBounds`).

## Model

| member | source | states |
|---|---|---|
| Columns.Window | logic/indicators.py:74-75 | a rolling window at row `i` exists exactly when `i >= p - 1` and all `p` values up to row `i` are defined; it then holds those values in order |
| Columns.WindowDefined | logic/indicators.py:98-99 | over a column without NaN, the window at row `i` exists exactly from row `p - 1` on and is the slice ending at `i` |
| Columns.CumSumSteps | logic/indicators.py:11 | a cumulative sum starts at the first value and each row adds its own value to the previous total |
| Columns.RollingExtremaDefined | logic/indicators.py:151-152 | over a column without NaN, the rolling min and max are the minimum and maximum of the window from row `p - 1` on, and undefined before |
| Columns.RollingExtremaEnclose | logic/indicators.py:151-154 | where the rolling min is defined, the rolling max and the value itself are defined and the value lies between them |
| Columns.RollingMeanBounded | logic/indicators.py:155-156 | a rolling mean of a column bounded by `[lo, hi]` stays within `[lo, hi]` |
| Indicators.Vwap | logic/indicators.py:7-12 | the VWAP column: at each row the running sum of typical price times volume over the running sum of volume, undefined where the summed volume is 0 |
| Indicators.VwapAt | logic/indicators.py:7-12 | VWAP at row `i` is the cumulative price-volume over the cumulative volume, undefined when the cumulative volume is 0 |
| Indicators.VwapIsAverage | logic/indicators.py:9-11 | with non-negative volumes VWAP is undefined exactly when the cumulative volume is 0, and otherwise lies between the lowest and highest typical price so far |
| Indicators.VwapConstantVolume | logic/indicators.py:9-11 | with constant positive volume, VWAP is the running mean of the typical prices |
| Indicators.Cvd | logic/indicators.py:15-29 | the CVD column: the running sum of the per-candle delta, which is the taker buy volume minus the taker sell volume `volume - taker_buy_vol` |
| Indicators.CvdIsPrefixSum | logic/indicators.py:15-29 | delta is `2 * taker_buy_vol - volume`, within `±volume` for a sound candle; CVD starts at the first delta and each row adds its delta |
| Indicators.Obv | logic/indicators.py:106-109 | the OBV column: the running sum of the volume signed by the direction of the close change, row 0 contributing 0 |
| Indicators.ObvIsPrefixSum | logic/indicators.py:106-109 | OBV starts at 0 and adds the volume on an up close, subtracts it on a down close and is unchanged on an equal close |
| Oscillators.RatioIndex | logic/indicators.py:77-78 | `100 - 100 / (1 + up / down)`, 100 when only `down` is 0, undefined when either input is undefined, both are 0 or the ratio is -1; MFI uses it at lines 101-102 and StochRSI at lines 148-149 |
| Oscillators.RatioIndexRange | logic/indicators.py:77-78 | `100 - 100 / (1 + up / down)` of non-negative sums lies in [0, 100], is undefined exactly when both are 0, is 100 when only `down` is 0 and 0 when only `up` is 0 |
| Oscillators.Rsi | logic/indicators.py:71-79 | RSI: the ratio index of the rolling means over `p` rows of the gains and of the losses of the close-to-close changes |
| Oscillators.RsiAt | logic/indicators.py:73-78 | at a full window RSI is the index of the mean gain and mean loss of the last `p` close changes |
| Oscillators.RsiWarmUp | logic/indicators.py:74-75 | RSI is undefined before row `p - 1` |
| Oscillators.StillWindow | logic/indicators.py:73-75 | both averages are 0 exactly when no close moved within the window |
| Oscillators.NoRiseNoGain | logic/indicators.py:74 | a window without a rising close has a zero mean gain |
| Oscillators.NoFallNoLoss | logic/indicators.py:75 | a window without a falling close has a zero mean loss |
| Oscillators.RiseGivesGain | logic/indicators.py:74 | one rising close in the window makes the mean gain positive |
| Oscillators.FallGivesLoss | logic/indicators.py:75 | one falling close in the window makes the mean loss positive |
| Oscillators.RsiRange | logic/indicators.py:71-79 | RSI lies in [0, 100] and is defined exactly at full windows in which some close moved |
| Oscillators.RsiAllRises | logic/indicators.py:73-78 | a window with rises and no falls gives RSI 100 |
| Oscillators.RsiAllFalls | logic/indicators.py:73-78 | a window with falls and no rises gives RSI 0 |
| Oscillators.Mfi | logic/indicators.py:82-103 | MFI: the ratio index of the rolling sums over `p` rows of the positive and negative money flow; a row's flow is typical price times volume, positive when the typical price rose and negative when it fell |
| Oscillators.MfiAt | logic/indicators.py:97-102 | MFI is undefined before row `p - 1` and then is the index of the summed positive and negative money flows |
| Oscillators.FlowsNonNegative | logic/indicators.py:89-95 | the money flows of a sound series are non-negative, and a row carries a flow exactly when its typical price moved with positive volume |
| Oscillators.MfiRange | logic/indicators.py:82-103 | MFI lies in [0, 100] and is defined exactly at full windows with some flow |
| Oscillators.NoDropNoOutflow | logic/indicators.py:95-99 | without a falling typical price in the window the negative flow sums to 0 |
| Oscillators.RiseGivesInflow | logic/indicators.py:94-98 | a rising typical price with positive volume makes the positive flow sum positive |
| Oscillators.MfiAllInflow | logic/indicators.py:94-102 | inflow without outflow gives MFI 100 |
| Oscillators.MultiplierRange | logic/indicators.py:115 | the money-flow multiplier of a sound candle with a range lies in [-1, 1] |
| Oscillators.FlowVolumeBounds | logic/indicators.py:115-116 | money-flow volume lies within `±volume` |
| Oscillators.CmfFlatCandle | logic/indicators.py:115-118 | a candle with `high == low` leaves CMF undefined on every row whose window contains it |
| Oscillators.FlowWindowDefined | logic/indicators.py:115-118 | the flow window exists exactly at full windows without a flat candle |
| Oscillators.FlowWindowBounds | logic/indicators.py:116-118 | the summed flow volume lies within `±` the summed volume, which is non-negative |
| Oscillators.Cmf | logic/indicators.py:112-119 | CMF: the rolling sum of multiplier times volume over the rolling sum of volume, the multiplier `((close - low) - (high - close)) / (high - low)` being undefined for a candle with `high == low` |
| Oscillators.CmfAt | logic/indicators.py:118 | CMF is defined exactly at full windows without a flat candle and with a nonzero summed volume, and is then the flow sum over the volume sum |
| Oscillators.CmfRange | logic/indicators.py:112-119 | CMF lies in [-1, 1], with the same condition for being defined |
| Oscillators.PositionRange | logic/indicators.py:154 | a value between `lo` and `hi` has a position in [0, 100], defined exactly when `lo != hi` |
| Oscillators.Stoch | logic/indicators.py:151-154 | each value's position `(v - min) / (max - min) * 100` within its rolling window of `p` values, undefined when the window is incomplete or flat |
| Oscillators.StochAt | logic/indicators.py:151-154 | a defined stochastic value lies in [0, 100], and its rolling min is defined and differs from the max |
| Oscillators.StochRange | logic/indicators.py:151-154 | the stochastic column is bounded by [0, 100] everywhere |
| Oscillators.StochRsi | logic/indicators.py:141-157 | Stochastic RSI: `%K` is the rolling mean over `smooth_k` rows of the stochastic position of RSI, `%D` the rolling mean of `%K` over `smooth_d` rows |
| Oscillators.StochRsiRange | logic/indicators.py:141-157 | both `%K` and `%D` of Stochastic RSI stay within [0, 100] |
| Trend.VarianceNonNegative | logic/indicators.py:125 | the sample variance (ddof 1) exists exactly for at least two values and is non-negative |
| Trend.VarianceOfConstant | logic/indicators.py:125 | the sample variance of equal values is 0 |
| Trend.Bollinger | logic/indicators.py:122-128 | the bands: mid is the rolling mean of the closes, upper and lower are mid plus and minus `std_dev` times the rolling sample standard deviation |
| Trend.BollingerOrdered | logic/indicators.py:122-128 | the bands are defined together, exactly from row `p - 1` on when `p >= 2`; lower ≤ mid ≤ upper, with mid halfway between them |
| Trend.BollingerFlat | logic/indicators.py:122-128 | over a window of equal closes all three bands equal that close |
| Trend.Alpha | logic/indicators.py:133 | the smoothing factor `2 / (span + 1)` lies in (0, 1] |
| Trend.Ema | logic/indicators.py:133-136 | the exponential moving average with `adjust=False`: the first value, then `(1 - alpha)` times the previous average plus `alpha` times the new value |
| Trend.EmaStep | logic/indicators.py:133-136 | each EMA value is `(1 - alpha)` times the previous EMA plus `alpha` times the new value |
| Trend.EmaRecurrence | logic/indicators.py:133-136 | the EMA starts at the first value and moves a fraction `alpha` of the way towards each new value |
| Trend.EmaStepBounded | logic/indicators.py:133 | one EMA step keeps the value within any bounds that hold both the previous EMA and the new value |
| Trend.EmaBounded | logic/indicators.py:133-136 | every EMA value lies between the minimum and maximum of the values seen so far |
| Trend.EmaOfConstant | logic/indicators.py:133-136 | the EMA of a constant series is that constant |
| Trend.Macd | logic/indicators.py:131-138 | MACD is the fast EMA minus the slow EMA of the closes, the signal line the EMA of MACD, the histogram MACD minus signal |
| Trend.MacdHistogram | logic/indicators.py:131-138 | hist = macd − signal, positive exactly when macd is above its signal line; the signal lies within the range of MACD values so far |
| Trend.MacdOfFlatCloses | logic/indicators.py:131-138 | flat closes give MACD, signal and histogram all equal to 0 |
| OiRegime.LabelsDistinct | logic/indicators.py:45-47 | the five regime labels are pairwise distinct |
| OiRegime.Select | logic/indicators.py:47 | `np.select` returns the choice of the first true condition, or the default when none holds |
| OiRegime.Classify | logic/indicators.py:39-47 | the regime of one row from its price and OI changes: the first of the four sign conditions that holds, else Neutral |
| OiRegime.ClassifyExact | logic/indicators.py:39-47 | each regime holds exactly under its sign pattern of price and OI change; Neutral holds exactly when either change is zero or undefined |
| OiRegime.IdentifyOiRegime | logic/indicators.py:32-48 | `price_change` and `oi_change` as first differences, undefined at row 0 and where OI is missing, and each row's regime from them |
| OiRegime.RegimeRow | logic/indicators.py:32-48 | row 0, an unchanged close and an undefined or unchanged OI give Neutral; otherwise the four regimes match the four sign combinations exactly |
| Sfp.WriteSignals | logic/indicators.py:55-66 | after the two masked writes each row holds the bearish label if its bearish mask is set, else the bullish label if its bullish mask is set, else nothing |
| Sfp.DetectSfp | logic/indicators.py:51-68 | the signal column has one entry per candle, equal to the specified label of that row |
| Sfp.PriorLowAt | logic/indicators.py:58 | the shifted rolling low exists exactly from row `w` on and is the minimum low of the `w` previous candles |
| Sfp.PriorHighAt | logic/indicators.py:62 | the shifted rolling high exists exactly from row `w` on and is the maximum high of the `w` previous candles |
| Sfp.SignalWarmUp | logic/indicators.py:58-66 | no row before `w` gets a label |
| Sfp.SignalExact | logic/indicators.py:57-66 | bearish exactly when close < prior max < high; bullish exactly when low < prior min < close and the bearish condition fails |
| Divergence.RangeMaxBounds | logic/indicators.py:167 | the maximum of a slice bounds every element of the slice and is one of them |
| Divergence.RangeMinBounds | logic/indicators.py:171 | the minimum of a slice is below every element of the slice and is one of them |
| Divergence.IsPeak | logic/indicators.py:165-167 | a row is a peak when it lies at least `w` rows from both ends and equals the maximum of the `2w + 1` values centred on it |
| Divergence.IsTrough | logic/indicators.py:169-171 | a row is a trough when it lies at least `w` rows from both ends and equals the minimum of the `2w + 1` values centred on it |
| Divergence.PeakExact | logic/indicators.py:165-167 | a row is a peak exactly when it lies at least `w` rows from both ends and no value within `w` rows exceeds it |
| Divergence.TroughExact | logic/indicators.py:169-171 | a row is a trough exactly when it lies at least `w` rows from both ends and no value within `w` rows is below it |
| Divergence.LastTurn | logic/indicators.py:186-190 | the backward search returns -1 or an index in `(stop, from]` that lies at least `w` rows from both ends |
| Divergence.LastTurnNearest | logic/indicators.py:186-190 | a found index is a pivot and no later candidate up to `from` is one; -1 exactly when no candidate is a pivot |
| Divergence.NearestFound | logic/indicators.py:186-198 | a pivot with no pivot after it up to `from` is what the search returns |
| Divergence.FindTurn | logic/indicators.py:186-190 | the loop with `break` returns the same index as the search function |
| Divergence.Diverges | logic/indicators.py:184-228 | the divergence condition of one oscillator and pivot kind: the last pivot among the 20 recent candidates and the last among the 49 before it both exist, and price and oscillator compare strictly in opposite directions between them |
| Divergence.DivergesFromSearch | logic/indicators.py:192-205 | a divergence holds exactly when both searches succeed and price and oscillator compare strictly in opposite directions |
| Divergence.PairOfDivergence | logic/indicators.py:184-205 | a divergence yields a pivot pair: `r` is the last pivot among the 20 recent candidates, `q` the last pivot among the 49 before it, and price and oscillator move apart between them |
| Divergence.DivergenceOfPair | logic/indicators.py:184-205 | any such pivot pair makes the divergence hold |
| Divergence.DivergesExact | logic/indicators.py:184-228 | a divergence is signalled exactly when such a pivot pair exists |
| Divergence.EmittedMembers | logic/indicators.py:200-228 | an oscillator emits a divergence exactly when the condition of its polarity holds |
| Divergence.DivergencesUpToMembers | logic/indicators.py:179-228 | after the first `n` oscillators the signals are exactly those of the checked, present oscillators whose condition holds |
| Divergence.DivergenceEmitted | logic/indicators.py:176-230 | a divergence is reported exactly when its oscillator's column is present and its condition holds |
| Divergence.EmittedKeys | logic/indicators.py:184-228 | one oscillator emits at most a bearish and then a bullish signal |
| Divergence.DivergencesUpToOrdered | logic/indicators.py:179-228 | the signals of the first `n` oscillators come in oscillator order, bearish before bullish |
| Divergence.DivergencesOrdered | logic/indicators.py:176-230 | the reported divergences follow the order RSI, MFI, CMF, MACD, bearish before bullish, with no repeats |
| Divergence.SearchDivergence | logic/indicators.py:184-205 | the nested search with its comparisons returns exactly the divergence condition; the same method serves peaks and troughs (lines 207-228) |
| Divergence.ScanOscillator | logic/indicators.py:184-228 | one oscillator's signals are the texts of its emitted divergences |
| Divergence.DetectDivergences | logic/indicators.py:160-230 | the returned list is the texts of the specified divergences, in order |
| Summary.SentimentOf | logic/indicators.py:298-312 | the tier is strong bullish for a score ≥ 3, bullish for 1..2, neutral for 0, bearish for -2..-1 and strong bearish for ≤ -3, each in both directions |
| Summary.SentimentMonotone | logic/indicators.py:298-312 | a higher score never gives a more bearish tier |
| Summary.SignalPolarity | logic/indicators.py:246-247 | a divergence text contains "Bullish" exactly when it is bullish and "Bearish" exactly when it is bearish |
| Summary.DivergenceScoreIsTally | logic/indicators.py:243-247 | scoring the divergence texts gives +2 per bullish and -2 per bearish divergence |
| Summary.TallyEmitted | logic/indicators.py:243-247 | one oscillator's divergences add between -2 and 2 |
| Summary.TallyUpTo | logic/indicators.py:243-247 | the first `n` oscillators add between `-2n` and `2n` |
| Summary.RulesVote | logic/indicators.py:249-295 | VWAP and MACD always vote, bearishly when undefined; an undefined RSI, CMF, pair of Bollinger bands or `%K` casts no vote; the rules add 2 to 6 signals and move the score by at most 7 |
| Summary.ScoreBounds | logic/indicators.py:240-295 | the score is the divergence tally plus the rule weights and lies in [-15, 15] |
| Summary.Unique | logic/indicators.py:314-320 | the list with every element after its first occurrence dropped |
| Summary.UniqueElements | logic/indicators.py:314-320 | removing duplicates keeps exactly the elements of the input |
| Summary.UniqueDistinct | logic/indicators.py:314-320 | the result has no repeated element |
| Summary.UniqueOrder | logic/indicators.py:314-320 | the result keeps elements in the order of their first occurrences |
| Summary.UniqueOfDistinct | logic/indicators.py:314-320 | a list without repeats is unchanged |
| Summary.RemoveDuplicates | logic/indicators.py:314-320 | the loop with a `seen` set computes the order-preserving removal of duplicates |
| Summary.CountDivergences | logic/indicators.py:243-247 | the divergence loop keeps every text and scores it +2 for "Bullish" and -2 for "Bearish" |
| Summary.VwapRule | logic/indicators.py:249-255 | appends the VWAP rule's signal and adds its weight |
| Summary.RsiRule | logic/indicators.py:257-263 | appends the RSI rule's signal, if any, and adds its weight |
| Summary.CmfRule | logic/indicators.py:265-271 | appends the CMF rule's signal, if any, and adds its weight |
| Summary.MacdRule | logic/indicators.py:273-279 | appends the MACD rule's signal and adds its weight |
| Summary.BollingerRule | logic/indicators.py:281-287 | appends the Bollinger rule's signal, if any, and adds its weight |
| Summary.StochRule | logic/indicators.py:289-295 | appends the Stochastic RSI rule's signal, if any, and adds its weight |
| Summary.ApplyRules | logic/indicators.py:249-295 | the six rules in order append their signals and add their weights |
| Summary.Expected | logic/indicators.py:233-327 | the report of the last row: the tier of the score, the score as divergence points plus rule weights, the raw signals without repeats and the tier's colour |
| Summary.ReportShape | logic/indicators.py:233-327 | the report's signals are the raw signals without repeats in first-occurrence order; its label and colour are those of its score's tier, and the score lies in [-15, 15] |
| Summary.GenerateTechnicalSummary | logic/indicators.py:233-327 | an empty frame gives no report; otherwise the report is the tier, score, deduplicated signals and colour specified for the last row |

## Left out

- Floating point: values are exact reals. Rounding, `±inf` and NaN payloads are
  not modelled. NaN is `None`. An infinite quotient is modelled only where it
  has a finite effect: RSI and MFI become 100.
- Division by zero elsewhere yields an undefined value, where pandas gives NaN
  for `0 / 0` and `±inf` otherwise. Each such division has a zero numerator
  whenever its divisor is zero, so NaN is what pandas gives too:
  - VWAP (line 11) and the final CMF division (line 118): volumes are
    non-negative, so a zero summed volume means every volume in the sum is 0,
    and so is every product with it.
  - The CMF multiplier (line 115): in a sound candle `low <= close <= high`, so
    `high == low` forces `close == high == low` and the numerator is 0.
  - The StochRSI position (line 154): a value lies within its own rolling
    window, so `max == min` forces `rsi == min` and the numerator is 0.
- Trend.RollingStd: the square root is a parameter `root`. Only its
  non-negativity (`Trend.NonNegativeRoot`) is assumed, and `root(0) == 0` for
  `Trend.BollingerFlat`.
- Periods are positive (`Columns.Period`). Every call site uses the positive
  defaults. A window of 0, which pandas accepts, is not modelled.
- The DataFrame is mutated in place by adding columns. The model returns the
  columns as values instead. The intermediate columns `price_change` and
  `oi_change` are kept, while `bb_std`, `ema_fast` and `ema_slow` are internal
  to the functions.
- Summary.GenerateTechnicalSummary: the frame's indicator columns are inputs.
  Their link to the indicator functions is not stated, because the source reads
  whatever columns the frame carries.
- Summary.GenerateTechnicalSummary: the frame always carries the columns the
  rules read: `vwap`, `rsi`, `cmf`, `macd`, `macd_signal`, `bb_upper`,
  `bb_lower`, `stoch_k` and `stoch_d`. A frame missing one of them raises
  `KeyError` in the source, and that error is not modelled. The `mfi` column,
  which no rule reads, is optional in `Summary.Frame`. The divergence detector
  skips it when it is absent (line 182).
- Summary.GenerateTechnicalSummary: an empty frame, where `df.iloc[-1]` raises
  `IndexError`, is modelled as a `None` result.
- The returned dictionary is the `Summary.Report` datatype.
- The candle `timestamp` and `open` fields are carried but unused by the
  indicators.
- `main.py` (presentation) and `data_feed.py` (fetching, caching, merging open
  interest) are not part of this model. The candle series is an input.
