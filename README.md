# tbot intraday core in Dafny

A model of the intraday "T+0" trading core of tbot, together with proofs about it. T+0 here means tactical shares traded around a fixed core position and flattened within the day. The model covers:

- **Ledger.** The per-symbol tactical ledger. Buys and sells are matched into round trips in either order, realised profit comes from the average prices, and each step's size is capped.
- **Risk gate.** An ordered, fail-fast cascade of seven pre-trade vetoes.
- **Signal generator.** One strategy per day type, plus the breakout counters that gate the range-day strategy.
- **Trading engine.** Daily rollover, lazy symbol registration, classify-if-unknown, then gate, then generator, then the simulated executor. The ledger is updated only in simulation mode.
- **Regime classifier.** Additive weighted scores with a first-maximum choice, and the feature extraction that feeds it.
- **Indicators.** Session VWAP, the OR5/OR15 opening-range tracker, the daily MA20 and the ATR.
- **Bar aggregator.** Builds fixed-interval OHLCV bars.
- **Helpers.** Market-session and trading-window arithmetic, risk/reward and position sizing, and headline keyword scoring.
- **Reports and services.** The daily report's tradeability bookkeeping, the watch list, and the sequential bookkeeping of the TWS market-data service (TWS is the broker's Trader Workstation).
- **Web API.** The pure parts: symbol checks, the quick day-type heuristic, sparkline thinning and the MA20 fallback.

Files and the source each one models:

| file | source |
|---|---|
| `common.dfy` | shared vocabulary: `Option`/`Result`, real helpers, ASCII text helpers, instants split into day and time of day, candles |
| `reasons.dfy` | the explanation messages of risk results and signals, as tagged values |
| `ledger.dfy` | `src/tbot/engine/state.py` |
| `risk_gate.dfy` | `src/tbot/engine/risk_gate.py` |
| `signal_generator.dfy` | `src/tbot/engine/signal_generator.py` |
| `engine.dfy` | `src/tbot/engine/engine.py` |
| `rules.dfy` | `src/tbot/regime/rules.py` |
| `features.dfy` | `src/tbot/regime/features.py` |
| `vwap.dfy` | `src/tbot/indicators/vwap.py` |
| `opening_range.dfy` | `src/tbot/indicators/opening_range.py` |
| `ma20.dfy` | `src/tbot/indicators/ma20.py` |
| `bar_aggregator.dfy` | `src/tbot/datafeed/bar_aggregator.py` |
| `market_time.dfy` | `src/tbot/utils/time.py` |
| `math_util.dfy` | `src/tbot/utils/math.py` |
| `news_events.dfy` | `src/tbot/services/news_event_detector.py` |
| `daily_report.dfy` | `src/tbot/report/daily_report.py` |
| `tws_data.dfy` | `src/tbot/services/tws_data_service.py` |
| `watchlist.dfy` | `src/tbot/api/watchlist.py` |
| `api_main.dfy` | `src/tbot/api/main.py` |

Conventions:

- **Numbers.** Prices and volumes are `real`s and share counts are `int`s. News scores are whole hundredths.
- **Time.** An instant is a whole number of seconds since an epoch at midnight US Eastern time, so the day and the time of day both follow by division.
- **Classes.** Objects whose fields the source updates in place become classes with `modifies` clauses: the ledger, the VWAP and opening-range trackers, the bar aggregator, the signal generator, the engine, the simulated executor, the daily report, the TWS service and the watch list manager. Their methods are proved against pure functions, and the properties are proved about those functions.
- **Error paths.** Exceptions that the source raises on reachable inputs are modelled as outcomes, not excluded by preconditions:
  - completing an opening-range window that never saw a bar;
  - the range strategy's division by a zero opening-range bound;
  - a bar aggregator whose interval is zero (the division by zero when a sub-bar arrives) or negative (a bar start rounded up past midnight).
- **Engine callbacks.** `on_signal`, `on_trade` and `on_regime_change` become an event log that the engine appends to.

Quirks of the source that the model keeps:

- **Event score in the argmax.** The event score competes in the first-maximum choice, and a winning event score below 0.7 gives an unknown day.
- **Range balance bonus.** It is a flat 0.2.
- **VWAP date reset.** A VWAP update on a new date resets the tracker even when its volume is zero.
- **ATR history.** ATR(20) needs 21 daily rows.
- **TWS subscription.** The service's subscription check uses the symbol as given, but it stores the upper-cased one.
- **Report re-adds.** Re-adding a tradeable symbol to the daily report appends it to the tradeable list a second time.
- **Range sell confidence.** The range strategy's sell confidence uses the signed deviation.

## Model

| member | source | states |
|---|---|---|
| `Ledger.Settle` | src/tbot/engine/state.py:209-249 | matching keeps the inventory and the pending difference; with both sides pending it completes exactly one round trip, leaves at most one side non-zero, adds matched × (average sell − average buy) to the profit and leaves each remaining side costed at its old average price |
| `Ledger.ApplyBuy` | src/tbot/engine/state.py:129-167 | a buy raises the inventory by exactly the shares and keeps a matched ledger matched |
| `Ledger.ApplySell` | src/tbot/engine/state.py:169-207 | a sell lowers the inventory by exactly the shares and keeps a matched ledger matched |
| `Ledger.PendingIsInventory` | src/tbot/engine/state.py:209-249 | in a matched ledger the pending buys are the long inventory and the pending sells the short inventory |
| `Ledger.RoundTripCounting` | src/tbot/engine/state.py:209-249 | a buy counts one round trip exactly when sells were pending, a sell exactly when buys were; round trips count matching events, not shares |
| `Ledger.BuyThenSellScenario` | tests/test_trading_engine.py:59-68 | buy 25 at 100 then sell 25 at 102 gives one round trip, profit 50, flat inventory and nothing pending |
| `Ledger.SellThenBuyScenario` | tests/test_trading_engine.py:59-73 | a following sell 25 at 103 and buy 25 at 101 completes a second round trip, profit 100 in total |
| `Ledger.Position.AvailableBuy` | src/tbot/engine/state.py:251-257 | at most one step; when short, at most the short; otherwise never lifts the inventory above the cap; and it is one of those three limits |
| `Ledger.Position.AvailableSell` | src/tbot/engine/state.py:259-265 | at most one step; when long, at most the long; otherwise never takes the inventory below minus the cap; and it is one of those three limits |
| `Ledger.CanTradeIffRoom` | src/tbot/engine/state.py:267-273 | buying is possible iff a step is configured and the inventory is short or below the cap; selling mirrors it |
| `Ledger.InventoryStaysCapped` | src/tbot/engine/state.py:251-265 | trading no more than the available shares keeps the inventory within plus or minus the cap |
| `Ledger.AvailableSharesScenario` | tests/test_trading_engine.py:75-95 | with cap 50 and step 25: 25/25 at inventory 0, 25/25 at 25, 0/25 at 50 |
| `Ledger.PositionSnapshot.UnrealizedPnl` | src/tbot/engine/state.py:68-73 | zero without an average cost or at the average cost; non-negative for a non-negative holding priced at or above cost |
| `Ledger.TradingState.constructor` | src/tbot/engine/state.py:88-114 | a new ledger has the given sizes, an empty book, no trades and no last trade time |
| `Ledger.TradingState.ResetDaily` | src/tbot/engine/state.py:116-127 | everything but the configured sizes goes back to zero, the trade list is emptied and the last trade time cleared |
| `Ledger.TradingState.RecordBuy` | src/tbot/engine/state.py:129-167 | appends exactly one buy record stamped with the given time, raises the inventory by the shares and leaves the numbers at `ApplyBuy` of the old ones |
| `Ledger.TradingState.RecordSell` | src/tbot/engine/state.py:169-207 | appends exactly one sell record stamped with the given time, lowers the inventory by the shares and leaves the numbers at `ApplySell` of the old ones |
| `Ledger.TradingState.CheckRoundTripCompletion` | src/tbot/engine/state.py:209-249 | matches the pending sides in place, the new numbers being `Settle` of the old ones; trades and last trade time unchanged |
| `Ledger.TradingState.Snapshot` | src/tbot/engine/state.py:275-282 | the snapshot's total is core plus tactical shares and, carrying no average cost, its unrealised profit is zero |
| `RiskGate.CheckDailyLoss` | src/tbot/engine/risk_gate.py:115-126 | fails iff the day's profit is at or below minus the loss limit, the boundary included |
| `RiskGate.CheckTimeBuffer` | src/tbot/engine/risk_gate.py:128-156 | fails iff the time of day is before the open plus the buffer, the event buffer on event days and the normal one otherwise |
| `RiskGate.CheckCooldown` | src/tbot/engine/risk_gate.py:158-180 | passes with no earlier trade; otherwise fails iff fewer than the cooldown minutes have elapsed, reporting a positive wait |
| `RiskGate.CheckRoundTrips` | src/tbot/engine/risk_gate.py:182-193 | fails iff the round trips done reach the daily cap |
| `RiskGate.CheckCloseOnly` | src/tbot/engine/risk_gate.py:195-208 | fails iff the time of day is at or after the close-only start |
| `RiskGate.CheckSpread` | src/tbot/engine/risk_gate.py:210-221 | fails iff the spread percentage is strictly above the maximum |
| `RiskGate.CheckDepth` | src/tbot/engine/risk_gate.py:223-237 | fails iff the thinner of bid and ask size is below the minimum depth |
| `RiskGate.Checks` | src/tbot/engine/risk_gate.py:95-105 | seven checks with quote data, five without |
| `RiskGate.FirstFailure` | src/tbot/engine/risk_gate.py:107-113 | passes iff every check passes; otherwise it is the first failing check, every earlier one having passed |
| `RiskGate.CheckAll` | src/tbot/engine/risk_gate.py:76-113 | passes iff every listed check passes, with the all-passed reason; otherwise returns the first failure in the fixed order |
| `RiskGate.LossLimitFirst` | src/tbot/engine/risk_gate.py:95-113 | a ledger at its loss limit is refused for the loss, whatever else also fails |
| `RiskGate.LiquidityNeedsQuotes` | src/tbot/engine/risk_gate.py:102-105 | without quote data neither the spread nor the depth check can refuse |
| `RiskGate.PassesIffAllClear` | src/tbot/engine/risk_gate.py:76-237 | the gate passes iff all seven conditions (five without quotes) hold, spelled out on the inputs |
| `RiskGate.IsTradingHours` | src/tbot/engine/risk_gate.py:239-242 | the open and the close themselves are inside trading hours; when the open is after the close no time is |
| `RiskGate.PassedGateIsTradingHours` | src/tbot/engine/risk_gate.py:239-242 | a time the gate lets through is within trading hours, given a close-only start no later than the close |
| `RiskGate.GateScenario` | tests/test_trading_engine.py:101-185 | the suite's loss, opening-buffer (normal and event), cooldown, round-trip and spread cases |
| `MathUtil.CalculateR` | src/tbot/utils/math.py:29-45 | never negative; zero when entry and stop coincide; otherwise the multiple that scales the risk to the reward |
| `MathUtil.PositionSize` | src/tbot/utils/math.py:48-73 | never negative; zero without risk per share or with a negative budget; otherwise the largest whole count whose stop-out loss fits the budget |
| `MathUtil.PositionSizeMonotone` | src/tbot/utils/math.py:48-73 | a larger account never yields fewer shares |
| `MathUtil.PctChange` | src/tbot/utils/math.py:90-103 | zero against a zero base; otherwise the change that takes the base to the current value |
| `MarketTime.SessionAt` | src/tbot/utils/time.py:66-108 | each session holds exactly on its half-open band of the day; `Closed` is never produced |
| `MarketTime.IsMarketOpen` | src/tbot/utils/time.py:111-127 | open exactly in the sessions between pre-market and after-hours |
| `MarketTime.FirstWindow` | src/tbot/utils/time.py:45-48 | finds a window iff some window contains the time, and the one found contains it |
| `MarketTime.TradingAllowed` | src/tbot/utils/time.py:130-163 | allowed iff in 09:45–11:00 or 13:30–15:30, with the window as reason; otherwise the opening, midday, close-only and outside-hours reasons each hold exactly in their session, and "not in a window" covers the rest |
| `MarketTime.TradingProgress` | src/tbot/utils/time.py:166-196 | within [0, 1]; 0 before the open and 1 from the close; in between, the elapsed whole minutes over 390 |
| `MarketTime.ProgressMonotone` | src/tbot/utils/time.py:166-196 | progress never decreases over the day |
| `BarAggregation.BarStart` | src/tbot/datafeed/bar_aggregator.py:136-145 | a zero interval fails (as the division by zero does); a positive one gives the last multiple of the interval at or before the timestamp, on the same day; a negative one rounds up to a multiple within the interval's length after the timestamp, and fails exactly when that passes midnight |
| `BarAggregation.SameBucket` | src/tbot/datafeed/bar_aggregator.py:136-145 | for any non-zero interval, two instants of one day share a bar iff their seconds of day have the same floor quotient by the interval |
| `BarAggregation.StartSecondsSpec` | src/tbot/datafeed/bar_aggregator.py:136-145 | the floored start is a multiple of the interval's length, at or below the seconds of day and less than one interval below them for a positive interval, at or above and less than one length above for a negative one |
| `BarAggregation.OpenBar` | src/tbot/datafeed/bar_aggregator.py:88-99 | a new bar starts at the interval start with the sub-bar's volume and a count of one |
| `BarAggregation.MergeInto` | src/tbot/datafeed/bar_aggregator.py:123-132 | a merge keeps start and open, takes the new close, widens high and low to cover both, adds volume and count, and keeps the old VWAP unless the new one is positive |
| `BarAggregation.AppendTotals` | src/tbot/datafeed/bar_aggregator.py:100-103 | completing a bar adds its volume and sub-bar count to the completed totals |
| `BarAggregation.BarAggregator.constructor` | src/tbot/datafeed/bar_aggregator.py:46-60 | any interval is accepted; a new aggregator has no current bar, no completed bars and no callbacks |
| `BarAggregation.BarAggregator.AddCallback` | src/tbot/datafeed/bar_aggregator.py:62-64 | registers one more callback and changes nothing else |
| `BarAggregation.BarAggregator.OnBar` | src/tbot/datafeed/bar_aggregator.py:66-145 | a sub-bar whose bar start cannot be computed raises and leaves the aggregator unchanged; otherwise it is accepted at that start as by `Accept` |
| `BarAggregation.BarAggregator.Accept` | src/tbot/datafeed/bar_aggregator.py:66-134 | the first sub-bar opens a bar; one in a new interval completes the current bar, appends it, delivers it once to every callback in order and opens a new bar; one in the same interval merges; no sub-bar or volume is lost or counted twice |
| `BarAggregation.BarAggregator.CompletedBars` | src/tbot/datafeed/bar_aggregator.py:152-155 | every completed bar merges at least one sub-bar and starts on a multiple of the interval's length |
| `BarAggregation.BarAggregator.Reset` | src/tbot/datafeed/bar_aggregator.py:176-180 | clears the current and completed bars and keeps the callbacks |
| `VwapIndicator.Ratio` | src/tbot/indicators/vwap.py:139-144 | absent exactly at zero accumulated volume (pandas' NaN and the infinities it replaces); otherwise the price that times the volume gives the accumulated price-volume |
| `VwapIndicator.PrefixVwaps` | src/tbot/indicators/vwap.py:139-146 | one entry per observation, each the VWAP of the observations up to and including it |
| `VwapIndicator.Observations` | src/tbot/indicators/vwap.py:139-140 | each bar contributes its typical price and its volume, row for row |
| `VwapIndicator.CalculateVwap` | src/tbot/indicators/vwap.py:129-146 | one VWAP per row |
| `VwapIndicator.CalculateVwapRows` | src/tbot/indicators/vwap.py:129-146 | row `i` is the VWAP of the rows up to and including `i` |
| `VwapIndicator.PrefixScenario` | tests/test_vwap.py:27-47 | equal volumes at 100 and 102 give VWAPs 100 then 101 |
| `VwapIndicator.AboveFlags` | src/tbot/indicators/vwap.py:184 | a row counts as above iff its VWAP is known and the price is strictly higher |
| `VwapIndicator.Flips` | src/tbot/indicators/vwap.py:184-186 | a series that stays on one side of the VWAP never crosses it |
| `VwapIndicator.FlipsBound` | src/tbot/indicators/vwap.py:181-186 | fewer than two points never flip; otherwise at most one flip per adjacent pair |
| `VwapIndicator.FlipsParity` | src/tbot/indicators/vwap.py:181-186 | an even number of flips ends on the side it started |
| `VwapIndicator.CountVwapCrosses` | src/tbot/indicators/vwap.py:170-186 | 0 for fewer than two points, at most one per adjacent pair, and even iff the first and last point are on the same side |
| `VwapIndicator.CrossesScenario` | tests/test_vwap.py:101-115 | [99, 101, 99, 101, 99] against 100 crosses 4 times, a one-sided series none |
| `VwapIndicator.CountValidBounds` | src/tbot/indicators/vwap.py:203-204 | the rows with a known VWAP are at most all rows, and all of them when none is missing |
| `VwapIndicator.CountAbove` | src/tbot/indicators/vwap.py:205-207 | never more rows above than rows with a known VWAP |
| `VwapIndicator.PctTimeAboveVwap` | src/tbot/indicators/vwap.py:189-207 | within [0, 1]; 0 without valid rows; otherwise the rows above over the valid rows |
| `VwapIndicator.PctAboveScenario` | tests/test_vwap.py:117-123 | three of four prices above a flat VWAP give 0.75 |
| `VwapIndicator.Vwap.constructor` | src/tbot/indicators/vwap.py:18-34 | a new tracker has no session date, value 0 and empty history |
| `VwapIndicator.Vwap.Reset` | src/tbot/indicators/vwap.py:102-110 | zeroes the sums, the value and the history and stores the date |
| `VwapIndicator.Vwap.Update` | src/tbot/indicators/vwap.py:36-76 | a new date restarts the session first, even when the volume is not positive; a non-positive volume then adds nothing and returns the current value; a positive one adds one observation and one history point; throughout, the sums, value and every history point equal the batch VWAP of the session |
| `VwapIndicator.Vwap.HistoryIsBatchVwap` | src/tbot/indicators/vwap.py:62-74 | the running history agrees point for point with the batch VWAP of the same observations |
| `VwapIndicator.Vwap.UpdateFromBar` | src/tbot/indicators/vwap.py:78-100 | a bar enters at its typical price (high + low + close) / 3 |
| `OpeningRangeIndicator.StepWindow` | src/tbot/indicators/opening_range.py:69-93 | a closed window is left alone; a bar inside the window keeps the window open and widens its high and low to cover the bar, taking either the bar's extreme or the old one; a bar at or past the window's length closes it, and the step fails exactly when the window closes without a recorded high (the source raises while logging it); high and low stay present together |
| `OpeningRangeIndicator.Feed` | src/tbot/indicators/opening_range.py:69-93 | over a run of bars a closed window stays closed, any bar at or past the window's length closes it, and high and low stay recorded together |
| `OpeningRangeIndicator.FeedTracksExtremes` | src/tbot/indicators/opening_range.py:69-93 | after any non-empty run of bars inside the window, the window is still open and holds the largest high and the smallest low of those bars |
| `OpeningRangeIndicator.CompleteIsFinal` | src/tbot/indicators/opening_range.py:70-77 | once a window has closed, no later bar of the same day changes it |
| `OpeningRangeIndicator.Or5Scenario` | tests/test_opening_range.py:26-44 | the 09:30-09:34 bars followed by a 09:35 bar close the five-minute range at high 103 and low 97 |
| `OpeningRangeIndicator.OpeningRange.constructor` | src/tbot/indicators/opening_range.py:17-41 | a new range keeps its symbol, window lengths and open time, and starts with both windows empty and open and no session date |
| `OpeningRangeIndicator.OpeningRange.Reset` | src/tbot/indicators/opening_range.py:99-107 | both windows become empty and open and the session date becomes the given one |
| `OpeningRangeIndicator.OpeningRange.Update` | src/tbot/indicators/opening_range.py:43-97 | a bar of a new day first resets both windows; a pre-open bar changes nothing else; otherwise the five-minute window takes one step, and the fifteen-minute window steps only if that step did not fail; the session date becomes the bar's day |
| `OpeningRangeIndicator.OpeningRange.Or5Width` | src/tbot/indicators/opening_range.py:119-124 | present exactly when both extremes are, and then the distance from the low up to the high |
| `OpeningRangeIndicator.OpeningRange.Or15Width` | src/tbot/indicators/opening_range.py:138-143 | present exactly when both extremes are, and then the distance from the low up to the high |
| `OpeningRangeIndicator.OpeningRange.CheckBreakout` | src/tbot/indicators/opening_range.py:149-167 | nothing before the fifteen-minute range closes; "up" exactly when the price is above its high; "down" exactly when it is not up and below its low |
| `OpeningRangeIndicator.HighBefore` | src/tbot/indicators/opening_range.py:216-225 | absent exactly when no bar starts before the cutoff; otherwise at least the high of every such bar |
| `OpeningRangeIndicator.LowBefore` | src/tbot/indicators/opening_range.py:216-225 | absent exactly when no bar starts before the cutoff; otherwise at most the low of every such bar |
| `OpeningRangeIndicator.CalculateOpeningRange` | src/tbot/indicators/opening_range.py:185-225 | no bars gives no range; a cutoff minute outside 0..59 is an error; otherwise there is no range exactly when no bar starts before the cutoff, and a range's high and low are the largest high and smallest low among those bars, each attained by one of them |
| `OpeningRangeIndicator.ZoneOf` | src/tbot/indicators/opening_range.py:252-261 | a close is above exactly when it exceeds the high, and below exactly when it does not and is under the low |
| `OpeningRangeIndicator.Zones` | src/tbot/indicators/opening_range.py:249-261 | one zone per close, in order |
| `OpeningRangeIndicator.Entries` | src/tbot/indicators/opening_range.py:244-263 | at most one breakout per close |
| `OpeningRangeIndicator.UnvisitedNotEntered` | src/tbot/indicators/opening_range.py:244-263 | a side the closes never reach is never counted as a breakout |
| `OpeningRangeIndicator.EntriesBounds` | src/tbot/indicators/opening_range.py:244-263 | up and down breakouts together never exceed the number of closes, and a side that is ever reached has been broken into at least once |
| `OpeningRangeIndicator.CountOrBreakouts` | src/tbot/indicators/opening_range.py:228-263 | the counts are the number of entries into the above and below zones, where an entry is a close in that zone whose predecessor was not (the first close counts against "inside") |
| `OpeningRangeIndicator.BreakoutScenario` | tests/test_opening_range.py:121-129 | closes 95, 101, 95, 89, 95 against the range 90..100 give one breakout each way |
| `MovingAverage.RollingMean` | src/tbot/indicators/ma20.py:10-21 | one entry per price; entry `i` is present exactly from the first full window on, and then it times the period equals the sum of the `period` prices ending at `i` |
| `MovingAverage.GetMa` | src/tbot/indicators/ma20.py:24-39 | absent exactly when there are fewer rows than the period; otherwise it times the period equals the sum of the last `period` closes |
| `MovingAverage.MaWithinRange` | src/tbot/indicators/ma20.py:24-39 | with enough rows the average exists and lies between any lower and upper bound of the closes in its window |
| `MovingAverage.TrueRange` | src/tbot/indicators/ma20.py:59-64 | at least the bar's own range and, given a previous close, at least the distance from it to the high and to the low, and equal to one of those three; the first bar's range is its high minus its low |
| `MovingAverage.TrueRanges` | src/tbot/indicators/ma20.py:55-64 | one true range per bar, the first without a previous close and each later one against the previous bar's close |
| `MovingAverage.Ewm` | src/tbot/indicators/ma20.py:66-67 | one entry per value; the first is the value itself and each later one moves the previous entry a fraction `alpha` towards the new value (pandas' unadjusted weighting) |
| `MovingAverage.EwmWithin` | src/tbot/indicators/ma20.py:66-67 | with a smoothing factor in [0, 1], a weighted mean of values within bounds stays within the same bounds |
| `MovingAverage.Alpha` | src/tbot/indicators/ma20.py:67 | the smoothing factor of a span of at least one lies in (0, 1] |
| `MovingAverage.CalculateAtr` | src/tbot/indicators/ma20.py:42-70 | one entry per bar; the first is the first bar's range and each later one blends that bar's true range into the previous entry |
| `MovingAverage.GetAtr` | src/tbot/indicators/ma20.py:73-88 | absent exactly when there are fewer than `period + 1` rows; otherwise the last ATR entry |
| `MovingAverage.AtrNonNegative` | src/tbot/indicators/ma20.py:42-88 | bars whose high is not below their low never give a negative ATR |
| `Features.HighestHigh` | src/tbot/regime/features.py:116 | the largest high of a non-empty day, attained by one of its bars |
| `Features.LowestLow` | src/tbot/regime/features.py:116 | the smallest low of a non-empty day, attained by one of its bars |
| `Features.AtOrAfter` | src/tbot/regime/features.py:151-153 | keeps exactly the bars whose time of day is at or after the given time, each drawn from the day |
| `Features.VolumeBefore` | src/tbot/regime/features.py:173-175 | with non-negative volumes, the early volume lies between zero and the day's total volume |
| `Features.Breakouts` | src/tbot/regime/features.py:151-160 | breakout counts over the bars from 09:45 on are non-negative and together at most the number of those bars |
| `Features.Fraction` | src/tbot/regime/features.py:118-124 | a quotient wherever the source divides by a positive denominator, and zero, the field's default, otherwise |
| `Features.FractionBounds` | src/tbot/regime/features.py:176-177 | a non-negative part of a positive whole gives a share in [0, 1] |
| `Features.PriceFeatures` | src/tbot/regime/features.py:113-124 | open of the first bar, close of the last, range from the highest high to the lowest low; range percentage and day return only over a positive open, the gap only over a positive previous close |
| `Features.RangeFeatures` | src/tbot/regime/features.py:132-160 | each width is present exactly when its opening range exists and is its high minus its low; the breakout counts are taken after 09:45 against the fifteen-minute range, stay zero without one, and never exceed the number of bars |
| `Features.RatioTo` | src/tbot/regime/features.py:182-189 | present exactly when the denominator is present and positive, and then it times the denominator gives the numerator |
| `Features.DailyFeatures` | src/tbot/regime/features.py:179-189 | the ATR exists exactly with at least 21 daily rows; the range/ATR ratio only over a positive ATR; the average volume exists exactly with at least 20 rows and is the mean of the last 20; the volume ratio only over a positive average |
| `Features.ExtractFeatures` | src/tbot/regime/features.py:88-191 | an empty day leaves the blank record; otherwise every feature group is filled from the bars as above, the time below VWAP is one minus the time above and lies in [0, 1], and the false-breakout count is the smaller breakout count |
| `Features.EarlyShareIsFraction` | src/tbot/regime/features.py:173-177 | with non-negative volumes the early-volume share lies in [0, 1] |
| `Features.FalseBreakoutsBounded` | src/tbot/regime/features.py:156-160 | the false-breakout count is at most each breakout count, the two counts together never exceed the number of bars, and a false breakout implies a fifteen-minute range |
| `RegimeRules.ScoreEvent` | src/tbot/regime/rules.py:135-158 | the event score lies in [0, 1]; it reaches the 0.7 event cut-off exactly when the gap is large and early volume or the volume surge is also high; it is 1 exactly when all three hold, and 0 exactly when no reason was recorded (at most three) |
| `RegimeRules.ScoreTrend` | src/tbot/regime/rules.py:160-207 | both trend scores lie in [0, 1] and together never exceed 1, since each piece of evidence goes to one side; both are 0 exactly when no reason was recorded; enough time above the VWAP gives the up side at least 0.4, and otherwise enough time below gives the down side at least 0.4 |
| `RegimeRules.TrendMirror` | src/tbot/regime/rules.py:160-207 | on a day that is not split evenly around the VWAP and did not close flat, mirroring the day swaps the up and down trend scores |
| `RegimeRules.ScoreRange` | src/tbot/regime/rules.py:209-239 | the range score lies in [0, 1] and is 0 exactly when no reason was recorded; frequent crosses give at least 0.4, balance around the VWAP at least 0.2, and frequent crosses with false breakouts and a narrow range give the full 1 |
| `RegimeRules.RangeMirror` | src/tbot/regime/rules.py:209-239 | the range score is the same for a day and its mirror image |
| `RegimeRules.FirstMax` | src/tbot/regime/rules.py:109-110 | the index of a largest score with every earlier score strictly smaller, the choice Python's `max` over the insertion-ordered score table makes |
| `RegimeRules.WinnerUnique` | src/tbot/regime/rules.py:109-110 | the first maximum is unique, so the classifier's choice is determined |
| `RegimeRules.Scores` | src/tbot/regime/rules.py:80-106 | four scores, each in [0, 1], in the order trend up, trend down, range, event |
| `RegimeRules.RegimeAt` | src/tbot/regime/rules.py:112-120 | a winning score never names an event day; only the event position maps to unknown |
| `RegimeRules.Classify` | src/tbot/regime/rules.py:69-133 | an event day exactly when the event score reaches 0.7, then with that score and only the event reasons; otherwise the confidence is the first maximum of the four scores and names its regime, unless it is below 0.3, in which case the day is unknown and the low-score reason comes last; the event reasons always come first; confidence lies in [0, 1] |
| `RegimeRules.ClassifyPicksWinner` | src/tbot/regime/rules.py:100-123 | below the event cut-off, whichever score is the first maximum decides both the confidence and the regime |
| `RegimeRules.Discount` | src/tbot/regime/rules.py:258-263 | the regime never changes; from half of the session on nothing changes; before that the confidence is scaled by progress plus 0.3, staying between 0.3 times and 1 times the original, and the caution is appended as the last reason |
| `RegimeRules.ClassifyRealtime` | src/tbot/regime/rules.py:241-263 | the full classification's regime, with its confidence discounted before half of the session and never raised |
| `RegimeRules.TrendUpScenario` | tests/test_regime_rules.py:19-35 | the trend-up test day classifies as trend up with confidence 1 |
| `RegimeRules.RangeScenario` | tests/test_regime_rules.py:55-70 | the range test day classifies as range with confidence 1 |
| `RegimeRules.EventScenario` | tests/test_regime_rules.py:72-84 | the event test day classifies as event with confidence 1 |
| `RegimeRules.RealtimeScenario` | tests/test_regime_rules.py:101-117 | at 30% of the session the trend-up confidence 0.6 becomes 0.36 with the caution last, and the full-session confidence is 0.6 |
| `Signals.HoldFor` | src/tbot/engine/signal_generator.py:31-38 | a HOLD carries no shares and the given reason |
| `Signals.MarketSnapshot.DevFromVwapPct` | src/tbot/engine/signal_generator.py:75-80 | zero without a positive VWAP; otherwise the fraction that times the VWAP gives the price's distance from it |
| `Signals.MarketSnapshot.DevNormalized` | src/tbot/engine/signal_generator.py:82-87 | zero without a positive volatility; otherwise the deviation in units of the volatility, non-positive exactly when the price is at or below the VWAP |
| `Signals.ChopSignal` | src/tbot/engine/signal_generator.py:158-222 | a buy exactly when the price is low enough or near the range low, the tactical inventory is not long and something can be bought; otherwise a sell under the mirrored conditions; each sizes to everything available, targets the VWAP, stops just beyond the range, and has the stated capped confidence; otherwise HOLD |
| `Signals.TrendUpSignal` | src/tbot/engine/signal_generator.py:224-270 | a buy exactly on a pullback that holds above the VWAP support while not long and with shares available; otherwise a sell exactly on an extension while long; with the source's sizes, confidences, targets and stops; otherwise HOLD |
| `Signals.TrendDownSignal` | src/tbot/engine/signal_generator.py:272-313 | a sell exactly on a rebound while long; otherwise a buy-back exactly on a further drop while short; sized to what is available, with no target or stop; otherwise HOLD |
| `Signals.EventShares` | src/tbot/engine/signal_generator.py:330-342 | the reduced size truncated toward zero: for a non-negative product, the whole number of shares just at or below it |
| `Signals.EventSignal` | src/tbot/engine/signal_generator.py:315-355 | like the range rules with wider thresholds, sized to the truncated reduced share count, and only when that count is positive; confidence 0.6 and the VWAP as target; otherwise HOLD |
| `Signals.EventSharesBounded` | src/tbot/engine/signal_generator.py:326-343 | a size multiplier of at most one never sizes an event order above what is available |
| `Signals.Track` | src/tbot/engine/signal_generator.py:357-368 | a price above the range high extends the up run and clears the down run; below the low does the reverse; inside clears both |
| `Signals.TrackAll` | src/tbot/engine/signal_generator.py:357-368 | from a reset, the breakout counters are never negative and never both running |
| `Signals.TrackCountsRuns` | src/tbot/engine/signal_generator.py:357-375 | from a reset, the counters equal the lengths of the trailing runs of snapshots above the high and below the low |
| `Signals.Decide` | src/tbot/engine/signal_generator.py:126-156 | dispatch on the regime: only range days move the breakout counters, a zero range bound there raises before they move, a confirmed breakout pauses the range strategy, and an unknown regime never trades |
| `Signals.SignalWithinAvailability` | src/tbot/engine/signal_generator.py:126-355 | every buy or sell is positive and within what the ledger makes available, so filling it keeps the tactical inventory within its cap; a HOLD has no shares |
| `Signals.SignalGenerator.constructor` | src/tbot/engine/signal_generator.py:99-124 | keeps the thresholds and starts both breakout counters at zero |
| `Signals.SignalGenerator.UpdateBreakoutTracking` | src/tbot/engine/signal_generator.py:357-368 | the counters become `Track` of the old counters, and stay non-negative and never both positive |
| `Signals.SignalGenerator.ResetDaily` | src/tbot/engine/signal_generator.py:377-380 | both breakout counters return to zero |
| `Signals.SignalGenerator.Generate` | src/tbot/engine/signal_generator.py:126-156 | the signal and the new counters are exactly what `Decide` gives for the old counters; on the division by zero there is no signal and the counters are untouched |
| `Signals.StrategyScenario` | tests/test_trading_engine.py:188-287 | the generator tests' snapshots: a range-day buy of 25 below the VWAP and a sell above it, a trend-up pullback buy with a 1% support buffer, an event-day HOLD at one sigma and a buy of 12 at 1.5 sigma |
| `Engine.SimulatedExecutor.constructor` | src/tbot/engine/engine.py:56-59 | a new executor has handed out no order numbers |
| `Engine.SimulatedExecutor.PlaceLimitBuy` | src/tbot/engine/engine.py:61-79 | the shared counter goes up by one and the order is `SIM-BUY-n` with the new count |
| `Engine.SimulatedExecutor.PlaceLimitSell` | src/tbot/engine/engine.py:81-99 | the shared counter goes up by one and the order is `SIM-SELL-n` with the new count |
| `Engine.SimulatedExecutor.IdsDistinct` | src/tbot/engine/engine.py:56-99 | no two orders of one executor share an identifier |
| `Engine.RegimeFor` | src/tbot/engine/engine.py:245-249 | the stored regime is kept unless it is unknown and features are supplied, in which case the classifier's regime is used |
| `Engine.Step` | src/tbot/engine/engine.py:235-276 | the gate runs with the regime after classification; a failing gate gives a HOLD carrying its reason and leaves the breakout counters alone; a passing one gives exactly the generator's decision |
| `Engine.VetoNeverTrades` | src/tbot/engine/engine.py:258-264 | a vetoed update never reaches the executor and never moves the breakout counters |
| `Engine.OpeningBufferVetoes` | tests/test_trading_engine.py:310-333 | an update at 09:35 with the daily loss within its limit is vetoed by the opening buffer, whatever the regime |
| `Engine.FullFlowStep` | tests/test_trading_engine.py:335-369 | the range-day snapshot at 10:30 on a fresh ledger passes the gate and buys one 25-share step |
| `Engine.ResetLedgers` | src/tbot/engine/engine.py:338-341 | every ledger of the map starts the new day empty, with no trades and no last trade time |
| `Engine.TradingEngine.constructor` | src/tbot/engine/engine.py:128-158 | a new engine keeps its configuration and tracks nothing: no ledgers, regimes, signals, date or events |
| `Engine.TradingEngine.AddSymbol` | src/tbot/engine/engine.py:160-185 | a tracked symbol keeps its ledger; a new one gets a fresh empty ledger sized from the configuration and an unknown regime; nothing else changes |
| `Engine.TradingEngine.RemoveSymbol` | src/tbot/engine/engine.py:187-192 | the symbol's ledger, regime and last signal are all forgotten, even if absent |
| `Engine.TradingEngine.SetRegime` | src/tbot/engine/engine.py:194-211 | ignored for an untracked symbol; otherwise the regime is replaced and a change of value, and only a change, is reported once |
| `Engine.TradingEngine.GetRegime` | src/tbot/engine/engine.py:350-352 | the stored regime, and unknown for an untracked symbol |
| `Engine.TradingEngine.CheckDateChange` | src/tbot/engine/engine.py:329-344 | the date is always stored; on any date different from a stored one every ledger is emptied, every regime becomes unknown and the breakout counters are cleared; the first date and the same date change nothing else |
| `Engine.TradingEngine.ExecuteSignal` | src/tbot/engine/engine.py:287-327 | a buy or a sell places exactly one order; in simulation mode it also records the fill in the ledger at the update's price, stamped with the wall clock, and reports the trade; otherwise the ledger is untouched |
| `Engine.TradingEngine.ClassifyIfUnknown` | src/tbot/engine/engine.py:244-249 | the regime becomes `RegimeFor` of the stored one, and a change (and only a change) is appended to the event log as through `set_regime` |
| `Engine.TradingEngine.GateAndAct` | src/tbot/engine/engine.py:251-285 | a failing gate stores and returns the HOLD with its reason and touches neither the generator, the executor nor the ledger; a passing one does what `Act` does; no other symbol's ledger changes |
| `Engine.TradingEngine.Act` | src/tbot/engine/engine.py:266-285 | the generator's decision is remembered, reported and, when it is a buy or sell of positive size, executed once, which in simulation mode appends the trade record and stamps the wall clock; any other signal and a division by zero leave the ledger's numbers, trade log and last trade time as they were |
| `Engine.TradingEngine.Emit` | src/tbot/engine/engine.py:272-283 | the signal becomes the symbol's last signal and is reported before its trade, and it is executed exactly when it is a positive-size buy or sell; in simulation mode the ledger appends the trade record and takes the wall clock as its last trade time, otherwise its numbers, trade log and last trade time are unchanged |
| `Engine.TradingEngine.Process` | src/tbot/engine/engine.py:235-285 | for a tracked symbol: the regime becomes `RegimeFor` of the stored one; the signal and the new breakout counters are exactly `Step`'s, and no signal only on the division by zero, which keeps the counters; a regime change is logged; a signal that passes the gate is logged, places an order when it is a trade and, in simulation mode, moves the ledger by `ApplyBuy`/`ApplySell` at the market price, appends the trade record, stamps the wall clock and logs the trade; otherwise the ledger's numbers, trade log and last trade time and the order count are untouched; no other symbol's ledger changes |
| `Engine.TradingEngine.Rollover` | src/tbot/engine/engine.py:236-241 | the regime map is `RolledRegimes` of the old one; the date becomes the update's date and the symbol becomes tracked; on a new day every earlier ledger is emptied, every earlier regime becomes unknown and the breakout counters are cleared, otherwise ledgers, regimes and counters are untouched; a new symbol gets a fresh empty ledger sized from the configuration and an unknown regime; no ledger object is replaced and signals and events are kept |
| `Engine.TradingEngine.OnMarketUpdate` | src/tbot/engine/engine.py:213-285 | after an update the update's date is current, the symbol is tracked and no other ledger object is replaced; the signal is `Step` evaluated on the state after the day rollover (empty ledger, unknown regime and cleared counters on a new day or for a new symbol), and the regime map is the rolled-over one with the symbol's regime set by `Step`; the breakout counters are `Step`'s, or the post-rollover ones on the division by zero; the regime and trade events, the order count, the ledger's numbers, trade log and last trade time change exactly as in `Process`; every other symbol's ledger is emptied on a new day and untouched otherwise; any signal produced is the symbol's last signal |
| `NewsEvents.TableWellWeighted` | src/tbot/services/news_event_detector.py:20-74 | every keyword weight of the table is positive and at most 1 |
| `NewsEvents.SearchFrom` | src/tbot/services/news_event_detector.py:251-252 | true exactly when the keyword occurs between two word boundaries at or after the starting position |
| `NewsEvents.Found` | src/tbot/services/news_event_detector.py:243-252 | true exactly when the lower-cased headline mentions the lower-cased keyword between word boundaries |
| `NewsEvents.Hits` | src/tbot/services/news_event_detector.py:245-252 | one flag per keyword of the table, set exactly when the headline mentions it |
| `NewsEvents.ScanHeadline` | src/tbot/services/news_event_detector.py:245-255 | every index one headline contributes lies within the table, from the starting keyword on |
| `NewsEvents.ScanHeadlineExact` | src/tbot/services/news_event_detector.py:245-255 | one headline contributes exactly the keywords it mentions that were not seen before |
| `NewsEvents.ScanHeadlineSorted` | src/tbot/services/news_event_detector.py:245-255 | one headline contributes its keywords in table order |
| `NewsEvents.Elements` | src/tbot/services/news_event_detector.py:240 | the seen set holds exactly the detected keyword indices |
| `NewsEvents.Scan` | src/tbot/services/news_event_detector.py:242-255 | every detected index points into the keyword table |
| `NewsEvents.ScanExact` | src/tbot/services/news_event_detector.py:242-255 | a keyword is detected exactly when some headline mentions it, and never twice |
| `NewsEvents.MaxWeight` | src/tbot/services/news_event_detector.py:253 | the running maximum is at least every detected weight |
| `NewsEvents.MaxWeightIsMax` | src/tbot/services/news_event_detector.py:253 | the running maximum bounds every detected weight, is one of them, and is 0 when nothing is detected |
| `NewsEvents.Boost` | src/tbot/services/news_event_detector.py:257-261 | three or more detections add 0.1 and exactly two add 0.05, capped at 1; fewer leave the score alone |
| `NewsEvents.Labels` | src/tbot/services/news_event_detector.py:254 | one label per detected keyword |
| `NewsEvents.LabelsAt` | src/tbot/services/news_event_detector.py:254 | one label per detected keyword, in detection order, each that keyword's label |
| `NewsEvents.Analyze` | src/tbot/services/news_event_detector.py:231-263 | one label per detection; the score is the top detected weight, raised by at most 0.1 and only for two or more detections |
| `NewsEvents.AnalyzeScoreRange` | src/tbot/services/news_event_detector.py:231-263 | the score lies in [0, 1] and is 0 exactly when no headline mentions any keyword |
| `NewsEvents.AnalyzeScoreCovers` | src/tbot/services/news_event_detector.py:231-263 | the score is at least the weight of every mentioned keyword |
| `NewsEvents.AnalyzeLabelCount` | src/tbot/services/news_event_detector.py:231-263 | there is one label per distinct mentioned keyword |
| `NewsEvents.DistinctCard` | src/tbot/services/news_event_detector.py:245-255 | a detection list without repetitions has as many entries as the seen set |
| `NewsEvents.DetectOne` | src/tbot/services/news_event_detector.py:253-255 | taking one more keyword adds it to the seen set, raises the maximum to its weight and appends its label |
| `NewsEvents.AnalyzeHeadlines` | src/tbot/services/news_event_detector.py:231-263 | the loop over the headlines returns exactly the score and the labels of the specification `Analyze` |
| `NewsEvents.ScanOneHeadline` | src/tbot/services/news_event_detector.py:245-255 | the inner loop appends exactly the unseen keywords the headline mentions, in table order, and keeps the seen set, the running maximum and the labels in step with them |
| `NewsEvents.Visit` | src/tbot/services/news_event_detector.py:247-255 | one keyword step keeps the inner loop's state: the keyword is taken exactly when it is new and mentioned |
| `NewsEvents.Detect` | src/tbot/services/news_event_detector.py:145-176 | a fetch error leaves the default result with the message; otherwise the result carries the headlines, the analysed score and labels, and is an event day exactly when the score reaches the threshold |
| `DailyReports.Assess` | src/tbot/report/daily_report.py:69-80 | tradeable exactly for a trend day, up or down, with confidence at least 0.5; otherwise the reason for a low-confidence trend, a range day, an event day or an unclear day |
| `DailyReports.Record` | src/tbot/report/daily_report.py:59-80 | the symbol's result and features are stored; nothing recorded before is taken back, and at most one symbol is listed |
| `DailyReports.RecordConsistent` | src/tbot/report/daily_report.py:59-80 | recording keeps every listed symbol and reason tied to a stored result with its features, stores the result and features under the symbol, and either appends the symbol to the tradeable list or sets its reason, never both |
| `DailyReports.RepeatedRecords` | src/tbot/report/daily_report.py:59-80 | re-adding a tradeable symbol lists it twice, and a symbol first judged low-confidence and then tradeable keeps its old reason beside its new listing |
| `DailyReports.RecordAll` | src/tbot/report/daily_report.py:313-317 | recording a run of results only adds: earlier listings, results and reasons stay, with at most one new listing per result |
| `DailyReports.RecordAllExact` | src/tbot/report/daily_report.py:291-323 | over distinct symbols, the report holds a result exactly for the symbols that have features, each listed as tradeable exactly when its verdict says so and otherwise carrying the verdict's reason |
| `DailyReports.FirstSurvives` | src/tbot/report/daily_report.py:314-318 | recording other symbols never disturbs a symbol's stored result, features, listing or reason |
| `DailyReports.DailyReport.constructor` | src/tbot/report/daily_report.py:37-57 | a new report keeps its date, generation time and notes and holds no results, verdicts or signals |
| `DailyReports.DailyReport.AddRegimeResult` | src/tbot/report/daily_report.py:59-80 | the report's results, features, tradeable list and reasons become `Record` of the old ones; the signals are untouched |
| `DailyReports.DailyReport.AddSignal` | src/tbot/report/daily_report.py:82-84 | the signal is appended in call order and nothing else changes |
| `DailyReports.GenerateDailyReport` | src/tbot/report/daily_report.py:291-323 | a fresh report whose verdicts are those of recording each result, in the dictionary's order, that has features, and whose signals are the given ones in order, or none |
| `TwsData.Merge` | src/tbot/services/tws_data_service.py:329-360 | the price is the last trade when positive, else the close when present, else unchanged; the volume is the truncated ticker volume when present; every other field takes the ticker's value when present and keeps its own otherwise; symbol and exchange are kept and the time stamp is refreshed |
| `TwsData.MergeIdempotent` | src/tbot/services/tws_data_service.py:329-360 | merging the same ticker twice is merging it once |
| `TwsData.MergeEmpty` | src/tbot/services/tws_data_service.py:329-360 | a ticker with no values only refreshes the time stamp |
| `TwsData.SubscribeAll` | src/tbot/services/tws_data_service.py:172-177 | earlier queued commands and subscriptions are kept, with at most one command per symbol |
| `TwsData.UnsubscribeAll` | src/tbot/services/tws_data_service.py:179-185 | earlier queued commands are kept and subscriptions only shrink, with exactly one command queued per subscription dropped |
| `TwsData.SubscribeAllSpec` | src/tbot/services/tws_data_service.py:172-177 | subscribing adds the upper-case forms to the set, keeps the queued commands, and only appends subscribe commands for upper-case symbols of the request |
| `TwsData.UnsubscribeAllSpec` | src/tbot/services/tws_data_service.py:179-185 | unsubscribing removes the upper-case forms from the set |
| `TwsData.SubscribeRepeats` | src/tbot/services/tws_data_service.py:174-177 | the duplicate check is on the symbol as given: "aapl" twice queues two subscriptions of "AAPL", while "AAPL" twice queues one |
| `TwsData.SubscribeThenUnsubscribe` | src/tbot/services/tws_data_service.py:172-185 | subscribing new upper-case symbols and then unsubscribing them restores the subscription set |
| `TwsData.Apply` | src/tbot/services/tws_data_service.py:259-323 | a known contract is not subscribed again, an unqualifiable symbol adds nothing, a new qualified one gets its contract and a fresh quote; unsubscribing drops the contract and its quote and ignores an unknown symbol; every contract keeps a quote |
| `TwsData.Drain` | src/tbot/services/tws_data_service.py:259-272 | after the pass every contract was held before or subscribed by the queue, and a contract held before survives unless the queue unsubscribes it |
| `TwsData.DrainCovered` | src/tbot/services/tws_data_service.py:259-272 | draining the queue keeps a quote for every contract |
| `TwsData.StopDoesNotCut` | src/tbot/services/tws_data_service.py:262-270 | a stop in the middle of the queue does not cut the pass short: the later commands run as if it were absent |
| `TwsData.SubscribeUnsubscribeDrops` | src/tbot/services/tws_data_service.py:274-327 | subscribing a qualifiable symbol and then unsubscribing it leaves the contracts as they were and no quote for it |
| `TwsData.TwsDataService.constructor` | src/tbot/services/tws_data_service.py:77-108 | a new service is not running or connected, has no error, and holds no queue, subscriptions, contracts or quotes |
| `TwsData.TwsDataService.Start` | src/tbot/services/tws_data_service.py:122-152 | when already running it answers true and changes nothing; otherwise it is running afterwards and succeeds exactly when the connection does, recording the failure message or the timeout otherwise |
| `TwsData.TwsDataService.Stop` | src/tbot/services/tws_data_service.py:154-170 | a no-op when not running; otherwise it clears both flags and queues one stop command |
| `TwsData.TwsDataService.SubscribeSymbols` | src/tbot/services/tws_data_service.py:172-177 | the queue and the subscription set become exactly those of `SubscribeAll`; nothing else changes |
| `TwsData.TwsDataService.UnsubscribeSymbols` | src/tbot/services/tws_data_service.py:179-185 | the queue and the subscription set become exactly those of `UnsubscribeAll`; nothing else changes |
| `TwsData.TwsDataService.GetStockData` | src/tbot/services/tws_data_service.py:187-190 | present exactly when the upper-cased symbol has a quote, and then that quote |
| `TwsData.TwsDataService.ProcessCommands` | src/tbot/services/tws_data_service.py:259-272 | the queue is emptied, the contracts and quotes become `Drain` of the old queue in order, and the service stays running exactly when it was and no stop was queued |
| `TwsData.TwsDataService.SubscribeSymbol` | src/tbot/services/tws_data_service.py:274-311 | contracts and quotes change exactly as `Apply` of a subscribe command |
| `TwsData.TwsDataService.UnsubscribeSymbol` | src/tbot/services/tws_data_service.py:313-327 | contracts and quotes change exactly as `Apply` of an unsubscribe command |
| `TwsData.TwsDataService.OnTickerUpdate` | src/tbot/services/tws_data_service.py:329-360 | a missing quote is created first, then the ticker is merged into it; nothing else changes |
| `Watchlist.Normalize` | src/tbot/api/watchlist.py:71 | the cleaned symbol is upper case, has no white space at either end and is never longer than the input |
| `Watchlist.NormalizeIdempotent` | src/tbot/api/watchlist.py:61-97 | normalising twice is normalising once, so a stored symbol is found under its own name |
| `Watchlist.Insert` | src/tbot/api/watchlist.py:72-76 | appends exactly when the symbol is non-empty and not yet listed, keeping the old list as a prefix and growing by one; a non-empty symbol is listed afterwards |
| `Watchlist.AddTo` | src/tbot/api/watchlist.py:61-76 | adding succeeds exactly when the normalised symbol is non-empty and new; the old list stays a prefix and nothing but the normalised symbol is added |
| `Watchlist.RemoveFirst` | src/tbot/api/watchlist.py:90 | removing an absent symbol leaves the list alone; removing a present one shortens it by exactly one |
| `Watchlist.Delete` | src/tbot/api/watchlist.py:89-93 | succeeds exactly when the symbol is listed, then shortens the list by one; otherwise the list is unchanged |
| `Watchlist.RemoveFrom` | src/tbot/api/watchlist.py:78-93 | succeeds exactly when the normalised symbol is listed, then shortens the list by one; otherwise the list is unchanged |
| `Watchlist.IndexOf` | src/tbot/api/watchlist.py:90 | the position of the first occurrence of a listed symbol |
| `Watchlist.RemoveFirstCuts` | src/tbot/api/watchlist.py:90 | `list.remove` cuts out exactly the first occurrence and keeps the others in order; an absent symbol leaves the list alone |
| `Watchlist.RemoveFirstDistinct` | src/tbot/api/watchlist.py:88-93 | on a list without duplicates, removing a symbol removes it entirely, keeps every other symbol and creates no duplicate |
| `Watchlist.AddToSpec` | src/tbot/api/watchlist.py:61-76 | `add` appends exactly when the normalised symbol is non-empty and not yet listed, keeps the list free of duplicates, and afterwards any non-empty normalised symbol is listed |
| `Watchlist.InsertThenDelete` | src/tbot/api/watchlist.py:61-93 | inserting a new normalised symbol and deleting it gives back the list |
| `Watchlist.RemoveUndoesAdd` | src/tbot/api/watchlist.py:61-93 | a successful `add` followed by `remove` of the same symbol restores the list and reports success |
| `Watchlist.DeleteSpec` | src/tbot/api/watchlist.py:88-93 | removal succeeds exactly when the symbol is listed and then shortens the list by one; otherwise the list is unchanged; without duplicates the symbol is gone and every other symbol stays |
| `Watchlist.AddAllInserts` | src/tbot/api/watchlist.py:61-76 | a run of `add` calls inserts the normalised symbols in order |
| `Watchlist.AddAllKeepsOrder` | src/tbot/api/watchlist.py:61-76 | any run of `add` calls keeps a duplicate-free list duplicate-free, keeps what was there as a prefix, and only adds normalised requested symbols |
| `Watchlist.WatchlistManager.constructor` | src/tbot/api/watchlist.py:21-46 | no file gives the defaults and writes them; an unreadable file gives the defaults without writing; a readable file gives its "symbols" entry, or the defaults when it has none |
| `Watchlist.WatchlistManager.GetAll` | src/tbot/api/watchlist.py:57-59 | returns the current list |
| `Watchlist.WatchlistManager.Add` | src/tbot/api/watchlist.py:61-76 | the list and the answer are those of `AddTo`: appended exactly when the normalised symbol is non-empty and new, saved only then, duplicates never introduced |
| `Watchlist.WatchlistManager.Remove` | src/tbot/api/watchlist.py:78-93 | the list and the answer are those of `RemoveFrom`, saved only when something was removed |
| `Watchlist.WatchlistManager.Contains` | src/tbot/api/watchlist.py:95-97 | true exactly when the normalised symbol is listed |
| `Watchlist.WatchlistManager.Clear` | src/tbot/api/watchlist.py:99-102 | the list becomes empty and is saved |
| `Watchlist.WatchlistManager.Reset` | src/tbot/api/watchlist.py:104-107 | the list becomes the two defaults and is saved |
| `Watchlist.LoadAsWritten` | src/tbot/api/watchlist.py:39 | the loaded list is the class-level default list itself exactly when the file has no "symbols" entry |
| `Watchlist.AddAsWritten` | src/tbot/api/watchlist.py:39-76 | the manager's list becomes that of `AddTo` and keeps its sharing; the class-level defaults change only when they are the same list, and then they become the grown list |
| `Watchlist.RemoveAsWritten` | src/tbot/api/watchlist.py:39-93 | the manager's list becomes that of `RemoveFrom` and keeps its sharing; the class-level defaults change only when they are the same list, and then they become the shrunk list |
| `Watchlist.ResetAsWritten` | src/tbot/api/watchlist.py:104-107 | a reset copies whatever the class-level default list holds at that moment |
| `Watchlist.SharedStaysEqual` | src/tbot/api/watchlist.py:33-93 | while the list is the class default list, `add` grows both alike and `remove` shrinks both alike; otherwise the defaults are untouched |
| `Watchlist.ResetAfterSharedAdd` | src/tbot/api/watchlist.py:39-107 | with a file holding `{}`, adding a new symbol and then resetting leaves that symbol next to the two defaults |
| `Watchlist.ResetAfterSharedRemove` | src/tbot/api/watchlist.py:39-107 | with a file holding `{}`, removing one of the defaults and then resetting leaves only the other default |
| `Watchlist.AaplIsDefault` | src/tbot/api/watchlist.py:19-93 | "AAPL" normalises to itself, and removing it from the defaults leaves QQQM alone |
| `Watchlist.MsftIsNew` | src/tbot/api/watchlist.py:19-71 | "msft" normalises to "MSFT", which is not a default |
| `Watchlist.ResetAfterAdd` | src/tbot/api/watchlist.py:104-107 | with the default list copied on load, adding any symbol and then resetting gives back exactly the two defaults |
| `Watchlist.ResetAfterRemove` | src/tbot/api/watchlist.py:104-107 | with the default list copied on load, removing any symbol and then resetting gives back exactly the two defaults |
| `ApiMain.CheckAddSymbol` | src/tbot/api/main.py:307-312 | an accepted symbol is the upper-cased stripped input |
| `ApiMain.CheckAddSymbolSpec` | src/tbot/api/main.py:307-312 | the watchlist endpoint accepts exactly the symbols of one to ten characters after cleaning, and says "Symbol cannot be empty" or "Symbol too long" otherwise |
| `ApiMain.AcceptedSymbolIsClean` | src/tbot/api/main.py:307-315 | what is passed to the watchlist is upper case, has no surrounding blanks and is unchanged by cleaning it again |
| `ApiMain.ValidateFormat` | src/tbot/api/main.py:348-364 | the checked symbol is the upper-cased stripped input |
| `ApiMain.StrippedAlnum` | src/tbot/api/main.py:359 | removing dots and dashes leaves a non-empty alphanumeric string exactly when every character is a letter, digit, dot or dash and at least one is a letter or digit |
| `ApiMain.ValidateFormatSpec` | src/tbot/api/main.py:348-364 | the format check passes exactly for well-formed symbols, and the length error is reported exactly for empty or over-long symbols |
| `ApiMain.ValidatedIsAddable` | src/tbot/api/main.py:302-364 | a symbol that passes validation is accepted by the watchlist endpoint under the same spelling |
| `ApiMain.ValidateFormatIdempotent` | src/tbot/api/main.py:348-364 | validating the cleaned symbol again gives the same result |
| `ApiMain.Quick` | src/tbot/api/main.py:771-804 | the quick classification never reports an unknown day, its confidence is at least 0.6, and it gives one to three reasons, never the no-data reason |
| `ApiMain.QuickRegimeSpec` | src/tbot/api/main.py:771-804 | event when the news score reaches 0.6 or the gap reaches 1.5% (checked first), otherwise a trend in the direction of a day move beyond 2%, otherwise range; never unknown |
| `ApiMain.QuickConfidenceSpec` | src/tbot/api/main.py:783-804 | event confidence is the larger of the news score and 0.7; trend confidence is 0.7 plus five times the move capped at 0.95 (so above 0.8); range confidence is 0.6 |
| `ApiMain.TrendConfidenceMonotone` | src/tbot/api/main.py:784-797 | a larger day move never lowers a trend day's confidence |
| `ApiMain.QuickReasonsSpec` | src/tbot/api/main.py:771-804 | the reasons list: on event days the first three keywords if any and the gap if large, then the day move; on trend days the move then the price against its reference (price and open for Yahoo, the VWAP gap for TWS) or the consolidation note; on range days the small move and the range note, which is the opening-range note for Yahoo and the plain range note for TWS |
| `ApiMain.OrPrice` | src/tbot/api/main.py:750-753 | a missing or zero quote field falls back to the price, and a present non-zero one is kept |
| `ApiMain.YahooHalfBand` | src/tbot/api/main.py:759 | the Yahoo band has positive width whenever high and low differ or the price is positive |
| `ApiMain.TwsHalfBand` | src/tbot/api/main.py:900 | the TWS band has positive width whenever the high is above the low or the price is positive |
| `ApiMain.HalfBandsSpec` | src/tbot/api/main.py:759-761 | the band half-width is 30% of the day's range, or 1% of the price when high equals low; the TWS variant differs only for an inverted range; a positive price gives a band of positive width |
| `ApiMain.YahooStatus` | src/tbot/api/main.py:748-856 | the card is an unknown day exactly when it is the error status, and has a band exactly when it is not |
| `ApiMain.YahooStatusSpec` | src/tbot/api/main.py:748-856 | with no usable price the card is the unknown error status; otherwise the gap and day move are measured from the previous close, the VWAP is the typical price, the day type is the quick rule with the price against the open, and the band is centred on the open |
| `ApiMain.TwsStatus` | src/tbot/api/main.py:864-929 | a card other than the Yahoo one comes only from a connected service with a positive cached price, and such a card has a positive VWAP, a band and a known day type |
| `ApiMain.TwsFallsBack` | src/tbot/api/main.py:864-877 | without a connection or a positive cached price the Yahoo status is used |
| `ApiMain.TwsLiveLevels` | src/tbot/api/main.py:879-906 | with live data every level is positive, and gap and day move are measured from the previous close |
| `ApiMain.TwsLiveVerdict` | src/tbot/api/main.py:897-929 | with live data the day type is the quick rule on the TWS gap and day move, with the trend reason carrying the VWAP gap and the TWS range note |
| `ApiMain.TwsLiveBand` | src/tbot/api/main.py:897-902 | with live data the price is above the VWAP exactly when the VWAP gap is positive, and the band strictly contains the open |
| `ApiMain.SampleIndexBounds` | src/tbot/api/main.py:718-720 | sample indices lie inside the data, start at the first value and strictly increase |
| `ApiMain.Sample` | src/tbot/api/main.py:714-727 | the sparkline is never longer than the data, holds min(points, n) values for positive points, and every value is one of the data |
| `ApiMain.SampleSpec` | src/tbot/api/main.py:714-727 | the sparkline has min(points, n) values taken in order at indices floor(i*n/points), starting with the first value; fewer values than points are returned whole, and a non-positive points gives nothing |
| `ApiMain.Present` | src/tbot/api/main.py:607 | filtering missing closes never lengthens the list |
| `ApiMain.PresentMembers` | src/tbot/api/main.py:607 | exactly the present closes survive the filter |
| `ApiMain.PresentEmpty` | src/tbot/api/main.py:607 | nothing survives exactly when every close is missing |
| `ApiMain.PresentAll` | src/tbot/api/main.py:607 | with no close missing, all survive in order |
| `ApiMain.Ma20Fallback` | src/tbot/api/main.py:607-617 | absent exactly when no close survives the filter |
| `ApiMain.LatestMean` | src/tbot/api/main.py:609-617 | absent exactly when there is no value to average |
| `ApiMain.Ma20FallbackPresence` | src/tbot/api/main.py:607-617 | the MA20 fallback is absent exactly when no close is present |
| `ApiMain.Ma20FallbackMean` | src/tbot/api/main.py:607-617 | with twenty or more present closes the fallback is the 20-period moving average of them; with fewer it is their mean |
| `ApiMain.LatestMeanSpec` | src/tbot/api/main.py:609-617 | the mean of the last twenty values, or of all values when fewer |
| `ApiMain.Ma20FallbackBounds` | src/tbot/api/main.py:607-617 | the fallback lies within any bounds that hold for every present close |

## Left out

- **I/O.** The watch list's JSON file is modelled by the value last written and the value read at start-up. Decoding errors collapse into one "unreadable" case.
- **Other I/O.** SQLite storage, logging, notification delivery, and the daily report's Markdown/JSON rendering and saving (`to_dict`, `to_markdown`, `to_json`, `save`) are left out. They produce text or files, and nothing in the core depends on them.
- **Network code.** The Yahoo fetches (`fetch_yahoo_quote`, `fetch_yahoo_ma20`, `fetch_yahoo_sparkline`, `_fetch_yahoo_news`) and `detect_batch` are left out. Their results enter the model as parameters: the quote fields, the daily closes, the intraday closes, and the headlines.
- **Sparkline history.** The sparkline's five-day fallback is not modelled. It groups timestamps by local calendar date.
- **HTTP endpoints and globals.** The FastAPI endpoints, the module globals and `get_tws_service`/`init_tws_service`/`stop_tws_service` are not modelled. Only the pure decisions inside the endpoints are.
- **Responses.** Response fields that only echo inputs are not modelled: name, exchange, update time.
- **Broker and concurrency.** The broker client, the TWS worker thread, its event loop, the lock and ib_insync are not modelled. How a connection attempt ends, which symbols the broker can qualify, and the clock reading are inputs to the model instead.
- **Connection callback.** `_on_disconnected` only clears the connected flag and is not modelled.
- **Executors.** The `OrderExecutor` protocol and the live executor are not modelled. The engine holds the simulated executor directly. The executor's limit-price logging is also left out.
- **Configuration loading.** `from_config` and `from_config_file` in the engine, the risk gate and the signal generator, the risk gate's `_parse_time` (used only by them), `get_summary`, and the plain map accessors `get_state` and `get_last_signal` are not modelled. The defaults of every configuration are the dataclass defaults.
- **Wall clock.** Every `now` is an explicit parameter: trade timestamps, cooldowns, rollover dates and the update time in `StockData`.
- **Time zones.** Time-zone conversion (`get_et_now`, `to_et`, session boundaries, formatting) is not modelled. Every time operation takes the US Eastern time of day.
- **Microseconds.** They are not represented, so flooring a bar start to whole seconds is the identity.
- **Floating point.** IEEE rounding is not modelled and the arithmetic uses exact reals. Rounding to cents in API responses and to two decimals in the classifier's outputs is left out. The news score is computed in whole hundredths, so its rounding is exact.
- **Statistics helpers.** `zscore`, `calculate_sharpe_ratio`, `calculate_max_drawdown`, `round_to_tick` and `calculate_vwap_bands` are not modelled. No core operation uses them.
- **Text.** Reason messages are tagged values, not formatted strings. Each tag carries the numbers its message prints: the Yahoo trend reason keeps the price and the open, the TWS one the VWAP gap. The two different range-day notes of the Yahoo and TWS builders are two tags.
- **Case handling.** Upper-casing, whitespace stripping and `isalnum` cover ASCII only.
- `ApiMain.ValidateFormat`: `isalnum` accepts only ASCII letters and digits. So a symbol with a non-ASCII letter, such as "ÉDF", is reported as `NotAlphanumeric`, although Python's `str.isalnum` (src/tbot/api/main.py:359) accepts it.
- `ApiMain.Sample`: the sample indices are the exact floor of i*n/points. The source computes `int(i * (n / points))` in floating point, which can land one index lower when the quotient is not exact.
- `NewsEvents.AnalyzeHeadlines`: word boundaries and case folding cover ASCII letters, digits and underscore. Python's Unicode-aware `\b` and `lower()` are not modelled.

## Findings

| source | as written | input that shows it | evidently intended | confidence | as-written member | corrected member |
|---|---|---|---|---|---|---|
| src/tbot/api/watchlist.py:39 | when the file has no "symbols" entry, the manager's list is the class-level `DEFAULT_SYMBOLS` list object itself, so later adds grow the defaults | a file holding `{}`, then `add("msft")`, then `reset()`: the reset list is QQQM, AAPL, MSFT | `reset()` restores exactly QQQM, AAPL | high, not executed | `Watchlist.ResetAfterSharedAdd` | `Watchlist.ResetAfterAdd` |
| src/tbot/api/watchlist.py:39 | for the same reason, removals (line 90) shrink the defaults in place | a file holding `{}`, then `remove("AAPL")`, then `reset()`: the reset list is QQQM alone | `reset()` restores exactly QQQM, AAPL | high, not executed | `Watchlist.ResetAfterSharedRemove` | `Watchlist.ResetAfterRemove` |
