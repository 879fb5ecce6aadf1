# Margin-momentum signals and their backtest, in Dafny

This project models the two core pieces of the margin-momentum trading system (a Taiwan-stock screener):

1. **Signal detection** (`src/margin_momentum_analyzer.py`):
   - the RSI and simple moving average indicators;
   - the per-instrument rule that turns a jump in margin or short balances into a BUY or SELL record when RSI and the 20-day average agree;
   - the loop that applies the rule to every price column;
   - the post-filter that keeps a price band and orders records by grade.
2. **The backtest engine** (`src/backtest/backtest_engine.py`):
   - the `Trade` and `BacktestResults` records;
   - the day loop of `run_backtest`: sized entries on BUY rows, the four-way exit rule, deferred removal, the daily equity point;
   - `_calculate_metrics`.

Modules:

| file | module | what it holds |
|---|---|---|
| `wrappers.dfy` | `Wrappers` | `Option` and `Result` |
| `config.dfy` | `Config` | the thresholds of `src/config.py` that the core reads |
| `indicators.dfy` | `Indicators` | RSI as written and with Wilder's convention, the moving average |
| `analyzer.dfy` | `Analyzer` | signal records, the anomaly rule, the detection loop, the filter |
| `backtest_records.dfy` | `BacktestRecords` | positions, trades, the price table, the results record |
| `backtest_metrics.dfy` | `BacktestMetrics` | counts, returns, maximum drawdown, `CalculateMetrics` |
| `backtest_day.dfy` | `BacktestDay` | one day of the loop as functions of the loop state, and `RunDays` over a range |
| `backtest_properties.dfy` | `BacktestProperties` | accounting balance, soundness of logged trades, solvency of the run |
| `backtest_engine.dfy` | `BacktestEngine` | the imperative loops of `run_backtest`, each proved equal to its function |

Representation choices:

- Prices and money are exact `real`s. A NaN cell or a missing column is `None`, or a key absent from a map.
- Dates are day numbers (`int`).
- The holdings dictionary is a sequence of positions in insertion order, keyed by instrument.
- The equity curve is a sequence of `(day, value)` points in day order.
- The price table is a set of columns plus, for each date of its index, the map of cells that hold a number.
- The strategy callback is a total function from a day to its signal records. `None` and an empty frame behave the same, so both are the empty sequence.

Where the code departs from its own comments, the model follows the code:

- The RSI is 0, not 100, when a window has no losing day, against the formula in the `calculate_rsi` docstring at `src/margin_momentum_analyzer.py:22-24` (see Findings).
- The exit reason for a SELL row is `signal`. The `manual` reason listed in the `Trade` comment at `src/backtest/backtest_engine.py:31` is never produced.

Where the code departs from common convention, the model follows the code as well:

- With fewer than period + 1 prices the RSI is still computed from the partial seed (divided by the full period), not marked missing as in Wilder's definition.
- An instrument is skipped when its price is NaN or exactly 0. A negative price is not skipped.
- The SELL-signal exit looks only at the first of the day's rows for the instrument. A SELL row after a BUY row for the same instrument does not close the position.
- On a day with no signal rows, the equity point is the cash alone: open positions are not valued.
- A date outside the price index adds no equity point, rather than carrying the previous one forward.
- The grade sort is pandas' default, which is not stable. `FilterSignals` promises the grade order and the exact multiset of kept records, but no order among records of equal grade.

## Model

| member | source | states |
|---|---|---|
| Indicators.SeedGains | src/margin_momentum_analyzer.py:26-28 | the sum of the seed's non-negative price changes is non-negative |
| Indicators.SeedLosses | src/margin_momentum_analyzer.py:26-29 | the magnitude of the seed's negative price changes is non-negative |
| Indicators.SeedEnd | src/margin_momentum_analyzer.py:27 | the seed slice `deltas[:period + 1]` covers period + 1 prices, or all of them when there are fewer |
| Indicators.SeedAverages | src/margin_momentum_analyzer.py:26-29 | both seed averages (each sum divided by the period) are non-negative |
| Indicators.WilderMean | src/margin_momentum_analyzer.py:43-44 | the running mean of non-negative values stays non-negative |
| Indicators.Smooth | src/margin_momentum_analyzer.py:34-44 | one smoothing step keeps both averages non-negative |
| Indicators.AveragesAt | src/margin_momentum_analyzer.py:26-44 | the averages in force at every index are non-negative |
| Indicators.RsiFromAverages | src/margin_momentum_analyzer.py:30-32 | RSI lies in [0, 100); it is 0 when the average loss is 0; otherwise RSI·(up + down) = 100·up |
| Indicators.RsiAt | src/margin_momentum_analyzer.py:26-47 | the RSI at every index lies in [0, 100] |
| Indicators.CalculateRsi | src/margin_momentum_analyzer.py:20-49 | the loop returns one value per price; entry i is RsiAt(i); the first `period` entries are the seed RSI; all lie in [0, 100] |
| Indicators.SeedLossesVanishOnRise | src/margin_momentum_analyzer.py:27-29 | prices that never fall give a seed loss sum of 0 |
| Indicators.NoLossOnRise | src/margin_momentum_analyzer.py:34-44 | prices that never fall keep the average loss at 0 at every index |
| Indicators.RisingPricesGiveZeroRsi | src/margin_momentum_analyzer.py:30-32 | as written, prices that never fall give RSI 0 at every index |
| Indicators.RsiRisingCounterexample | src/margin_momentum_analyzer.py:46-47 | for prices [10, 11, 12] and period 2 the RSI at index 2 is 0 as written and 100 with Wilder's convention |
| Indicators.WilderRsiFromAverages | src/margin_momentum_analyzer.py:23-24 | the corrected RSI lies in [0, 100]; it equals the code's value when the average loss is non-zero, and exceeds it when there are gains but no losses |
| Indicators.WilderRsiAt | src/margin_momentum_analyzer.py:23-24 | the corrected RSI at every index lies in [0, 100] |
| Indicators.RisingPricesGiveFullWilderRsi | src/margin_momentum_analyzer.py:23-24 | with the corrected RSI, prices that never fall give RSI 100 at every index |
| Indicators.MovingAverage | src/margin_momentum_analyzer.py:52-54 | one entry per price; an entry is defined exactly when a full window ends there (NaN before) |
| Indicators.SumBounds | src/margin_momentum_analyzer.py:54 | a window's sum lies between its length times any lower and upper bound of its prices |
| Indicators.MovingAverageWithinWindow | src/margin_momentum_analyzer.py:54 | a defined moving average lies between any bounds of its window's prices |
| Indicators.MovingAverageSlide | src/margin_momentum_analyzer.py:54 | consecutive averages differ by (newest price − dropped price) / period |
| Analyzer.PctChange | src/margin_momentum_analyzer.py:169-175 | a missing previous balance, or one ≤ 0, gives a change of 0; otherwise change·prev = today − prev |
| Analyzer.ShortToMarginRatio | src/margin_momentum_analyzer.py:178 | 0 when the margin balance is ≤ 0; otherwise ratio·margin = short |
| Analyzer.PriceVsMa | src/margin_momentum_analyzer.py:183 | 0 without a positive MA20; otherwise gap·MA20 = price − MA20, negative iff the price is below MA20 and positive iff above |
| Analyzer.Decide | src/margin_momentum_analyzer.py:186-219 | a verdict needs an RSI value and a price off its MA20 |
| Analyzer.VerdictOf | src/margin_momentum_analyzer.py:161-219 | a verdict needs a usable price, a column in today's margin table, an RSI value and an MA20 value |
| Analyzer.Classify | src/margin_momentum_analyzer.py:158-229 | a record exists iff the rule gives a verdict, with its kind and grade; it carries the instrument's stock, date, price, RSI and MA20; BUY records are S or A grade with the 15/10 expected return, the −8 stop and 5 days; SELL records are URGENT or HIGH with no suggestions |
| Analyzer.SkippedInstruments | src/margin_momentum_analyzer.py:161-167 | no record without a price, for a price of 0, or without a column in today's margin table |
| Analyzer.MissingIndicatorNoSignal | src/margin_momentum_analyzer.py:181-188 | no record when the RSI or MA20 value is missing |
| Analyzer.MissingPreviousBalance | src/margin_momentum_analyzer.py:169-175 | a missing previous margin balance rules out BUY; a missing previous short balance rules out SELL |
| Analyzer.BuyRule | src/margin_momentum_analyzer.py:186-190 | BUY iff margin change > 0.10, RSI < 30 and price below MA20; S grade iff margin change > 0.15, RSI < 25 and gap < −0.05 |
| Analyzer.SellRule | src/margin_momentum_analyzer.py:211-219 | SELL iff short change > 0.10, RSI > 70 and price above MA20; URGENT iff short change > 0.15, RSI > 75 and price above MA20 |
| Analyzer.BuyIsMonotone | src/margin_momentum_analyzer.py:186-190 | a larger margin change, a lower RSI or a deeper gap below MA20 keeps a BUY a BUY, and an S grade an S grade |
| Analyzer.SellIsMonotone | src/margin_momentum_analyzer.py:211-219 | a larger short change, a higher RSI or a wider gap above MA20 keeps a SELL a SELL, and URGENT URGENT |
| Analyzer.PctChangeScales | src/margin_momentum_analyzer.py:170 | a balance change does not depend on the unit the balances are counted in |
| Analyzer.ShortChangeIgnoresScale | src/margin_momentum_analyzer.py:173-175 | scaling all balances by a positive factor leaves the short change as it was |
| Analyzer.MarginChangeIgnoresScale | src/margin_momentum_analyzer.py:168-170 | scaling all balances by a positive factor leaves the margin change as it was |
| Analyzer.VerdictIgnoresBalanceScale | src/margin_momentum_analyzer.py:167-219 | scaling all balances by a positive factor leaves the verdict as it was |
| Analyzer.StrongBuyExample | src/margin_momentum_analyzer.py:186-207 | a 20% margin jump, RSI 22 and a price 8% below MA20 give an S-grade BUY with 15% expected return, −8% stop and 5 days |
| Analyzer.HighSellExample | src/margin_momentum_analyzer.py:211-228 | a 12% short jump, RSI 72 and a price 3% above MA20 give a HIGH SELL |
| Analyzer.DetectAll | src/margin_momentum_analyzer.py:158-235 | the loop yields at most one record per price column |
| Analyzer.DetectMarginAnomalies | src/margin_momentum_analyzer.py:143-235 | no records when today's margin table is missing or empty; otherwise the loop's records are DetectAll's |
| Analyzer.DetectAllSound | src/margin_momentum_analyzer.py:158-229 | every record is the rule's record for one of the instruments |
| Analyzer.DetectAllComplete | src/margin_momentum_analyzer.py:158-229 | every instrument the rule fires on has its record in the output |
| Analyzer.AppendFreshStock | src/margin_momentum_analyzer.py:186-229 | appending a record for an instrument not yet recorded keeps one record per instrument |
| Analyzer.DetectAllOnePerInstrument | src/margin_momentum_analyzer.py:158-229 | distinct price columns give records for distinct instruments |
| Analyzer.GradeRank | src/margin_momentum_analyzer.py:254 | the grade order S, A, B, URGENT, HIGH maps to ranks 0 to 4 |
| Analyzer.KeepInBand | src/margin_momentum_analyzer.py:248-251 | keeps exactly the records priced in [10, 500], each as often as in the input |
| Analyzer.WithRank | src/margin_momentum_analyzer.py:255-256 | keeps exactly the records of one rank, each as often as in the input |
| Analyzer.RanksConcatenate | src/margin_momentum_analyzer.py:256 | records of rank k followed by records of higher, ordered ranks are ordered by rank |
| Analyzer.RanksFrom | src/margin_momentum_analyzer.py:255-256 | the records of rank ≥ k, each as often as in the input, in non-decreasing rank |
| Analyzer.FilterSignals | src/margin_momentum_analyzer.py:237-258 | empty input is returned as is; otherwise the output is a permutation of the records priced in [10, 500], all within the band, in non-decreasing grade rank |
| Analyzer.KeptAreInBand | src/margin_momentum_analyzer.py:248-251 | a sequence holding only in-band records (counted with multiplicity) has every element in the band |
| BacktestMetrics.CountWinning | src/backtest/backtest_engine.py:291 | at most one winner per trade |
| BacktestMetrics.CountLosing | src/backtest/backtest_engine.py:292 | at most one loser per trade |
| BacktestMetrics.WinningPlusLosing | src/backtest/backtest_engine.py:291-292 | pnl > 0 and pnl ≤ 0 split the trades: winners plus losers is the trade count |
| BacktestMetrics.Peak | src/backtest/backtest_engine.py:300 | the running maximum is one of the values and bounds all of them |
| BacktestMetrics.RelativeDropBounds | src/backtest/backtest_engine.py:301 | a positive value at or below a maximum is at most 100% below it |
| BacktestMetrics.Drop | src/backtest/backtest_engine.py:301 | a drawdown lies in (−1, 0] and is 0 exactly at the running maximum |
| BacktestMetrics.DrawdownAt | src/backtest/backtest_engine.py:300-301 | the drawdown at each point of a positive curve lies in (−1, 0] |
| BacktestMetrics.DrawdownOfPrefix | src/backtest/backtest_engine.py:300-301 | the drawdown at a point depends only on the curve up to it |
| BacktestMetrics.MaxDrawdown | src/backtest/backtest_engine.py:302 | the minimum drawdown lies in (−1, 0], is ≤ every point's drawdown and is attained at some point |
| BacktestMetrics.MaxDrawdownStep | src/backtest/backtest_engine.py:302 | extending a curve keeps the earlier points' drawdowns |
| BacktestMetrics.PeakOfNonDecreasing | src/backtest/backtest_engine.py:300 | the running maximum of a curve that never falls is its last value |
| BacktestMetrics.NoDrawdownWhenNonDecreasing | src/backtest/backtest_engine.py:300-302 | a curve that never falls has maximum drawdown 0 |
| BacktestMetrics.HalvingDrawdownExample | src/backtest/backtest_engine.py:300-302 | the curve 100, 50, 100 has maximum drawdown −0.5 |
| BacktestMetrics.RelativeGain | src/backtest/backtest_engine.py:282 | the total return times the initial capital is the gain, and it is positive iff the capital grew |
| BacktestMetrics.ShareBounds | src/backtest/backtest_engine.py:293 | a share of a count lies in [0, 1] and scales back to the count |
| BacktestMetrics.AnnualReturn | src/backtest/backtest_engine.py:285-288 | a range of zero or negative length gives an annual return of 0 |
| BacktestMetrics.CurveDrawdown | src/backtest/backtest_engine.py:299-302 | the curve's maximum drawdown lies in (−1, 0] |
| BacktestMetrics.CalculateMetrics | src/backtest/backtest_engine.py:255-319 | range, capital, trades and curve are passed through and the trade count is the log's length; no trades gives the last equity value (or the initial capital) and every rate 0; otherwise the traded metrics |
| BacktestMetrics.TradedMetrics | src/backtest/backtest_engine.py:280-319 | the final capital is the last equity value, the trade count the log's length, and range, capital, trades and curve are passed through |
| BacktestMetrics.TradeCounts | src/backtest/backtest_engine.py:290-292 | winners and losers are the pnl > 0 and pnl ≤ 0 trades and add up to the total |
| BacktestMetrics.WinRateBounds | src/backtest/backtest_engine.py:293 | the win rate lies in [0, 1] and times the trade count gives the winners |
| BacktestMetrics.ReturnOnCapital | src/backtest/backtest_engine.py:281-282 | final − initial = initial · total return, and the return is positive iff the capital grew |
| BacktestMetrics.AnnualReturnGuard | src/backtest/backtest_engine.py:284-288 | an end day not after the start day gives an annual return of 0 |
| BacktestMetrics.DrawdownOfRun | src/backtest/backtest_engine.py:299-302 | the reported drawdown is the curve's maximum drawdown, within (−1, 0] |
| BacktestDay.WithoutMembers | src/backtest/backtest_engine.py:227-229 | after removal a position is kept iff it was held and its instrument is not listed |
| BacktestDay.WithoutWellFormed | src/backtest/backtest_engine.py:227-229 | removal keeps one position per instrument, each with positive shares and a non-zero entry price |
| BacktestDay.WithoutKeepsUnique | src/backtest/backtest_engine.py:227-229 | keeping the last position after a removal from the earlier ones keeps the holdings well formed |
| BacktestDay.Trunc | src/backtest/backtest_engine.py:137 | `int()` truncates toward zero: for x ≥ 0 the result is the floor, for x < 0 the ceiling |
| BacktestDay.PositionSize | src/backtest/backtest_engine.py:125-129 | the budget is the smaller of 10% of the initial capital and 10% of the current cash |
| BacktestDay.EnterOne | src/backtest/backtest_engine.py:119-152 | a BUY for an instrument not held, with a non-zero price, whose budget buys at least one share, opens a position; only such a row opens one; it is appended, has Trunc(budget / price) ≥ 1 shares, the row's price and the signal's suggestions (or 10, −8, 5), and costs shares · price; otherwise nothing changes |
| BacktestDay.Entries | src/backtest/backtest_engine.py:117-154 | the entry step keeps the holdings well formed and only appends to them |
| BacktestDay.FirstSignalFor | src/backtest/backtest_engine.py:194-196 | the first row for an instrument is found iff some row names it, and it is one of the rows |
| BacktestDay.FirstSignalIsFirst | src/backtest/backtest_engine.py:196 | no earlier row names the same instrument |
| BacktestDay.ExitDecision | src/backtest/backtest_engine.py:175-198 | target iff change ≥ expected return; stop iff below target and ≤ stop; time iff strictly between them and held ≥ the suggested days; signal iff strictly between them, held fewer days, and the first row for it is SELL; target and stop exits book the entry price moved by that percentage, the others the live price |
| BacktestDay.Exits | src/backtest/backtest_engine.py:156-225 | the exit step only appends to the log and the removal list, one entry each per exit, at most one per holding |
| BacktestDay.ExitOne | src/backtest/backtest_engine.py:158-223 | a holding whose instrument has a non-zero price today and on which the exit rule fires is closed: its trade is logged, its instrument listed for removal and the proceeds added to cash; any other holding changes nothing |
| BacktestDay.TradingDay | src/backtest/backtest_engine.py:117-237 | a signal day keeps the holdings well formed, only appends trades, and appends cash plus the value of the kept holdings as the day's equity |
| BacktestDay.DayStep | src/backtest/backtest_engine.py:103-237 | a date outside the index changes nothing; a day without signals appends the cash alone as equity; a signal day appends cash plus holding value; the log and curve only grow |
| BacktestDay.RunDays | src/backtest/backtest_engine.py:100-237 | the state after a range of dates has well-formed holdings |
| BacktestProperties.CostBasisSnoc | src/backtest/backtest_engine.py:141 | one more position adds its cost to the cost basis |
| BacktestProperties.TotalPnlSnoc | src/backtest/backtest_engine.py:216-222 | one more trade adds its pnl to the realised pnl |
| BacktestProperties.WithoutSnoc | src/backtest/backtest_engine.py:227-229 | removal handles the last position on its own |
| BacktestProperties.WithoutIgnoresAbsent | src/backtest/backtest_engine.py:227-229 | listing an instrument that is not held removes nothing more |
| BacktestProperties.WellFormedPrefix | src/backtest/backtest_engine.py:158 | the earlier positions of well-formed holdings are well formed |
| BacktestProperties.EnterOneBalance | src/backtest/backtest_engine.py:141-142 | one entry moves money from cash into the cost basis, one for one |
| BacktestProperties.EntriesBalance | src/backtest/backtest_engine.py:117-154 | the entry step moves money from cash into the cost basis, one for one |
| BacktestProperties.ExitsRemoveHeld | src/backtest/backtest_engine.py:223 | the exit step only lists instruments it was given |
| BacktestProperties.ExitsBalance | src/backtest/backtest_engine.py:200-229 | exits credit proceeds to cash and their excess over cost to realised pnl, and the closed positions leave the cost basis |
| BacktestProperties.DayStepBalanced | src/backtest/backtest_engine.py:103-237 | a day keeps cash + cost basis = initial capital + realised pnl |
| BacktestProperties.RunDaysBalanced | src/backtest/backtest_engine.py:93-237 | over any range, cash + cost basis = initial capital + realised pnl |
| BacktestProperties.LogsOnlyGrow | src/backtest/backtest_engine.py:110-237 | a longer range extends the trade log and the equity curve of a shorter one |
| BacktestProperties.ClosedSound | src/backtest/backtest_engine.py:205-220 | a closed trade is a BUY of positive shares whose pnl is (exit − entry) · shares, pnl% is (exit − entry) / entry, and holding days are exit day − entry day ≥ 0 |
| BacktestProperties.ExitsSound | src/backtest/backtest_engine.py:156-225 | every trade the exit step logs is sound and closed that day |
| BacktestProperties.EntriesEnteredBy | src/backtest/backtest_engine.py:144-152 | positions opened on a day are dated that day |
| BacktestProperties.EntriesPrefix | src/backtest/backtest_engine.py:117-154 | the holdings after the first k signal rows are a prefix of the holdings after all of them |
| BacktestProperties.EntriesStep | src/backtest/backtest_engine.py:117-154 | the entry step over k + 1 rows is the step over k rows followed by row k |
| BacktestProperties.EntriesOpenQualified | src/backtest/backtest_engine.py:119-152 | a BUY row for an instrument with a non-zero price whose budget buys at least one share leaves that instrument held at the end of the entry step |
| BacktestProperties.EntriesFromBuys | src/backtest/backtest_engine.py:119-152 | every position the entry step opens is one of the day's BUY rows opened at its price in the row |
| BacktestProperties.ExitsCloseQualified | src/backtest/backtest_engine.py:158-223 | every holding with a non-zero price on which the exit rule fires has its trade logged and its instrument listed for removal |
| BacktestProperties.ExitsOnlyQualified | src/backtest/backtest_engine.py:158-223 | every trade the exit step logs and every instrument it lists belongs to a holding with a non-zero price on which the exit rule fires |
| BacktestProperties.DayStepSound | src/backtest/backtest_engine.py:103-229 | a day's new trades are sound and closed that day, and no position is dated after it |
| BacktestProperties.RunDaysSound | src/backtest/backtest_engine.py:100-229 | every logged trade is sound and closed before the first unprocessed date, and no open position is dated after the last processed one |
| BacktestProperties.TargetTradeReturn | src/backtest/backtest_engine.py:178-181 | a target exit books exactly the expected return, whatever the live price |
| BacktestProperties.StopTradeReturn | src/backtest/backtest_engine.py:183-186 | a stop-loss exit books exactly the stop percentage, whatever the live price |
| BacktestProperties.TargetExitExample | src/backtest/backtest_engine.py:178-223 | 10 shares entered at 100 with a 10% target and priced at 112 a day later exit at 110, credit 1100, log pnl 100, pnl% 0.1 and 1 holding day |
| BacktestProperties.HeldStockIsNotBoughtAgain | src/backtest/backtest_engine.py:122-123 | a BUY row for a held instrument changes nothing |
| BacktestProperties.EntryCostBound | src/backtest/backtest_engine.py:125-142 | an entry costs at most 10% of the cash |
| BacktestProperties.EntriesSolvent | src/backtest/backtest_engine.py:117-154 | with non-negative prices and sane suggestions, entries keep the cash positive and positions at positive prices |
| BacktestProperties.ExitPriceNonNegative | src/backtest/backtest_engine.py:181-186 | a target or stop price of a positive entry price with a percentage ≥ −100 is non-negative |
| BacktestProperties.ExitsSolvent | src/backtest/backtest_engine.py:200-203 | with non-negative prices, exits never reduce the cash |
| BacktestProperties.HoldingValueNonNegative | src/backtest/backtest_engine.py:232-236 | with non-negative prices, the holding value is non-negative |
| BacktestProperties.AppendPositivePoint | src/backtest/backtest_engine.py:237 | a positive point keeps every point of the curve positive |
| BacktestProperties.TradingDayHealthy | src/backtest/backtest_engine.py:117-237 | a signal day keeps the cash and every equity point positive |
| BacktestProperties.DayStepHealthy | src/backtest/backtest_engine.py:103-237 | every day keeps the cash and every equity point positive, and a trade implies an equity point |
| BacktestProperties.RunDaysHealthy | src/backtest/backtest_engine.py:93-237 | over any range, cash and equity stay positive and a run with a trade has an equity point |
| BacktestEngine.ApplyEntries | src/backtest/backtest_engine.py:117-154 | the loop over the signal rows computes Entries |
| BacktestEngine.ProcessExits | src/backtest/backtest_engine.py:156-225 | the loop over the holdings computes Exits |
| BacktestEngine.DeleteAfterWithout | src/backtest/backtest_engine.py:228-229 | deleting one more instrument after a removal is the removal of one more |
| BacktestEngine.RemoveStep | src/backtest/backtest_engine.py:228-229 | each pass of the deletion loop removes the next listed instrument |
| BacktestEngine.WithoutNothing | src/backtest/backtest_engine.py:227-229 | an empty removal list keeps every position |
| BacktestEngine.RemoveExited | src/backtest/backtest_engine.py:227-229 | the deletion loop removes exactly the listed instruments |
| BacktestEngine.TradeDay | src/backtest/backtest_engine.py:117-237 | the body of a signal day computes TradingDay |
| BacktestEngine.SimulateDay | src/backtest/backtest_engine.py:103-237 | one pass of the day loop computes DayStep |
| BacktestEngine.Engine.constructor | src/backtest/backtest_engine.py:57-64 | the engine keeps the initial capital it is given |
| BacktestEngine.Engine.RunBacktest | src/backtest/backtest_engine.py:68-253 | the engine's run returns exactly Backtest's result |
| BacktestEngine.Backtest | src/backtest/backtest_engine.py:87-245 | the error "Stock price data not available" iff the price table is empty |
| BacktestEngine.FinishedRun | src/backtest/backtest_engine.py:239-245 | the state the day loop ends in meets the metrics' precondition, and its metrics are the backtest's result |
| BacktestEngine.BacktestGuarantees | src/backtest/backtest_engine.py:93-319 | a result covers the requested range and capital; it counts its trades, winners plus losers = trades, and the win rate lies in [0, 1]; every trade is a sound BUY round trip closed by the end day; drawdown in (−1, 0]; with trades, the final capital is positive and final − initial = initial · total return |

## Left out

- MACD (`calculate_macd`) and the data fetching of `analyze()`: they are not part of the modelled core.
- How `analyze()` wires the indicators into detection. It computes RSI and the averages on the first price column only, then looks them up by instrument. The model's detection rule takes each instrument's RSI and MA20 values as inputs, so the rule's properties hold whatever those values are.
- The MA5 and MA60 series passed to detection: the rule never reads them.
- The margin and short usage ratios and the offset volume fetched at lines 153-155: the rule never reads them.
- A NaN margin or short balance in a column that exists: `Instrument` only distinguishes a present balance from a missing column.
- The `len(...) > 0` fallbacks at lines 169, 173 and 174 are modelled by the missing-column case: an empty previous-margin, today's-short or previous-short table gives the same value as a missing column, so `marginPrev`, `shortToday` or `shortPrev` is `None`. The fallback at line 168 cannot fire, because today's margin table has rows by the time it runs.
- The default arguments `period=14` of `calculate_rsi` (`src/margin_momentum_analyzer.py:20`) and `initial_capital=1000000` of the engine (`src/backtest/backtest_engine.py:57`): the period and the capital are always explicit parameters.
- A price-table row with a cell outside the table's columns: a pandas frame has none, and `PriceData` assumes the same without checking it. Such a cell would be read where the source skips the column.
- Display rounding (`round(..., 2)`), `int()` of the balances, the `×100` percentage columns and the free-text reason and warning columns: records keep the unrounded values and fractions.
- Exceptions: the per-instrument `try`/`except` (lines 231-233) and the re-raise in `run_backtest`. The model's functions are total, and the only modelled error is the empty price table.
- Logging, the price API, the clock and the date strings. Dates are day numbers, and `pd.date_range` becomes the integer range `start..end`.
- Floating point: NaN propagation, infinities and rounding. Exact reals are used.
- BacktestDay.HoldingValue: a NaN cell of a held instrument's column counts as 0. In the source it would make the day's equity NaN.
- The Sharpe ratio (lines 295-297): it needs a standard deviation and a square root.
- BacktestMetrics.AnnualReturn: the fractional power is a parameter `pow`. Only the `years > 0` guard and the formula's shape are modelled, not the power's value.
- BacktestEngine.Engine.RunBacktest: requires a positive initial capital, non-negative prices, and BUY suggestions of at least −100%. Under these the running maximum of the equity curve stays positive, so the drawdown division is defined. The source has no such guard; a zero or negative peak there gives NaN or infinities.
- BacktestEngine.Backtest: the same three requirements as BacktestEngine.Engine.RunBacktest, for the same reason.
- BacktestMetrics.CalculateMetrics: requires a positive initial capital and, when there are trades, a non-empty and positive equity curve, for the same reason.
- FilterSignals leaves the order among records of equal grade open. pandas' default sort is not stable, so the source promises none.

## Findings

| source | as written | input that shows it | evidently intended | confidence | as-written member | corrected member |
|---|---|---|---|---|---|---|
| src/margin_momentum_analyzer.py:30 | with no losing day, `rs` is set to 0, so RSI = 100 − 100/(1+0) = 0; the same at line 46 | prices [10, 11, 12], period 2: RSI at index 2 is 0 | the docstring's formula with Wilder's convention: no losses means RSI 100 (maximally overbought), not 0 (maximally oversold) | not executed | Indicators.RsiRisingCounterexample | Indicators.RisingPricesGiveFullWilderRsi |

The as-written RSI (`Indicators.RsiAt`, computed by `Indicators.CalculateRsi`) and the corrected one (`Indicators.WilderRsiAt`) agree whenever the window has a losing day. The detection rule takes the RSI value as an input, so its properties hold for either definition. Under the code as written, a stock that has not fallen for a whole window reads as deeply oversold, so the BUY rule's RSI conditions hold for it.
