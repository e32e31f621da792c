# aandelen-dashboard decision logic in Dafny

This project models the four pieces of decision logic of the aandelen-dashboard, a
Streamlit dashboard for a Dutch share portfolio, and proves properties of them:

- **The technical signal classifier** (`active_trading_engine.py`, module `Signals`).
  Seven crossing rules over RSI, MACD, price against the 20-day average and the volume ratio
  collect reason labels in a fixed order. A tie-broken decision then renders them as one
  string: `NEUTRAAL`, `VERKOOP - …`, `KOOP (STERK) - …`, `KOOP - …` or `ZWAK SIGNAAL - …`.
  The screener loop that writes this string into every row of a copied table is a method.
- **The buy-and-hold advice engine** (`advice_engine.py`, module `Advice`). Unknown margin,
  debt/equity and P/E are replaced by 0, +infinity and +infinity. Three sell rules apply in
  order of precedence and are skipped in a screener run. Otherwise four fundamental, two
  technical and four valuation checks are scored against the thresholds 3 (or 5) and 3, and
  a momentum check picks between the two buy texts. The row driver that writes `Advies` into
  every share of a copied table is a method.
- **The backtest simulator and the grid optimizer** (`backtesting_engine.py`, modules
  `Backtest` and `Optimizer`).
  - The simulator walks the bars with a single position slot. On each bar it applies the stop
    loss, then the take profit, then a signal exit, and opens on the lagged signal when the
    slot is free. It closes any open position at the end of the period and computes the
    summary statistics.
  - The loop is a method proved equal to a specification fold (`SimUpTo`). Every property is
    proved about that fold.
  - The optimizer is the triple loop over delay, stop-loss and take-profit. It keeps the first
    cell with the strictly highest score and is proved against a declarative description of
    its result. The backtest it calls is a parameter.
- **The country lookups** (`data_processing.py`, module `Countries`). A case-insensitive
  search of the English-to-Dutch country table, and a first-match substring search of the
  exchange-code table that passes the input through when nothing matches.

`common.dfy` (module `Common`) holds the shared vocabulary:
- pandas cells (`Missing` for an absent column, `NaN`, or a number);
- Python's `in` on strings (`Contains`);
- `str.join`, `strip`, `lower` and `upper`, restricted to the characters the tables use;
- `sum` over a list of booleans.

Conventions:
- Prices and ratios are `real`.
- Bar indices stand in for the dates of the price history.
- Stop-loss and take-profit percentages of the grid are whole hundredths.
- The inputs that come from the network (price history, indicator columns) are parameters.

Proved behaviour that reads as surprising is modelled as the code is written and stated as a
lemma:
- `"VERKOOP"` contains `"KOOP"`, so a sell signal opens a long and no short is ever opened
  (`Backtest.SimLongOnly`, `Backtest.SellSignalReopens`).
- A close inside the loop adds the exit price, not the profit, to the capital
  (`Backtest.EndValueBookkeeping`, `Backtest.LosingTradeYetGain`).
- In a backtest the classifier sees only the volume ratio, because the indicator columns
  carry other names. So it never emits `KOOP`, no trade is ever made, and the optimizer
  returns its first grid cell (`Backtest.IndicatorFrameNeverTrades`,
  `Optimizer.IndicatorFramePicksFirstCell`).
- The average loss is NaN when a trade breaks even and none loses
  (`Backtest.AverageLoss`).
- The statistics block at backtesting_engine.py lines 210-215 is dead, because no position
  is open after the end-of-period block (`Backtest.CloseAtEnd`).

## Model

| member | source | states |
|---|---|---|
| Signals.Reasons | active_trading_engine.py:44-78 | The reason list holds exactly the rules that fire, each once, in the fixed evaluation order (RSI bullish, MACD bullish, price above the 20-day MA, high volume, RSI bearish, MACD bearish, price below). |
| Signals.Fires | active_trading_engine.py:40-61 | The volume rule fires iff a known volume ratio, or 0.0 for an absent column, exceeds the threshold; a NaN ratio never fires it. |
| Signals.Classify | active_trading_engine.py:80-93 | No reasons iff `NEUTRAAL`. Sell iff at least two reasons with a bearish one. Strong buy iff at least three with none bearish. Buy iff exactly two with none bearish. Weak iff exactly one, even a bearish one. Each verdict gets its prefix before the `", "`-joined labels. |
| Signals.SignalText | active_trading_engine.py:80-93 | The returned string is "NEUTRAAL" iff no rule fires. |
| Signals.BearishInText | active_trading_engine.py:85-86 | The joined text contains `"Bearish"` iff one of the reasons is an RSI or MACD bearish cross; `"Koers < 20d MA"` does not count. |
| Signals.VerdictKeywords | active_trading_engine.py:82-93 | For every rendered verdict, `"KOOP"` occurs in the text iff it is a sell, strong buy or buy, and `"VERKOOP"` occurs iff it is a sell. |
| Signals.SignalKeywords | active_trading_engine.py:81-93 | The classifier's string contains `"KOOP"` iff at least two rules fire, and `"VERKOOP"` iff the verdict is a sell. |
| Signals.AtMostFourReasons | active_trading_engine.py:44-78 | Opposite crossings (RSI, MACD, 20-day MA) never fire together, whatever the thresholds, so at most four reasons fire. |
| Signals.VolumeAndFallingSignal | active_trading_engine.py:59-91 | High volume plus a price falling below the 20-day MA renders as `"KOOP - Hoog Volume, Koers < 20d MA"`. |
| Signals.FallingPriceWithVolumeIsBuy | active_trading_engine.py:55-91 | With the default thresholds, a price crossing below its 20-day MA on volume ratio above 1.5 is a plain buy, not a sell. |
| Signals.RsiRecoveryIsWeak | active_trading_engine.py:44-93 | RSI rising through 30 with every other input absent gives `"ZWAK SIGNAAL - RSI Bullish Cross"`. |
| Signals.BacktestRowNeverBuys | active_trading_engine.py:31-61 | A row with only a volume ratio can fire only the volume rule, so its signal never contains `"KOOP"`. |
| Signals.GenerateActiveSignals | active_trading_engine.py:4-15 | Returns a table of the same length. Each row keeps its inputs and gets the classifier's string under the default thresholds 30, 70 and 1.5 as its `Signaal`. |
| Advice.ProfileFromSettings | config.py:80-106 | The profile stores the maximum position weight, the top distance, ROE, upside and margin as fractions of the slider percentages, and the sell-above-target level as the ratio 1 + pct/100. The eight other thresholds and the trend flag are passed through unchanged. |
| Advice.Margin | advice_engine.py:32-33 | An unknown profit margin counts as 0. |
| Advice.DebtEquity | advice_engine.py:34-35 | Debt/equity is +infinity exactly when it is unknown. |
| Advice.PeRatio | advice_engine.py:36-37 | P/E is +infinity exactly when it is unknown. |
| Advice.Uptrend | advice_engine.py:84-85 | The uptrend check holds iff price > 50-day > 200-day average > 0, all three known; an absent average reads as 0 and fails. |
| Advice.NearTop | advice_engine.py:86-88 | The near-top check holds iff the 52-week high is known and positive, the price is not NaN, and price (0 when absent) / high exceeds 1 minus the maximum distance. |
| Advice.HealthyRatio | advice_engine.py:94-101 | A P/E, P/B or P/S check holds iff the ratio is known and strictly between 0 and its maximum. |
| Advice.RedFlags | advice_engine.py:43-56 | Exactly four flags: a known negative margin; debt/equity unknown or above the sell level; P/E unknown, or positive and above the sell level; price below both averages, none NaN, absent ones reading as 0. |
| Advice.OverWeight | advice_engine.py:61-63 | The position is overweight iff its value (0 when absent, never NaN) divided by the total exceeds the maximum weight. |
| Advice.Overvalued | advice_engine.py:67-68 | Overvalued iff target and price are both known and positive and price / target exceeds the sell ratio. |
| Advice.IsScreenerRun | advice_engine.py:46 | The total 999 999 999 that the screener pages pass, and every larger total, marks a screener run. |
| Advice.ChecksOf | advice_engine.py:73-107 | A passing debt, beta or ratio check implies its column is known and below its maximum; a passing trend check implies the three prices are known and ordered; momentum implies a positive daily change. The three lemmas below state every check as an iff on the cells. |
| Advice.FundamentalChecksOnCells | advice_engine.py:73-81 | Margin passes iff the margin (0 when unknown) exceeds the minimum. Debt passes iff debt/equity is known and below the maximum. ROE passes iff a known ROE, or 0.0 for an absent column, exceeds the minimum; NaN fails. Beta passes iff it is known and below the maximum. |
| Advice.TechnicalChecksOnCells | advice_engine.py:84-88 | Uptrend passes iff price > 50-day > 200-day > 0, all known. Near-top passes iff the 52-week high is known and positive, the price not NaN, and price / high exceeds 1 minus the maximum distance. |
| Advice.ValuationChecksOnCells | advice_engine.py:91-107 | Undervalued passes iff a known upside, or 0.0 for an absent column, exceeds the minimum. Each of P/E, P/B and P/S passes iff known and strictly between 0 and its maximum. Momentum passes iff the volume ratio (0.0 when absent) exceeds its minimum and the daily change is known and positive. |
| Advice.QualityScore | advice_engine.py:128-136 | The quality score is the number of passing fundamental checks, plus the number of passing technical checks when the trend check is on. So it is at most 4, or 6, and maximal iff every counted check passes. |
| Advice.ValueScore | advice_engine.py:121-130 | The value score is the number of passing checks among undervalued, P/E, P/B and P/S, so at most 4. |
| Advice.SellRule | advice_engine.py:45-69 | No sell in a screener run (total > 999 999 000). Otherwise, in this order: bad fundamentals iff at least 2 red flags; rebalance iff fewer flags and the position weight exceeds the maximum; overvalued iff neither and price/target exceeds the ratio with both positive. |
| Advice.BuyRule | advice_engine.py:138-146 | Never a sell. A buy iff the quality score reaches its threshold and the value score reaches 3. The momentum text iff it is a buy and momentum holds; otherwise `HOUDEN`. |
| Advice.EvaluateRow | advice_engine.py:20-169 | A screener run is never told to sell. A sell carries empty details and is the sell rule's verdict. Otherwise no sell rule applies, the advice is the buy rule's, and the breakdown holds both scores, their thresholds and all eleven checks. |
| Advice.UnknownDebtAndPeSells | advice_engine.py:32-58 | For a held position, unknown debt/equity and unknown P/E are two red flags, so the advice is `VERKOOP (SLECHTE FUNDAMENTALS)`. |
| Advice.MomentumOnlyChooses | advice_engine.py:103-146 | Changing the volume ratio and the daily change never turns a buy into a hold or a sell or back; a non-buy stays the same advice. |
| Advice.MomentumColumnsOnlyMomentum | advice_engine.py:45-107 | The volume ratio and the daily change leave the sell rules and all non-momentum checks unchanged. |
| Advice.SellRuleReadsNoMomentum | advice_engine.py:45-69 | The sell rules read neither the volume ratio nor the daily change. |
| Advice.ChecksReadMomentumOnlyForMomentum | advice_engine.py:73-107 | Of the checks, only momentum reads the volume ratio and the daily change. |
| Advice.SameScores | advice_engine.py:128-146 | Checks that agree on all but momentum give the same buy/non-buy verdict, and the same advice when it is not a buy. |
| Advice.TrendOffIgnoresTechnicalColumns | advice_engine.py:132-136 | With the trend check off, in a screener run, the moving averages and the 52-week high never change the advice. |
| Advice.ChecksReadTrendColumnsOnlyForTrend | advice_engine.py:73-107 | Only the uptrend and near-top checks read the moving averages and the 52-week high. |
| Advice.TrendOffSameVerdict | advice_engine.py:132-146 | With the trend check off, the verdict ignores the two technical checks. |
| Advice.BreakdownKeepsTechnicalChecks | advice_engine.py:148-167 | With the trend check off, the breakdown still lists the uptrend and near-top checks, and the quality score counts only the fundamentals against threshold 3. |
| Advice.AllChecksPassIsBuy | advice_engine.py:138-146 | When every quality and valuation check passes and no sell rule applies, the advice is a buy. |
| Advice.OvervaluedAbovePercentage | advice_engine.py:66-69 | With a sidebar profile, the overvaluation rule fires iff the price exceeds the target by more than the configured percentage. |
| Advice.OverWeightAbovePercentage | advice_engine.py:60-64 | With a sidebar profile, the rebalance rule fires iff the position is more than the configured percentage of the portfolio. |
| Advice.TotalValue | advice_engine.py:7 | The summed value column, with NaN skipped, is non-negative when every value is. |
| Advice.AdviseRow | advice_engine.py:11-16 | One iteration: a share gets the engine's advice text; any other row is returned unchanged. |
| Advice.TypeText | advice_engine.py:11-12 | A non-empty Type Asset text is used as is, a NaN one renders "nan"; a falsy Type Asset falls back to Type, rendered "" when absent. |
| Advice.IsShare | advice_engine.py:11-12 | A row is a share only when Type Asset or Type is truthy. |
| Advice.GenerateAdvice | advice_engine.py:4-17 | Returns a table of the same length. Nothing changes when the total value is not positive. Otherwise every row is the advised row for that total. |
| Advice.AdviseEachRow | advice_engine.py:9-16 | The loop over the copy: same length, and every row is replaced in place by its advised row for the given positive total. |
| Advice.AdvisedRowKeepsColumns | advice_engine.py:9-16 | Every row keeps its other columns. Only shares can have `Advies` changed, and every share gets one. |
| Advice.EmptyTypeAssetFallsBack | advice_engine.py:11 | An absent or empty `Type Asset` falls back to `Type`. |
| Advice.NaNTypeAssetIsNoShare | advice_engine.py:11-12 | A NaN `Type Asset` is truthy, renders as `"nan"`, hides `Type`, and so is not a share. |
| Advice.ShareSpelledLoosely | advice_engine.py:12 | Surrounding white space and capitals do not matter: `" AANDEEL\n"` is a share. |
| Backtest.Initial | backtesting_engine.py:64-67 | The simulation starts with no position and an empty log, in a valid state. |
| Backtest.Step | backtesting_engine.py:69-177 | One bar of the loop, management then opening, keeps the single position slot (at most one open trade, the last in the log), adds at most one trade and leaves every closed trade unchanged. |
| Backtest.SimUpTo | backtesting_engine.py:69-177 | The state after the bars up to k, starting at max(delay, 1), keeps the single position slot. |
| Backtest.CloseLast | backtesting_engine.py:77-145 | Closing the open trade frees the slot, keeps the log's length and keeps the state valid. |
| Backtest.Manage | backtesting_engine.py:73-145 | Position management keeps the single-slot invariant: 0 or 1 positions, a side iff one, the open trade last, all others closed. It adds no trade and changes no closed one. |
| Backtest.OpenOnSignal | backtesting_engine.py:147-177 | Opening keeps the single-slot invariant and at most appends one trade to the log. |
| Backtest.CloseAtEnd | backtesting_engine.py:179-191 | After the end-of-period block no position is open, so the block at lines 210-215 never runs. |
| Backtest.Backtest | backtesting_engine.py:39-250 | No bars iff the no-data message; otherwise every trade in the reported log is closed. |
| Backtest.ManageBar | backtesting_engine.py:73-145 | The loop's position-management block computes `Manage` on the loop variables. |
| Backtest.ManageLongBar | backtesting_engine.py:75-109 | The long branch computes `Manage` for an open long. |
| Backtest.ManageShortBar | backtesting_engine.py:111-145 | The short branch computes `Manage` for an open short. |
| Backtest.OpenBar | backtesting_engine.py:147-177 | The opening block computes `OpenOnSignal` on the loop variables. |
| Backtest.CloseOpenAtEnd | backtesting_engine.py:179-191 | The end-of-period block computes `CloseAtEnd` on the loop variables. |
| Backtest.RunBacktest | backtesting_engine.py:39-250 | The imperative loop from `max(delay, 1)` returns exactly `Backtest`. |
| Backtest.StopLossBranch | backtesting_engine.py:77-86 | A long whose low reaches entry × (1 − sl) closes at that level, not at the low, with result exit − entry − cost. This unfolds one branch of `Manage` as a step of the log proof (`ManageLogged`). |
| Backtest.TakeProfitBranch | backtesting_engine.py:88-97 | Only when the stop loss is not hit does a high reaching entry × (1 + tp) close the long at that level. This unfolds one branch of `Manage` as a step of the log proof (`ManageLogged`). |
| Backtest.SellSignalBranch | backtesting_engine.py:99-109 | Only when neither level is reached does a `"VERKOOP"` signal close the long at the close. This unfolds one branch of `Manage` as a step of the log proof (`ManageLogged`). |
| Backtest.HoldBranch | backtesting_engine.py:74-109 | With no exit condition the long stays open and nothing changes. This unfolds one branch of `Manage` as a step of the log proof (`ManageLogged`). |
| Backtest.VerkoopHasKoop | backtesting_engine.py:148-164 | Every string containing `"VERKOOP"` contains `"KOOP"`. |
| Backtest.StepLongOnly | backtesting_engine.py:148-177 | A bar never opens a short: the `"KOOP"` test comes first. |
| Backtest.SimLongOnly | backtesting_engine.py:69-177 | Throughout the run, every trade is a long and the side is never short. |
| Backtest.SellSignalReopens | backtesting_engine.py:99-162 | A sell signal closes a long at the close and opens a new long at the same close. The capital grows by the close minus two fees. |
| Backtest.ManageBooked | backtesting_engine.py:74-145 | Position management keeps the capital equal to the start capital plus each trade's effect (fee at opening, exit price minus fee at a close). |
| Backtest.OpenBooked | backtesting_engine.py:148-177 | Opening keeps the same bookkeeping: the fee is subtracted. |
| Backtest.SimBooked | backtesting_engine.py:69-177 | The bookkeeping holds after every bar. |
| Backtest.CloseAtEndBooked | backtesting_engine.py:179-191 | The end-of-period close adds the recorded result, not the exit price. |
| Backtest.EndValueBookkeeping | backtesting_engine.py:64-233 | The end value is the start capital plus each trade's effect on the capital. |
| Backtest.ManageLogged | backtesting_engine.py:74-109 | Position management keeps the log valid: each long was opened on a `"KOOP"` signal at a close; each closed one exited by the first exit rule that applied. |
| Backtest.OpenLogged | backtesting_engine.py:148-162 | A new trade is a long opened at the close of a bar whose lagged signal contains `"KOOP"`, entered no earlier than the last exit. |
| Backtest.SimLogged | backtesting_engine.py:69-177 | The log stays valid after every bar. |
| Backtest.CloseAtEndLogged | backtesting_engine.py:179-191 | The end-of-period close records the last close on the last bar. |
| Backtest.TradeLog | backtesting_engine.py:64-191 | The reported log is chronological. Every trade is a closed long opened on a `"KOOP"` signal, closed by stop loss, take profit, sell signal or end of period, with result exit − entry − cost. |
| Backtest.NoBuySignalNoTrades | backtesting_engine.py:148-177 | Without `"KOOP"` in any signal there are no trades, the end value is the start capital and the return is 0%. |
| Backtest.IndicatorFrameSignals | backtesting_engine.py:44-61 | The signal column over the real indicator frame has one entry per bar, none containing `"KOOP"`. |
| Backtest.IndicatorFrameNeverTrades | backtesting_engine.py:44-61 | A backtest over the indicator frame never trades and returns 0%. |
| Backtest.LosingTradeYetGain | backtesting_engine.py:77-234 | With the default parameters, a long bought at 100 and stopped out at 95 records −10, yet the run reports an end value of 10085 and +0.85%. |
| Backtest.WinnersAndLosers | backtesting_engine.py:222-223 | Winners plus losers never exceed the trade count, and equal it iff no result is exactly 0. |
| Backtest.WinRateBounds | backtesting_engine.py:224 | The win percentage lies between 0 and 100. |
| Backtest.AverageWin | backtesting_engine.py:225 | The average win is positive iff some trade won, and 0 iff none did. |
| Backtest.AverageLoss | backtesting_engine.py:223-226 | For a log of closed trades, the average loss is NaN iff some trade broke even and none lost. Otherwise it is negative iff some trade lost, and 0 iff none did. |
| Backtest.BacktestStats | backtesting_engine.py:217-234 | For every run, the win percentage is within 0-100, and the average loss is NaN exactly in the break-even case. |
| Backtest.Summarize | backtesting_engine.py:217-234 | The summary reports the start capital, the final capital as end value and the trade log with its length; the return percentage r satisfies start + r·start/100 = end; with no trades the total, win percentage and average win are 0 and the average loss is 0, not NaN. |
| Optimizer.ScanRow | backtesting_engine.py:273-307 | The innermost loop either stops with the metric error or advances the scan state past one row of take-profits. |
| Optimizer.Optimize | backtesting_engine.py:253-318 | No successful cell gives the no-result error. A successful cell with an unknown metric gives the metric error. Otherwise it returns the best score and the first cell, in loop order, that reaches it. |
| Optimizer.UnknownMetric | backtesting_engine.py:292-299 | An unknown metric is rejected once any cell succeeds. |
| Optimizer.GridDone | backtesting_engine.py:310-318 | After the whole grid, the kept best is the answer, or the no-result error when none succeeded. |
| Optimizer.PrecedesTotal | backtesting_engine.py:271-273 | The loop order (delay, then stop-loss, then take-profit) is total on distinct cells. |
| Optimizer.OptimumUnique | backtesting_engine.py:301-307 | The strictly-greater update determines a single result. |
| Optimizer.EqualScoresPickFirst | backtesting_engine.py:301-307 | When all successful cells score alike, the first successful cell wins. |
| Optimizer.SharpePicksFirstSuccess | backtesting_engine.py:294-307 | `'sharpe'` scores every cell 0, so the first successful cell wins with score 0. |
| Optimizer.BacktestRun | backtesting_engine.py:277-286 | Every cell run succeeds iff its delay is non-negative and there are bars, and then returns the return percentage of the backtest whose delay is the cell's and whose stop-loss and take-profit are the cell's hundredths divided by 100. |
| Optimizer.RunCell | backtesting_engine.py:277-286 | One call of run_backtest from the grid: success iff the delay is non-negative and there are bars; the result is the backtest return for the parameters with the cell's delay and with stop-loss times 100 and take-profit times 100 equal to the cell's hundredths. |
| Optimizer.NoBuySignalCellReturnsZero | backtesting_engine.py:277-293 | A cell whose signals never contain `"KOOP"` returns 0%. |
| Optimizer.IndicatorFrameCellReturnsZero | backtesting_engine.py:277-293 | Every cell over the indicator frame returns 0%. |
| Optimizer.FlatReturnsPickFirstCell | backtesting_engine.py:263-307 | When every cell of the default grid (delays 0-3, stop-loss 0.01-0.10, take-profit 0.05-0.21, the 680 cells the source visits) returns 0%, the search by return picks delay 0, stop-loss 0.01, take-profit 0.05. |
| Optimizer.IndicatorFramePicksFirstCell | backtesting_engine.py:253-318 | The default search over the indicator frame, on all 680 cells including take-profit 0.21, always returns that first cell with 0%. |
| Countries.FindName | data_processing.py:35-39 | Finds the first key equal to the name up to case, or None iff no key is. |
| Countries.Translate | data_processing.py:26-39 | None iff the name is missing or empty or matches no key up to case. Otherwise the value of a key that matches. |
| Countries.TranslateCountry | data_processing.py:26-39 | Over the country table: None iff the name is missing, empty or matches no English key up to case; otherwise the Dutch name of a matching key. |
| Countries.DistinctKeys | data_processing.py:8-21 | No two country keys are equal up to case. |
| Countries.TranslateAnyCasing | data_processing.py:35-38 | Any casing of a key of a table with distinct, non-empty keys translates to that key's value. |
| Countries.AnyCasingTranslates | data_processing.py:26-39 | Any casing of a country key yields its Dutch name. |
| Countries.ShoutedGermanyTranslates | data_processing.py:26-39 | `"GERMANY"` translates to `"Duitsland"`. |
| Countries.FindCode | data_processing.py:76-78 | Finds the first code, in table order, that occurs in the upper-cased name, or None iff none does. |
| Countries.CountryOfMarket | data_processing.py:74-79 | Returns the country of the first code that occurs in the upper-cased name, or the name itself, not upper-cased, when none does. |
| Countries.MarketCountry | data_processing.py:74-79 | Over the exchange-code table: the country of the first code in table order that occurs in the upper-cased name, or the name itself when no code occurs. |
| Countries.XetraHasEtr | data_processing.py:23-24 | Every name containing `XETRA` contains `ETR`. |
| Countries.Shadowed | data_processing.py:76-78 | An entry whose code occurs wherever an earlier entry's code does is never the first match. |
| Countries.XetraEntryShadowed | data_processing.py:23-24 | The `XETRA` entry is never the first match. |
| Countries.FirstMatchAt | data_processing.py:76-78 | The first entry whose code occurs is the match. |
| Countries.XetraIsGermany | data_processing.py:74-78 | `"xetra"` is upper-cased, matches `ETR` first and gives `"Duitsland"`. |

## Left out

- The price download (`get_backtest_data`, backtesting_engine.py:10-30): it is network I/O. The bars are an input.
- The indicator computation (backtesting_engine.py:44-51): it is library numerics. The per-bar signal strings are an input. The indicator frame is modelled only in how the classifier sees its rows: the volume ratio and nothing else.
- The `print` progress messages and the pandas DataFrame of the trade log: output only. The log is a sequence of records.
- The first statistics block (backtesting_engine.py:193-208): it has no effect, because the block at 217-231 overwrites every value it sets. Only the second is modelled.
- The block at backtesting_engine.py:210-215: it is never executed (see `Backtest.CloseAtEnd`), so it has no counterpart.
- IEEE floating point: prices are reals. The grid uses whole hundredths, and a `Grid`'s upper bound is the last value the float range produces. `np.arange(lo, hi + 0.01, 0.01)` can add one cell above `hi`: the default take-profit range 0.05-0.20 yields 0.05 through 0.21, which `Optimizer.DefaultGrid` includes. For other ranges the caller's bounds must be stated the same way; the float computation of the range length is not modelled.
- Dates: bar indices replace the index dates of the price history.
- Optimizer.RunCell: a negative delay gives a failed run. In the source, `shift` with a negative delay reads later signals and the last bars carry NaN, whose `in` test raises.
- Backtest.Backtest: requires a non-zero start capital; the return percentage divides by it.
- Advice.GenerateAdvice: requires every row to have the value column; the source raises on a missing column.
- Advice.EvaluateRow: requires a positive total value. The row driver calls it only when the sum is positive, and the screener pages pass 999 999 999.
- Advice.EvaluateRow: a column that is present but holds None cannot be passed; cells are absent, NaN or a number. In the source, None in the price, '50d MA', '200d MA', '52w High', position value, target, upside, volume ratio or daily change column raises `TypeError` at the first comparison or division that reaches it, as for a ticker whose information lacks the field. None in the margin, debt/equity, P/E, ROE, beta, P/B or P/S column behaves as NaN, because those reads go through `pd.isna`/`pd.notna`.
- Signals.Classify: table cells that are strings or other non-numeric values, and the `TypeError` Python raises when comparing them, are not modelled. Cells are absent, NaN or a number.
- Common.Upper: Python's `str.upper` can expand one character into several (`ß` to `SS`). Only upper cases of one ASCII character are modelled, so a name matching a code only through such an expansion is not covered.
- Countries.Translate: only string names or a missing name are modelled. A NaN or other non-string truthy value, on which `.lower()` raises, cannot be passed.
- Countries.CountryOfMarket: only string market names are modelled. The source applies `str()` first, so NaN and None become "NAN" and "NONE"; these non-string inputs cannot be passed.
- Common.Lower: only characters whose lower case is ASCII are mapped. This is exact for equality with the ASCII keys of the country table.
- ai_analysis.py (calls to an external language-model service), utils.py (formatting and CSS) and the Streamlit pages: not decision logic. config.py is modelled only as the profile encoding (`Advice.ProfileFromSettings`).
- The rest of data_processing.py (exchange rates, ticker information, history download, Excel loading, CSV writing): network and file I/O.
