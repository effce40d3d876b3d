# auto_trade: the backtest engine and the dashboard's re-aggregation, in Dafny

This project models the algorithmic core of `auto_trade`:

- **The backtest loop of `batch_analyzer.py`.** `run_strategy` covers RSI v1 and the EMA crossover; `run_strategy_rsi_v2` adds the EMA 200 trend filter, an RSI cross entry and a 2% stop-loss.
  - The engine walks the bars once from the warm-up index.
  - It holds a position (none, long or short), an entry price, a balance and a trade list.
  - On each bar it checks exit first, then entry.
  - An exit multiplies the balance by `1 + pnl` and appends a trade.
- **`calculate_metrics`.** It computes return %, win rate % and the trade count from the final balance and trade list. It also derives a last-bar signal label.
- **The re-aggregation in `dashboard.py`.**
  - `recalculate` keeps a row's stored trades whose time falls in a window and replays them from 1,000,000.
  - The window is either a trailing cutoff (now minus 1, 30, 180 or 365 days) or a calendar day, month, half-year or year.
  - The sidebar offers lists of months, half-years and years.
  - The summary computes a trade-weighted win rate and a compounded balance with and without a 0.1% fee per trade.

Modules, one per file:

| file | module | contents |
|---|---|---|
| `options.dfy` | `Options` | `Option` (a NaN indicator value, an unparseable time, an absent history) |
| `calendar.dfy` | `Calendar` | Python's naive `datetime` to whole seconds, its order, `- timedelta` |
| `ledger.dfy` | `Ledger` | the replay and win-rate arithmetic shared by `calculate_metrics` and `recalculate` |
| `backtest.dfy` | `Backtest` | strategies, bars, the per-bar rules, the `Engine` class and `Run` |
| `backtest_properties.dfy` | `BacktestProperties` | what the backtest loop guarantees |
| `windows.dfy` | `Windows` | trailing and calendar windows |
| `period_lists.dfy` | `PeriodLists` | the month, half-year and year choices, the date range of the trades |
| `dashboard.dfy` | `Dashboard` | `recalculate`, the gathering of trade dates, the weighted win rate, the fee loop |
| `consistency.dfy` | `Consistency` | a backtest row re-aggregated over a covering window keeps its metrics |

How the code maps to Dafny:

- **Backtest loop.** It is imperative: the `Engine` class has the loop's variables as fields. `Engine.Step` is the loop body, `Engine.Walk` is the loop, and `Run` is the whole function. `Step` is proved against the functional step `Backtest.StepSpec`, and the loop against `Backtest.Simulate`; the lemmas are stated about those functions.
- **`recalculate`.** Its two loops are the methods `Dashboard.FilterTrades` and `Dashboard.ReplayTrades`. They are proved against `Dashboard.Kept` and `Ledger.Replay`.
- **Fee loop.** The nested loop is the method `Dashboard.FeeAdjustedBalances`, with its inner loop in `Dashboard.CompoundRow`. Both are proved against `Dashboard.Grown`.
- **Trade dates.** The nested loop that gathers every parsed trade time is the method `Dashboard.GatherDates`, proved against `Dashboard.AllDates`. `PeriodLists.DateRange` takes its minimum and maximum.
- **Month walk.** It is the method `PeriodLists.MonthWalk`.

Modelling choices:

- **Numbers.** Prices, returns and balances are `real`: exact arithmetic in place of Python floats.
- **NaN indicators.** An indicator value that pandas holds as NaN is `None`. Every comparison with it is false, as with NaN in Python.
- **Products.** Balances and growth factors are multiplied through `Ledger.Mul`. It is ordinary multiplication under a name, which keeps proofs about products symbolic.

## Model

| member | source | states |
|---|---|---|
| Calendar.BeforeIffSeconds | dashboard.py:205 | Python's field-by-field `<` on naive datetimes holds exactly when the first instant has fewer seconds: the comparison orders instants |
| Calendar.Before | dashboard.py:205 | Python's `<` on naive datetimes: never holds between equal instants, never goes back a year, and always holds into a later year |
| Calendar.LessEq | dashboard.py:212 | Python's `<=` on naive datetimes: reflexive, and never goes back a year |
| Calendar.LessEqIffSeconds | dashboard.py:212 | `a <= b` holds exactly when `a` has at most as many seconds as `b` |
| Calendar.NotLessEq | dashboard.py:93 | the order is total: `a <= b` fails exactly when `b < a` |
| Calendar.LessEqTransitive | dashboard.py:205 | `<=` is transitive, and strict as soon as one step is strict |
| Calendar.MinusDaysSeconds | dashboard.py:179-185 | `t - timedelta(days=n)` is exactly `n * 86400` seconds earlier, at the same time of day |
| Calendar.MinusOneSecondSeconds | dashboard.py:109-111 | `t - timedelta(seconds=1)` is exactly one second earlier, across day, month and year boundaries |
| Calendar.MinusOneSecond | dashboard.py:109 | `t - timedelta(seconds=1)`: one second earlier on the same date, or 23:59:59 on the previous date when `t` is at midnight |
| Calendar.MinusDays | dashboard.py:179-185 | `t - timedelta(days=n)`: the same time of day, strictly earlier once `n > 0` |
| Ledger.WinCount | batch_analyzer.py:262 | the wins number at most the trades; all trades win exactly when the count is the length; none wins exactly when every pnl is at most 0 |
| Ledger.WinRate | batch_analyzer.py:263 | the win rate lies in [0, 100], is 0 without trades, and is 100 exactly when there are trades and every one wins |
| Ledger.Aggregate | batch_analyzer.py:261-263 | the count is the number of trades, the win rate is a percentage, and an empty list reports 0 / 0 / 0 |
| Ledger.ReplayIsScaledGrowth | batch_analyzer.py:141 | compounding `balance *= (1 + pnl)` in order gives the initial balance times the product of all `1 + pnl` |
| Ledger.GrowthSnoc | batch_analyzer.py:141 | one more trade multiplies the growth factor by its `1 + pnl` |
| Ledger.Replay | batch_analyzer.py:141 | the balance after `balance *= (1 + pnl)` over the returns in order: unchanged when every return is 0, and never negative from a non-negative start when no return is below -100% |
| Ledger.ReturnPct | batch_analyzer.py:261 | `(balance - 1e6) / 1e6 * 100`: zero exactly at the initial balance and positive exactly above it |
| Ledger.ReplaySnoc | dashboard.py:224-225 | replaying one more return multiplies the balance by `1 + pnl` |
| Ledger.WinCountAppend | batch_analyzer.py:262 | the wins of two trade lists put together are the sum of their wins |
| Ledger.WinRateTimesCount | dashboard.py:263 | win rate times trade count is 100 times the number of wins, with or without trades |
| Backtest.Warmup | batch_analyzer.py:109 | the first processed index (120, or 200 for RSI v2 at line 191) is at least 1, so the previous bar exists, and at most the 200-bar minimum a run needs |
| Backtest.Pnl | batch_analyzer.py:124-127 | a long's return is positive exactly when the close is above the entry; a short's exactly when it is below |
| Backtest.ExitOf | batch_analyzer.py:115-138 | whether an open position closes on this bar: the exit's pnl is the side's return from the entry price to the close; an exit has a reason exactly for RSI v2; in RSI v1 and EMA a position closes exactly when the entry rule would open the opposite side |
| Backtest.EntryOf | batch_analyzer.py:146-164 | which side a flat engine opens: RSI v1 long exactly below 30 and short exactly above 70; EMA long exactly on an up-cross (fast at or below slow on the previous bar, above it now) and short exactly on the mirror down-cross; RSI v2 only on a defined EMA 200 that differs from the close |
| Backtest.StepSpec | batch_analyzer.py:114-164 | one bar adds at most one trade and leaves earlier trades untouched; a new trade carries the bar's time and multiplies the balance by its `1 + pnl`; without a trade the balance is unchanged; an open position keeps a positive entry price |
| Backtest.Simulate | batch_analyzer.py:108-109 | after any number of bars an open position has a positive entry price, so every pnl division is defined |
| Backtest.CurrentSignal | batch_analyzer.py:265-290 | EMA yields only "Hold (Bull)"/"Hold (Bear)", RSI only "Buy (OverSold)"/"Sell (OverBought)"/"Hold", RSI v2 only "Buy (Trend Follow)"/"Sell (Trend Follow)"/"Hold" |
| Backtest.CalculateMetrics | batch_analyzer.py:260-299 | return is `(balance - 1e6) / 1e6 * 100`; the count and history are the trade list; the win rate is a percentage and 0 without trades; the last price is the last close |
| Backtest.Outcome | batch_analyzer.py:88-89 | the run has no result exactly when the series has fewer than 200 bars |
| Backtest.Engine.constructor | batch_analyzer.py:101-105 | the engine starts flat with 1,000,000 and no trades |
| Backtest.Engine.Step | batch_analyzer.py:110-164 | the loop body updates position, entry price, balance and trades exactly as the per-bar rule says, for all three strategies |
| Backtest.Engine.Walk | batch_analyzer.py:108-109 | the loop over all bars, skipping the warm-up, ends in the state of the functional simulation |
| Backtest.Run | batch_analyzer.py:87-166 | `run_strategy` / `run_strategy_rsi_v2` return the functional outcome: none for fewer than 200 bars, else the metrics of the final state |
| BacktestProperties.NothingBeforeWarmup | batch_analyzer.py:109 | bars before index 120 (RSI, EMA) or 200 (RSI v2) change nothing |
| BacktestProperties.EarlyBarsIgnored | batch_analyzer.py:191 | two series that agree from the bar just before the warm-up index on give the same engine state |
| BacktestProperties.StepIgnoresEarlyBars | batch_analyzer.py:193-197 | one step reads only the current and the previous bar |
| BacktestProperties.OutcomeIgnoresEarlyBars | batch_analyzer.py:190-191 | the whole result, signal included, is the same for series that agree from two bars before the warm-up index on |
| BacktestProperties.SignalIgnoresEarlyBars | batch_analyzer.py:267-272 | the signal reads only the last two bars |
| BacktestProperties.BalanceIsReplay | batch_analyzer.py:140-143 | after any number of bars the balance is the initial capital replayed through the recorded trades' returns |
| BacktestProperties.StepKeepsReplay | batch_analyzer.py:234-237 | a step preserves "balance = replay of the trades" |
| BacktestProperties.ExtensionKeepsReplay | batch_analyzer.py:140-142 | appending at most one trade while multiplying the balance by its `1 + pnl` keeps "balance = replay of the trades" |
| BacktestProperties.FinalBalanceIsCompounded | batch_analyzer.py:141 | the final balance is 1,000,000 times the product of `1 + pnl` over the trades in order; a position still open adds nothing |
| BacktestProperties.MetricsAreReplayOfHistory | batch_analyzer.py:261-263 | the reported return, win rate and count are exactly those of replaying the reported trade history |
| BacktestProperties.TradeTimes | batch_analyzer.py:108-143 | on a chronological series trade times strictly increase and lie between the first processed bar and the last visited one |
| BacktestProperties.StepTradeTimes | batch_analyzer.py:140-143 | one step keeps the trade times strictly increasing and within the processed bars, the new trade taking the current bar's time |
| BacktestProperties.ExitReverses | batch_analyzer.py:122-164 | in RSI v1 and EMA a bar either leaves an open position alone or closes it and opens the opposite side at the same close |
| BacktestProperties.StaysInMarket | batch_analyzer.py:115-164 | once RSI v1 or EMA has opened a position, the engine is never flat at the end of a later bar |
| BacktestProperties.UndefinedBarIsSkipped | batch_analyzer.py:200 | an RSI v2 bar with NaN RSI or EMA 200 neither exits nor enters |
| BacktestProperties.StopLossTakesPrecedence | batch_analyzer.py:210-227 | when the stop-loss triggers, the exit's reason is "Stop Loss" whatever the RSI says, with the side's pnl |
| BacktestProperties.TakeProfitReason | batch_analyzer.py:216-232 | without a stop-loss, a long exits exactly when RSI > 70 and a short exactly when RSI < 30, with the side's take-profit reason |
| BacktestProperties.StopLossPnlBound | batch_analyzer.py:212-226 | a triggered stop-loss loses at least 2% |
| BacktestProperties.StopLossTradesLose | batch_analyzer.py:205-237 | every trade of a run carries a reason exactly when the strategy is RSI v2, and every "Stop Loss" trade has pnl at most -0.02 |
| BacktestProperties.RsiV2EntryRule | batch_analyzer.py:242-255 | RSI v2 opens long only above EMA 200 on an RSI up-cross of 30, and short only below it on a down-cross of 70, at the bar's close; a flat engine with such a set-up does open; a close equal to EMA 200 never opens |
| BacktestProperties.EmaEntryIsCross | batch_analyzer.py:161-164 | a flat EMA engine opens long exactly when the fast average crosses above the slow one and short exactly on the mirror cross, at the bar's close, adding no trade |
| BacktestProperties.RsiV2SignalIsEntryRule | batch_analyzer.py:269-279 | the RSI v2 signal is Buy/Sell "(Trend Follow)" exactly when the loop's long/short entry set-up holds on the last two bars |
| BacktestProperties.RsiV1SignalIsEntryRule | batch_analyzer.py:281-284 | the RSI signal is Buy, Sell or Hold exactly as the loop's entry rule would go long, short or stay flat on the last bar |
| BacktestProperties.EmaSignalIsTrend | batch_analyzer.py:286-290 | the EMA signal is "Hold (Bull)" exactly when fast > slow on the last bar |
| Windows.Includes | dashboard.py:203-213 | the inclusion test: for a trailing window a time is kept exactly when it is not before the cutoff; a calendar window keeps something only when its start is not after its end |
| Windows.IncludesBetween | dashboard.py:203-213 | every window is an interval: an instant between two included instants is included |
| Windows.TrailingFilter | dashboard.py:176-185 | "전체" has no window and every other period has a trailing cutoff |
| Windows.TrailingFilterIncludes | dashboard.py:176-185 | the 1일/1달/6달/1년 cutoff keeps exactly the instants at most 1/30/180/365 days before now |
| Windows.DayWindow | dashboard.py:84-87 | the chosen date from 00:00:00 to 23:59:59, an ordered window |
| Windows.DayWindowIsTheDate | dashboard.py:84-87 | the day window starts no later than it ends and holds exactly the instants of the chosen date |
| Windows.MonthWindow | dashboard.py:105-111 | from 00:00:00 on the 1st to 23:59:59 on the month's last day |
| Windows.MonthWindowIsTheMonth | dashboard.py:105-111 | the month window ends at 23:59:59 on the month's last day (December rolling to January), starts no later than it ends, and holds exactly that month |
| Windows.HalfWindow | dashboard.py:125-131 | an ordered window inside the chosen year, from midnight to 23:59:59 |
| Windows.HalfWindowIsTheHalf | dashboard.py:125-131 | 상반기 holds exactly January–June of the year, 하반기 exactly July–December, each window ordered |
| Windows.YearWindow | dashboard.py:139-140 | an ordered window inside the chosen year, from midnight to 23:59:59 |
| Windows.YearWindowIsTheYear | dashboard.py:139-140 | the year window is ordered and holds exactly that year |
| Windows.HalvesCoverTheYear | dashboard.py:125-140 | an instant is in the year exactly when it is in one of its two halves |
| PeriodLists.MonthStartAsWritten | dashboard.py:92 | `min_date.replace(day=1)` is the first of the same month at the same time of day, no later than `min_date` |
| PeriodLists.MonthStart | dashboard.py:92 | midnight on the first of the month, no later than the date |
| PeriodLists.NextMonth | dashboard.py:96-99 | the step moves to the next month (December to January of the next year), keeping day 1 and the time of day |
| PeriodLists.MonthWalk | dashboard.py:91-102 | the walk lists, newest first and without repeats, exactly the months whose step value is at most `max_date`, and the current month when it lists none |
| PeriodLists.MonthOptions | dashboard.py:91-102 | started at midnight on the first, the list holds exactly the months from the earliest trade's to the latest trade's, newest first, never empty |
| PeriodLists.MonthStartListsEveryMonth | dashboard.py:92-99 | from midnight on the first of `min_date`'s month the walk reaches a month exactly when it lies between `min_date`'s and `max_date`'s |
| PeriodLists.AsWrittenListsLastMonthIff | dashboard.py:92-99 | from `min_date.replace(day=1)` the walk reaches `max_date`'s month exactly when `max_date` is past the 1st or its time of day is not earlier than `min_date`'s |
| PeriodLists.AsWrittenMissesMarch | dashboard.py:92-99 | for trades from 2024-01-15 10:00:00 to 2024-03-01 09:00:00 the walk as written lists January and February but not March |
| PeriodLists.HalfOptions | dashboard.py:115-122 | both halves of every year from the first to the last, 2 per year, newest first (하반기 before 상반기), nothing else |
| PeriodLists.YearOptions | dashboard.py:135-136 | every year from the first to the last, newest first, nothing else |
| PeriodLists.DateRange | dashboard.py:75-81 | the earliest and latest of the gathered dates (both `now` without any), ordered, both among the dates, bounding every one |
| PeriodLists.Earliest | dashboard.py:80 | `min` is one of the dates and no later than any of them |
| PeriodLists.Latest | dashboard.py:81 | `max` is one of the dates and no earlier than any of them |
| Dashboard.Kept | dashboard.py:195-216 | the filtered list is no longer than the history, and empty exactly when no trade parses into the window |
| Dashboard.KeptMembers | dashboard.py:195-216 | a trade is kept exactly when it is in the history, its time parses and it lies in the window |
| Dashboard.KeptAppend | dashboard.py:195-216 | filtering commutes with concatenation, so the kept list is an order-preserving subsequence |
| Dashboard.KeptAll | dashboard.py:203-216 | a window that holds every trade keeps the whole history |
| Dashboard.Reaggregate | dashboard.py:188-234 | a row without a list history is returned unchanged; otherwise return is that of 1e6 times the product of `1 + pnl` over the kept trades, the win rate is theirs (a percentage), the count is theirs, and the history is kept |
| Dashboard.FilterTrades | dashboard.py:193-218 | the filtering loop builds exactly the kept trades in stored order, dropping unparseable ones |
| Dashboard.ReplayTrades | dashboard.py:221-225 | the replay loop ends at 1e6 compounded through the kept returns in order |
| Dashboard.Recalculate | dashboard.py:188-234 | `recalculate` computes exactly the re-aggregated row |
| Dashboard.EmptyWindowGivesZero | dashboard.py:227-233 | a window holding none of a row's trades gives 0 / 0 / 0 |
| Dashboard.ParsedTimes | dashboard.py:65-73 | a time is gathered from one history exactly when some trade of it has that parsed time |
| Dashboard.AllDates | dashboard.py:63-73 | a time is gathered exactly when it is the parsed time of a trade in some row whose history is a list |
| Dashboard.GatherDates | dashboard.py:63-73 | the nested gathering loop builds exactly those dates, row by row and trade by trade |
| Dashboard.SpecificPeriodRange | dashboard.py:63-81 | the range offered for a specific period is ordered, bounds every parsed trade time of every list history, and is (now, now) when no time parses |
| Dashboard.TotalTrades | dashboard.py:259 | the summed trade count is at least every row's count, and 0 exactly when every row has no trades |
| Dashboard.WeightedWins | dashboard.py:263 | the summed `win_rate * trades` is 0 without trades and non-negative when every win rate is |
| Dashboard.WeightedWinsBounds | dashboard.py:263 | the summed `win_rate * trades` lies between 0 and 100 times the total trades |
| Dashboard.WeightedWinRate | dashboard.py:259-265 | 0 without trades; otherwise the rate times the total trade count gives back the summed `win_rate * trades` |
| Dashboard.WeightedWinRateBounds | dashboard.py:259-265 | the weighted win rate of rows with percentage win rates is a percentage (0 with no trades) |
| Dashboard.PooledTotal | dashboard.py:259 | the total trade count is the number of all rows' trades together |
| Dashboard.PooledWins | dashboard.py:263 | the summed `win_rate * trades` is 100 times all rows' wins together |
| Dashboard.WeightedWinRateIsPooled | dashboard.py:259-265 | when each row reports its own trades' win rate and count, the weighted win rate is the win rate of all trades pooled |
| Dashboard.PerTradeReturn | dashboard.py:283-287 | 0 for a row without trades; otherwise, taken once per trade, it adds up to the row's return as a fraction |
| Dashboard.Gain | dashboard.py:291 | a row's per-trade factor `1 + avg_return_per_trade`: 1 without trades, and otherwise its excess over 1, taken once per trade, adds up to the row's return as a fraction |
| Dashboard.GainAfterFee | dashboard.py:295 | the factor after the 0.1% fee lies between 0 and the fee-free factor when that is non-negative, strictly below it when it is positive |
| Dashboard.CompoundRow | dashboard.py:289-295 | the inner loop multiplies each balance by the row's factor, with or without the fee, exactly once per trade |
| Dashboard.Grown | dashboard.py:282-295 | compounding the rows' per-trade returns once per trade, with or without the fee, leaves the balance unchanged when there are no trades |
| Dashboard.FeeAdjustedBalances | dashboard.py:279-295 | the loop compounds each row's per-trade return once per trade, and the fee-adjusted balance is the fee-free one times 0.999 to the power of the total trade count |
| Dashboard.FeeIsChargedPerTrade | dashboard.py:289-295 | charging the fee inside every compounding step equals charging `0.999^total trades` on the fee-free result |
| Dashboard.FeeFactorBounds | dashboard.py:271 | `0.999^n` lies in (0, 1], below 1 once there is a trade |
| Dashboard.FeeNeverRaises | dashboard.py:279-299 | with a non-negative fee-free balance, the fee-adjusted one is between 0 and it, and strictly below it when it is positive and there are trades |
| Consistency.Stored | batch_analyzer.py:296 | the saved history holds each trade's time and pnl, in order |
| Consistency.RowOf | batch_analyzer.py:292-299 | the saved row reports the run's return, win rate and count, and its history is a list whose every time is present and whose returns are the run's, in order |
| Consistency.WholeWindowKeepsMetrics | dashboard.py:221-233 | re-aggregating a backtest's row over a window holding all its trades gives back the return, win rate and count `calculate_metrics` reported |
| Consistency.TradesInWindow | batch_analyzer.py:190-237 | on a chronological series a window holding every processed bar's time holds every trade |
| Consistency.CoveringWindowKeepsMetrics | dashboard.py:203-233 | a window covering every processed bar leaves a backtest's metrics unchanged |

## Left out

- `get_data` (batch_analyzer.py:50-84) is not part of this model. It fetches prices over the network through `pyupbit`/`yfinance`.
- The `main` driver of batch_analyzer.py is not part of this model. It iterates assets and intervals, prints, reads the clock and writes JSON.
- The indicators `ta.rsi`/`ta.ema` are floating-point library code. Each bar carries its indicator values as inputs, so the RSI window 14 and the EMA lengths 25/120/200 appear only as the meaning of those inputs.
- Timestamp parsing is not modelled: `str(df.index[i])`, `pd.to_datetime` and `tz_localize(None)`. A stored trade carries an already-parsed, offset-stripped time, or `None` when its time is missing or does not parse.
- The Streamlit page is not part of this model: layout, `load_data` caching, widgets, styling and tables. Neither are the strategy, category, asset and interval row filters, which only select rows.
- `batch_analyzer.get_analysis_results` is not part of this model.
- `datetime.now()` is not read; the current time is a parameter (`now`).
- Times have whole seconds. `datetime.max.time()` ends the day window at 23:59:59.999999; here it ends at 23:59:59.
- Years are unbounded. Python's range of 1 to 9999 is not enforced.
- The month and half-year lists are sorted as strings ("%Y-%m", "YYYY 상반기/하반기"). They are modelled by their numeric order, which agrees for four-digit years. The year list is sorted as integers, as modelled.
- Python floats are modelled as exact `real` arithmetic; rounding is not modelled.
- `avg_return` (dashboard.py:268) is computed but never used in the core, so it is not modelled.
- Backtest.Run: prices are assumed positive; the run requires every close to be positive. Entry prices are closes and every pnl divides by the entry price. At a zero or negative entry price the source carries on: numpy division gives `inf` or `nan` with a warning, and a negative entry flips the sign of the returns. The model does not represent those runs.
- Dashboard.Reaggregate: a stored trade without a `pnl` key is not modelled. In the source it raises outside the `try`.
- Dashboard.Reaggregate: the filter is one window. The source's third case, where neither a complete calendar period nor a cutoff is set, cannot arise once a period other than "전체" is chosen.
- Dashboard.FeeAdjustedBalances: trade counts are whole numbers (`nat`), so `int(trades_count)` is the count itself.
- Dashboard.WeightedWinRate: this is `(win_rate * trades).sum() / total` over a sequence of rows. The pandas frame is not modelled.
- Dashboard.Recalculate: the source writes the new values into the row in place (pandas `apply`). Here it returns the new row as a value.

## Findings

| source | as written | input that shows it | evidently intended | confidence | as-written member | corrected member |
|---|---|---|---|---|---|---|
| dashboard.py:92-99 | the month walk starts at `min_date.replace(day=1)`, which keeps `min_date`'s time of day, so each step value is the 1st of a month at that time | trades from 2024-01-15 10:00:00 to 2024-03-01 09:00:00: the step value for March, 2024-03-01 10:00:00, is after `max_date`, so March is not offered although it holds the latest trade | offer every month from the earliest trade's to the latest trade's, as a walk from midnight on the first does | not executed | PeriodLists.AsWrittenMissesMarch | PeriodLists.MonthOptions |
