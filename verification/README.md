# Pain/Gain strategy core in Dafny

This project models the decision and bookkeeping layer of the Pain/Gain MetaTrader 5 bot. PainBot trades
only SELL on the "PainX" synthetic indices, and GainBot trades only BUY on "GainX". The model covers:

- **Indicators** (`technical.dfy`, module `Indicators`):
  - the `ewm(adjust=False)` EMA as a recursive function over `real`;
  - the snake, shingle and squid colour labels;
  - the Fibonacci table and the swing high/low;
  - the D1 wick bias with its 50% level;
  - the H4 "largest body covers the fib 50" test and the purple-line break-and-retest.

  The two loops of the source (the H4 body list and the break flag) are methods proved equal to specification functions.
- **Historical replay** (`historical_backtester.dfy`, `historical_replay.dfy`). The cached bar store answers "bars up to time t" with no look-ahead. On top of it run the strict six-step cascade, the P/L of a simulated exit and the statistics. A `Replay` class steps 5-minute ticks day by day, opens positions on signals and closes them once the hold time has passed. It keeps the balance equal to the initial balance plus the sum of the booked P/L.
- **Relaxed cascade** (`relaxed_backtester.dfy`). Only the M30/M15 snake vetoes; the other steps are recorded. It accepts every time the strict cascade accepts.
- **Live signal engine** (`signals.dfy`). A `SignalEngine` class caches the daily bias for 3600 s and latches a day stop. It runs the step cascade with the stricter M5/M1 entry rule.
- **Order lifecycle** (`order_manager.dfy`). An `OrderManager` class keeps `active_positions`, `last_entry_time` and `consecutive_orders`. Its entry gate checks, in order: the consecutive cap, the cooldown, then the purple-line side. Its exit decision is the hold period, then stop loss or take profit. Closes are collected first and carried out second.
- **Risk circuit breaker** (`risk_manager.dfy`). A `RiskManager` class holds:
  - the daily P/L derivation;
  - a halt that latches until the daily reset;
  - the session window that wraps past midnight;
  - lot clamping and rounding to the volume step.
- **Simple backtester** (`backtester.dfy`). It covers the bot-type filter, position bookkeeping with the P/L draw as a parameter, the equity curve, the maximum drawdown and the Sharpe figures.
- **Trade ledger** (`trade_exporter.dfy`). It is append-only: a close flips the first matching OPEN record to CLOSED. It also computes statistics over the CLOSED records.
- **Tradeable periods** (`tradeable_periods.dfy`). It classifies each day by the wick bias of a five-day window. It groups bias days into runs whose gaps are at most 3 days, keeps runs of at least 3 days, sorts them stably by length in place and reports at most five.

Conventions shared by all modules (`market.dfy`):
- Prices, volumes and balances are `real`.
- The backtests count time in integer minutes, with day `d` starting at minute `d * 1440`.
- The live components count time in integer seconds, because the source compares `total_seconds()` against 3600 and against minute thresholds.
- The tradeable-period scan uses the broker's epoch seconds, and a bar's date is `time / 86400`.
- Every broker answer, every reading of the clock and every configuration value is a parameter: bars, ticks, balances, send and close results, and symbol information.

## Model

| member | source | states |
|---|---|---|
| Indicators.Alpha | pain_gain_bot/indicators/technical.py:15-17 | The smoothing factor 2/(p+1) lies in (0, 1]. |
| Indicators.Ema | pain_gain_bot/indicators/technical.py:15-17 | The EMA series has one value per input value. |
| Indicators.EmaRecurrence | pain_gain_bot/indicators/technical.py:15-17 | The EMA is seeded with the first value, and each later value is α·x + (1−α)·previous EMA. |
| Indicators.EmaOfConstant | pain_gain_bot/indicators/technical.py:15-17 | The EMA of a constant series is that constant everywhere. |
| Indicators.EmaWithinRange | pain_gain_bot/indicators/technical.py:15-17 | Every EMA value stays within any bounds that hold for all inputs. |
| Indicators.PurpleLine | pain_gain_bot/indicators/technical.py:61-66 | The purple line is the EMA of the closes, with one value per bar. |
| Indicators.SnakeColor | pain_gain_bot/indicators/technical.py:25-41 | The snake is GREEN exactly when the last fast EMA is above the last slow EMA, so equal periods give RED. |
| Indicators.Shingle | pain_gain_bot/indicators/technical.py:44-58 | The shingle value is the last EMA of the closes, and its colour is GREEN exactly when the last close is above it. |
| Indicators.ShingleWithinCloses | pain_gain_bot/indicators/technical.py:44-58 | The shingle value lies between the lowest and the highest close. |
| Indicators.SquidColor | pain_gain_bot/indicators/technical.py:69-86 | With fewer than 2 bars it is GREEN; otherwise it is GREEN exactly when the last close is above the previous bar's EMA. |
| Indicators.SmoothRises | pain_gain_bot/indicators/technical.py:69-86 | One EMA step rises above the previous value exactly when the new input is above it. |
| Indicators.IsWickHalfFilled | pain_gain_bot/indicators/technical.py:196-216 | An UP wick is filled exactly when the price is at or above the level, a DOWN wick exactly when it is at or below, and NONE never. |
| Indicators.FlatMarketIsRed | pain_gain_bot/indicators/technical.py:25-86 | On flat closes the colour ties resolve as the source does: snake RED, shingle (close, RED), squid RED with 2 or more bars and GREEN with fewer. |
| Indicators.FibonacciRetracement | pain_gain_bot/indicators/technical.py:89-111 | Level 0 is the high, level 100 is the low and level 50 is their midpoint. The intermediate levels lie between them in order, for either orientation. |
| Indicators.FibFiftyIsSymmetric | pain_gain_bot/indicators/technical.py:100-111 | The 50% level is the swing midpoint whichever way the arguments are passed (BUY swaps them). |
| Indicators.MaxHigh | pain_gain_bot/indicators/technical.py:125-126 | This is the highest high, and it is attained by some bar. |
| Indicators.MinLow | pain_gain_bot/indicators/technical.py:125-127 | This is the lowest low, and it is attained by some bar. |
| Indicators.SwingHighLow | pain_gain_bot/indicators/technical.py:114-129 | It gives the highest high and the lowest low of the last `lookback` bars. |
| Indicators.CheckWickDirection | pain_gain_bot/indicators/technical.py:132-193 | With fewer than 2 bars the result is (NONE, 0, 0). Otherwise the direction is UP exactly when the upper wick of the second-to-last bar strictly exceeds its lower wick, and DOWN otherwise (ties give DOWN). The size is the dominant wick, and the level is its midpoint. |
| Indicators.WickReadsOnlyClosedBar | pain_gain_bot/indicators/technical.py:147-148 | Two series with the same second-to-last bar give the same wick bias. |
| Indicators.WickLevelInsideWick | pain_gain_bot/indicators/technical.py:172-185 | On a well-formed bar the 50% level lies inside the dominant wick, between the body and the extreme. |
| Indicators.WickExample | pain_gain_bot/indicators/technical.py:173-185 | The bar o=100, h=110, l=99, c=102 gives UP with level 106; a price of 107 fills it and 105 does not. |
| Indicators.LargestBodyIndex | pain_gain_bot/indicators/technical.py:250-259 | It gives the index of a largest body, and the first one on ties. |
| Indicators.H4Coverage | pain_gain_bot/indicators/technical.py:219-274 | It is false with fewer than 2 H4 or 20 M15 bars. Otherwise it is true exactly when the first largest-body candle of `tail(4).head(3)` spans the fib-50 of the M15 swing. |
| Indicators.CheckH4Coverage | pain_gain_bot/indicators/technical.py:219-274 | The loop that builds the body list returns exactly `H4Coverage`. |
| Indicators.CollectBodies | pain_gain_bot/indicators/technical.py:250-253 | The body list holds abs(close − open) of each candle, in order. |
| Indicators.FirstLargest | pain_gain_bot/indicators/technical.py:259-260 | `bodies.index(max(bodies))` is the first largest body. |
| Indicators.DetectBreakRetest | pain_gain_bot/indicators/technical.py:277-329 | The flag loop returns exactly `BreakRetest`. It is false with too few bars. Otherwise it is true when a non-final bar of the window crosses the line (BUY: open ≤ line < close; SELL: open ≥ line > close) and the final bar retests it within 0.0002. |
| Indicators.BreakRetestWitness | pain_gain_bot/indicators/technical.py:291-327 | A detected pattern implies enough bars and line values, and a final low (BUY) or high (SELL) within 0.0002 of the line. |
| HistoricalBacktester.UpTo | pain_gain_bot/backtest/historical_backtester.py:137-141 | The filter keeps only bars at or before `t`. |
| HistoricalBacktester.UpToMembers | pain_gain_bot/backtest/historical_backtester.py:137-141 | It keeps exactly the bars at or before `t` (both directions). |
| HistoricalBacktester.UpToIsPrefix | pain_gain_bot/backtest/historical_backtester.py:137-141 | On a series with increasing times the filter is a prefix, split exactly at `t`. |
| HistoricalBacktester.UpToIgnoresFuture | pain_gain_bot/backtest/historical_backtester.py:137-141 | Appending bars later than `t` does not change the answer. |
| HistoricalBacktester.BarsUpTo | pain_gain_bot/backtest/historical_backtester.py:118-146 | The result is None exactly for an unknown symbol or timeframe, or when no bar is at or before `t`. Otherwise it is the last `count` visible bars. |
| HistoricalBacktester.BarsUpToNoLookAhead | pain_gain_bot/backtest/historical_backtester.py:118-146 | Every returned bar is a bar of the series, and the newest returned bar is the newest bar visible at `t`. |
| HistoricalBacktester.BarsUpToIgnoresFuture | pain_gain_bot/backtest/historical_backtester.py:118-146 | No look-ahead: bars later than `t` appended to the series leave the lookup at `t` unchanged. |
| HistoricalBacktester.BarsUpToAreLatest | pain_gain_bot/backtest/historical_backtester.py:118-146 | On increasing series the returned bars are the latest bars at or before `t`, contiguous and in order. |
| HistoricalBacktester.FramesAt | pain_gain_bot/backtest/historical_backtester.py:165-279 | Every lookup of the cascade is taken from the cache with the cascade's counts. |
| HistoricalBacktester.StrictCascade | pain_gain_bot/backtest/historical_backtester.py:148-316 | A signal comes out exactly when every step passes. It trades the bot's side at the last close of the entry series. |
| HistoricalBacktester.CheckSignalAtTime | pain_gain_bot/backtest/historical_backtester.py:148-316 | A signal comes out exactly when the strict cascade accepts the frames at `t`. It carries the bot's side, the symbol and the time `t`. |
| HistoricalBacktester.StrictSignalFollowsBias | pain_gain_bot/backtest/historical_backtester.py:173-190 | A strict signal's action is the bot's side (PAIN→SELL, GAIN→BUY) and equals the D1 wick bias. |
| HistoricalBacktester.StrictPriceWithoutM1 | pain_gain_bot/backtest/historical_backtester.py:62-69 | M1 is never loaded, so a signal's price is the last M5 close at or before `t`. |
| HistoricalBacktester.ExitPrice | pain_gain_bot/backtest/historical_backtester.py:330-340 | The exit is the last M1 close at or before `t`, or else the last M5 close. It is None only when neither exists. |
| HistoricalBacktester.MovePnl | pain_gain_bot/backtest/historical_backtester.py:345-353 | P/L is the favourable move times volume times 10000. It is positive exactly when the move favours the side. |
| HistoricalBacktester.SimulateTradeExit | pain_gain_bot/backtest/historical_backtester.py:318-355 | P/L is 0 without an exit bar. Otherwise it is (entry−exit)·v·10000 for SELL and (exit−entry)·v·10000 for BUY. |
| HistoricalBacktester.ExitPnlMirrors | pain_gain_bot/backtest/historical_backtester.py:346-349 | A BUY's simulated P/L is the negation of the same SELL's. |
| HistoricalBacktester.TotalPnlAppend | pain_gain_bot/backtest/historical_backtester.py:508 | The total P/L grows by the P/L of an appended trade. |
| HistoricalBacktester.Winning | pain_gain_bot/backtest/historical_backtester.py:506 | The winners are the trades with pnl > 0, in order; `WinLossMembers` proves that every such trade is among them. |
| HistoricalBacktester.Losing | pain_gain_bot/backtest/historical_backtester.py:507 | The losers are the trades with pnl ≤ 0, in order; `WinLossMembers` proves that every such trade is among them. |
| HistoricalBacktester.WinLossMembers | pain_gain_bot/backtest/historical_backtester.py:506-507 | A trade is among the winners exactly when it is a trade with pnl > 0, and among the losers exactly when pnl ≤ 0. |
| HistoricalBacktester.WinLossPartition | pain_gain_bot/backtest/historical_backtester.py:506-507 | Winners and losers together are, as a multiset, exactly the trades. |
| HistoricalBacktester.WinLossConcat | pain_gain_bot/backtest/historical_backtester.py:506-507 | Both filters distribute over concatenation, so they keep the trades' order. |
| HistoricalBacktester.WinLossCount | pain_gain_bot/backtest/historical_backtester.py:506-513 | Winners plus losers equal all trades. |
| HistoricalBacktester.WinLossPnl | pain_gain_bot/backtest/historical_backtester.py:506-508 | The P/L of the winners plus that of the losers is the total P/L. |
| HistoricalBacktester.Mean | pain_gain_bot/backtest/historical_backtester.py:518-519 | The average times the count is the total, and it has the total's sign. |
| HistoricalBacktester.Percent | pain_gain_bot/backtest/historical_backtester.py:517 | p·base = x·100; a part of the base gives 0..100. |
| HistoricalBacktester.WinRate | pain_gain_bot/backtest/historical_backtester.py:514 | The win rate is 100·winners/total and lies in 0..100. |
| HistoricalBacktester.CalculateStatistics | pain_gain_bot/backtest/historical_backtester.py:491-521 | With no trades every figure is zero and the final balance is the balance. Otherwise the counts are those of the winners and losers, the total P/L is the sum, the win rate is `WinRate`, the return is the percentage of the initial balance, and the average win and loss are the means of the winners' and losers' P/L. |
| HistoricalBacktester.ReturnIsPercentOfInitial | pain_gain_bot/backtest/historical_backtester.py:517 | The return times the initial balance is 100 times the total P/L. |
| HistoricalBacktester.SumOfWins | pain_gain_bot/backtest/historical_backtester.py:518 | Positive trades sum to a non-negative total. |
| HistoricalBacktester.SumOfLosses | pain_gain_bot/backtest/historical_backtester.py:519 | Non-positive trades sum to a non-positive total. |
| HistoricalReplay.BookedAppend | pain_gain_bot/backtest/historical_backtester.py:437-447 | Booking a trade whose balance after is the running balance keeps the ledger consistent. |
| HistoricalReplay.BookedEach | pain_gain_bot/backtest/historical_backtester.py:437-447 | Every trade's balance after equals the initial balance plus the P/L of the trades up to and including it. |
| HistoricalReplay.Undue | pain_gain_bot/backtest/historical_backtester.py:431-448 | The positions kept are those whose hold time has not passed, in order; `SettleMembers` proves that every such position is kept. |
| HistoricalReplay.DueOnes | pain_gain_bot/backtest/historical_backtester.py:431-448 | The positions closed are those whose elapsed minutes are at least their hold minutes, in order; `SettleMembers` proves that every such position is closed. |
| HistoricalReplay.SettleSplits | pain_gain_bot/backtest/historical_backtester.py:431-448 | Each position is either kept or closed: the two counts add up. |
| HistoricalReplay.SettleMembers | pain_gain_bot/backtest/historical_backtester.py:431-448 | A position is kept exactly when it is held and not due, and closed exactly when it is held and due. |
| HistoricalReplay.SettlePartition | pain_gain_bot/backtest/historical_backtester.py:431-448 | Kept and closed positions together are, as a multiset, exactly the held ones. |
| HistoricalReplay.SettleConcat | pain_gain_bot/backtest/historical_backtester.py:431-448 | Both filters distribute over concatenation, so they keep the list order. |
| HistoricalReplay.IdleTicks | pain_gain_bot/backtest/historical_backtester.py:393-398 | Once a tick is past the end date, further ticks neither change the held positions nor close any. |
| HistoricalReplay.Conserved | pain_gain_bot/backtest/historical_backtester.py:393-448 | If each tick keeps and closes together exactly what was held plus what it opens, so does any number of ticks. |
| HistoricalReplay.ClosedAsEntries | pain_gain_bot/backtest/historical_backtester.py:436-447 | The trades recorded as closing a list of positions carry exactly those positions, in order. |
| HistoricalReplay.FreshPositionStays | pain_gain_bot/backtest/historical_backtester.py:412-448 | A position opened at a tick, with a positive hold time, is not closed at that same tick. |
| HistoricalReplay.ClosedAsAppend | pain_gain_bot/backtest/historical_backtester.py:436-447 | Appending a trade with the exit time, reason and P/L extends the closed-as record by its position. |
| HistoricalReplay.Replay.constructor | pain_gain_bot/backtest/historical_backtester.py:21-40 | The replay starts at the initial balance with no positions or trades. The signal and exit functions are the strict cascade and the simulated exit over the cache. |
| HistoricalReplay.Replay.Opening | pain_gain_bot/backtest/historical_backtester.py:412-425 | A tick opens one position exactly when the cascade signals. It has the backtest's symbol, the signal's action and price, the tick time, the lot size and the hold minutes. |
| HistoricalReplay.Replay.OpenedAtMembers | pain_gain_bot/backtest/historical_backtester.py:397-425 | A position is opened by the ticks from `first` exactly when its entry time is a tick time in range, not past the end date, and the cascade opens exactly it there. |
| HistoricalReplay.Replay.RunOpenedMembers | pain_gain_bot/backtest/historical_backtester.py:393-425 | The run opens a position exactly at the 5-minute marks from the start date's midnight to the end date's midnight at which the cascade signals. |
| HistoricalReplay.Replay.TickConserves | pain_gain_bot/backtest/historical_backtester.py:410-448 | One tick keeps and closes together exactly what was held plus what it opens. |
| HistoricalReplay.Replay.RunAccounted | pain_gain_bot/backtest/historical_backtester.py:393-474 | The positions closed during the days plus those still held at the end are, as a multiset, exactly the positions the run opens. |
| HistoricalReplay.Replay.TicksIdle | pain_gain_bot/backtest/historical_backtester.py:393-398 | Past the end date a tick keeps what is held and closes nothing. |
| HistoricalReplay.Replay.Close | pain_gain_bot/backtest/historical_backtester.py:436-447 | The balance grows by the P/L, and one trade with the running balance is appended. |
| HistoricalReplay.Replay.SettleDue | pain_gain_bot/backtest/historical_backtester.py:431-448 | It closes exactly the due positions, in order, with "Hold period complete", and keeps the rest. |
| HistoricalReplay.Replay.OpenOnSignal | pain_gain_bot/backtest/historical_backtester.py:410-425 | It appends the tick's opening, if any, and nothing else changes. |
| HistoricalReplay.Replay.Tick | pain_gain_bot/backtest/historical_backtester.py:399-448 | One 5-minute tick opens first, then closes exactly the positions due, and every trade time stays within the backtest period. |
| HistoricalReplay.HoldExitsGrow | pain_gain_bot/backtest/historical_backtester.py:431-448 | Hold-period exits appended after hold-period exits keep every trade from the run's start a hold exit booked with its simulated P/L. |
| HistoricalReplay.Replay.TickFolds | pain_gain_bot/backtest/historical_backtester.py:399-448 | The held positions and the new trades' entries after a tick inside the period are the tick fold one step further. |
| HistoricalReplay.Replay.TickNext | pain_gain_bot/backtest/historical_backtester.py:399-448 | Tick number j of the run advances the tick fold by one step. |
| HistoricalReplay.Replay.IdleReplay | pain_gain_bot/backtest/historical_backtester.py:393-398 | Ticks after the end date leave the replay where the fold already is. |
| HistoricalReplay.Replay.RunHour | pain_gain_bot/backtest/historical_backtester.py:397-448 | Twelve 5-minute ticks: the held positions and the trades' entries become those of the tick fold `Held`/`Closed` over twelve more ticks, and ticks after the end date change nothing. |
| HistoricalReplay.Replay.RunDay | pain_gain_bot/backtest/historical_backtester.py:393-457 | Twenty-four hours of ticks: the state advances the tick fold by 288 ticks, with the tick schedule kept contiguous. |
| HistoricalReplay.Replay.RunDays | pain_gain_bot/backtest/historical_backtester.py:393-457 | The day loop leaves the replay equal to the tick fold over every day from the start date to the end date. |
| HistoricalReplay.Replay.CloseRemaining | pain_gain_bot/backtest/historical_backtester.py:459-474 | Every leftover position is closed at the end date with "Backtest end", and the list ends empty. |
| HistoricalReplay.Replay.RunExits | pain_gain_bot/backtest/historical_backtester.py:393-474 | The day loop's hold exits followed by the leftovers closed at the end date make up `PeriodBooked`: hold exits with their simulated P/L first, then "Backtest end" exits, together every position the run opens. |
| HistoricalReplay.Replay.RunPeriod | pain_gain_bot/backtest/historical_backtester.py:393-474 | The days then the closing of the leftovers: the positions end empty and the new trades are `PeriodBooked`, each one timed within the period. |
| HistoricalReplay.Replay.RunBacktest | pain_gain_bot/backtest/historical_backtester.py:357-489 | A failed connect or load changes nothing. Otherwise all positions end closed and the new trades are `PeriodBooked`. First come the trades the fold closes during the days, each with "Hold period complete" and P/L `exitPnl` of its position at its exit time. Then come the positions still held at the end, closed at the end date with "Backtest end". As a multiset they are exactly the positions the cascade opens (`RunOpened`). The statistics are those of the trades, and the final balance is the initial balance plus the total P/L. |
| RelaxedBacktester.RelaxedCascade | pain_gain_bot/backtest/relaxed_backtester.py:18-188 | A signal comes out exactly when the data is present and the M30 or the M15 snake matches the bot's side. Its action is always the bot's side. The other steps are only recorded. |
| RelaxedBacktester.CheckSignalAtTime | pain_gain_bot/backtest/relaxed_backtester.py:18-188 | A signal comes out exactly when the frames at `t` are present and the M30 or the M15 snake matches the bot's side. It carries the bot's side, the symbol and the time `t`. |
| RelaxedBacktester.StrictImpliesRelaxed | pain_gain_bot/backtest/relaxed_backtester.py:22-184 | Whenever the strict check signals, the relaxed one signals with the same action and price, and every step is confirmed. |
| Signals.DailyAnalysis | pain_gain_bot/strategy/signals.py:23-57 | The result is None exactly with fewer than 2 D1 bars. Otherwise UP maps to BUY and DOWN to SELL, and the level is the wick midpoint. |
| Signals.CheckH4Confirmation | pain_gain_bot/strategy/signals.py:79-108 | It passes exactly when H4 and M15 data exist and `H4Coverage` holds on the last 10 H4 and last 50 M15 bars; a reported fib level is the one `H4Coverage` gives. |
| Signals.CheckH1Structure | pain_gain_bot/strategy/signals.py:110-145 | It passes exactly when H1 data exist and the shingle of the last 100 H1 bars confirms the bias against the last close. |
| Signals.CheckM30M15Filter | pain_gain_bot/strategy/signals.py:147-195 | It passes exactly when both the M30 and the M15 snake colours confirm the bias. |
| Signals.CheckM5M1Entry | pain_gain_bot/strategy/signals.py:197-287 | It passes exactly when M5 and M1 data exist, the M1 close is beyond the fast EMA with a matching colour, an M1 break-retest with lookback 5 is detected, and the M5 close is within 0.001 of the M5 purple line (`NearPurpleLine`). A price is returned exactly when it passes, and it is the last M1 close. |
| Signals.RunSteps | pain_gain_bot/strategy/signals.py:350-398 | Each recorded step result is the result of its step function: H4, H1, the M30/M15 snake filter and the M5/M1 entry with its price. |
| Signals.SignalIffAllConfirmed | pain_gain_bot/strategy/signals.py:289-403 | A signal has an action exactly when the last step passed. It then has every step confirmed, its action is the bias and its price is the last M1 close. Without an action there is no price. |
| Signals.Generate | pain_gain_bot/strategy/signals.py:289-403 | The signal has the symbol and `now`. It has an action exactly when the refreshed bias exists, a tick exists, the daily stop does not fire and every cascade step passes, and that action is the refreshed bias. |
| Signals.ConfirmationsInStepOrder | pain_gain_bot/strategy/signals.py:329-398 | Confirmations are recorded in stage order, and nothing is recorded after the first failure. |
| Signals.StopCheckSeesCascadeBias | pain_gain_bot/strategy/signals.py:315-348 | Once a bias survives step 1, the engine holds that bias and a wick level. |
| Signals.GenerateKeepsConsistent | pain_gain_bot/strategy/signals.py:289-403 | A cached bias stays paired with its level. |
| Signals.RefreshSchedule | pain_gain_bot/strategy/signals.py:315-322 | The bias is re-read exactly when it is unset, when no time is recorded or when more than 3600 s have passed. A due refresh stamps the time, and otherwise the cache is untouched. |
| Signals.DayStopLatches | pain_gain_bot/strategy/signals.py:59-77 | `day_stopped` stays set until a successful refresh. It is set exactly by a call that reports the stop, and such a call carries no action. |
| Signals.FailedRefreshKeepsExpiredBias | pain_gain_bot/strategy/signals.py:315-327 | A failed refresh of an expired bias stamps the time, so the old bias is used for the next hour. |
| Signals.SignalEngine.constructor | pain_gain_bot/strategy/signals.py:17-21 | The engine starts with no bias, no level, no stop and no analysis time. |
| Signals.SignalEngine.AnalyzeDailyBias | pain_gain_bot/strategy/signals.py:23-57 | With fewer than 2 bars it returns (None, None) and leaves the state alone. Otherwise it stores the bias and level and clears the day stop. |
| Signals.SignalEngine.CheckDailyStopCondition | pain_gain_bot/strategy/signals.py:59-77 | It is false without a level or bias. Otherwise it is true exactly when the wick is filled on the bias side, and it latches the stop. |
| Signals.SignalEngine.RefreshBias | pain_gain_bot/strategy/signals.py:315-322 | It re-analyses only when a refresh is due. |
| Signals.SignalEngine.GenerateSignal | pain_gain_bot/strategy/signals.py:289-403 | The method's signal and new state are those of `Generate`, and the bias and level stay paired. |
| Signals.ConfirmEntry | pain_gain_bot/strategy/signals.py:350-398 | It records the step results and sets the action and price only when every step passed. |
| Orders.M5Position | pain_gain_bot/strategy/order_manager.py:74-80 | The M5 price and line exist exactly when M5 bars exist. |
| Orders.PurpleLineGate | pain_gain_bot/strategy/order_manager.py:66-95 | Without M5 data the gate refuses. Otherwise it passes exactly when PAIN's price is below the line or GAIN's is above it. It rejects price ≥ line for PAIN and price ≤ line for GAIN. |
| Orders.CooldownInSeconds | pain_gain_bot/strategy/order_manager.py:49-57 | The minute comparison of the cooldown is the same as comparing seconds against 60·minutes. |
| Orders.CanOpen | pain_gain_bot/strategy/order_manager.py:32-64 | The cap is checked first, then the cooldown of hold + 5·wait minutes, then the purple line. The first failure is reported, and otherwise the result is OK. |
| Orders.Execute | pain_gain_bot/strategy/order_manager.py:97-177 | An order is placed exactly when the gate passes and the broker fills. Then the entry time is `now` and the counter grows by 1. The ticket is tracked with the symbol, side, volume, fill price, `now`, SL, TP and hold_until = now + 60 × hold minutes. The ledger gains exactly one OPEN record with those values and the bot's name. Otherwise nothing changes. |
| Orders.NoReentryDuringCooldown | pain_gain_bot/strategy/order_manager.py:45-57 | Right after a fill, the symbol is refused (cap or waiting) until the cooldown has passed. |
| Orders.CheckExit | pain_gain_bot/strategy/order_manager.py:179-223 | An untracked ticket is not closed, and neither is a ticket before hold_until. After hold_until, without M5 data the answer is no exit; otherwise it is "Stop Loss" when a SELL's price is above the line or a BUY's is below it, and "Take Profit" exactly in the remaining case. |
| Orders.NoStopLossWithoutS | pain_gain_bot/strategy/order_manager.py:282 | A reason without the letter S cannot contain "Stop Loss". |
| Orders.OnlyStopLossReasonResets | pain_gain_bot/strategy/order_manager.py:212-219 | Of the two exit reasons, only the stop-loss one contains "Stop Loss". |
| Orders.LookupExitPrice | pain_gain_bot/strategy/order_manager.py:244-249 | The exit price is the bid for SELL and the ask for BUY. A SELL with no tick fails, which is the source's exception path. |
| Orders.EstimatePnl | pain_gain_bot/strategy/order_manager.py:260-268 | P/L is 0 without an exit or entry price, and otherwise it has the sign of the favourable move. |
| Orders.PnlOfMove | pain_gain_bot/strategy/order_manager.py:262-266 | A positive volume gives a P/L that is positive exactly when the move is. |
| Orders.Close | pain_gain_bot/strategy/order_manager.py:225-291 | A failed broker close or price lookup changes nothing. A success on a tracked ticket removes exactly that ticket and zeroes the counter only when the reason contains "Stop Loss". The ledger becomes `CloseTrade` with the looked-up exit price, `now`, the reason, the estimated P/L and the balance (0.0 when unknown). |
| Orders.ToClose | pain_gain_bot/strategy/order_manager.py:301-307 | Only tracked tickets whose hold has passed are chosen; `ToCloseMembers` proves that the chosen pairs are exactly the snapshot tickets whose exit check says close, with its reason. |
| Orders.ToCloseMembers | pain_gain_bot/strategy/order_manager.py:301-307 | A (ticket, reason) pair is chosen exactly when the ticket is in the snapshot, its exit check says close, and the reason is that check's reason. |
| Orders.CloseAll | pain_gain_bot/strategy/order_manager.py:311-314 | Closing the chosen tickets never adds a tracked ticket and never changes the ledger's length. |
| Orders.ExecuteKeepsInvariants | pain_gain_bot/strategy/order_manager.py:97-177 | Each tracked ticket keeps an OPEN record in the ledger, and the counters stay within the cap. |
| Orders.CloseKeepsInvariants | pain_gain_bot/strategy/order_manager.py:225-291 | The same two invariants hold across a close. |
| Orders.CloseAllKeepsInvariants | pain_gain_bot/strategy/order_manager.py:293-314 | The same two invariants hold across the close pass. |
| Orders.CloseAllSparesOthers | pain_gain_bot/strategy/order_manager.py:311-314 | A ticket that is not chosen stays tracked, unchanged. |
| Orders.CloseAllClosesChosen | pain_gain_bot/strategy/order_manager.py:311-314 | A chosen tracked ticket whose broker close and price lookup succeed is no longer tracked. |
| Orders.HoldingPositionsNotChosen | pain_gain_bot/strategy/order_manager.py:301-307 | A ticket still within its hold is never chosen. |
| Orders.OrderManager.constructor | pain_gain_bot/strategy/order_manager.py:18-30 | All three dictionaries start empty. |
| Orders.OrderManager.CheckPurpleLinePosition | pain_gain_bot/strategy/order_manager.py:66-95 | It returns exactly `PurpleLineGate`. |
| Orders.OrderManager.CanOpenNewOrder | pain_gain_bot/strategy/order_manager.py:32-64 | It returns exactly `CanOpen` on the current dictionaries. |
| Orders.OrderManager.ExecuteOrder | pain_gain_bot/strategy/order_manager.py:97-177 | The result, dictionaries and ledger become those of `Execute`. |
| Orders.OrderManager.CheckExitConditions | pain_gain_bot/strategy/order_manager.py:179-223 | It returns exactly `CheckExit`. |
| Orders.OrderManager.ClosePosition | pain_gain_bot/strategy/order_manager.py:225-291 | The success flag, dictionaries and ledger become those of `Close`. |
| Orders.OrderManager.ManagePositions | pain_gain_bot/strategy/order_manager.py:293-314 | It decides on a snapshot of the tickets first (`ToClose`), then closes the chosen ones (`CloseAll`). |
| Orders.OrderManager.CollectExits | pain_gain_bot/strategy/order_manager.py:301-307 | The collect loop returns exactly `ToClose`. |
| Orders.OrderManager.CloseEach | pain_gain_bot/strategy/order_manager.py:311-314 | The close loop leaves exactly `CloseAll`'s state. |
| Orders.OrderManager.ResetDailyCounters | pain_gain_bot/strategy/order_manager.py:316-319 | Only `consecutive_orders` is cleared. |
| Risk.Initialized | pain_gain_bot/strategy/risk_manager.py:24-34 | With account info it sets the start balance and stamps today. Without it nothing changes. |
| Risk.ResetDaily | pain_gain_bot/strategy/risk_manager.py:43-56 | Profit, loss and trades are zeroed and the halt is cleared with its reason. Today is stamped, and the start balance is re-read when the account answers. |
| Risk.DailyReset | pain_gain_bot/strategy/risk_manager.py:36-41 | It resets exactly when no reset is recorded or today is later than the recorded date. |
| Risk.UpdatePnl | pain_gain_bot/strategy/risk_manager.py:58-70 | pnl = balance − start. If pnl > 0 it sets the profit and keeps the loss; otherwise it sets the loss to abs(pnl) and keeps the profit. Without account info nothing changes. |
| Risk.CheckLimits | pain_gain_bot/strategy/risk_manager.py:72-104 | After the P/L update, loss ≥ stop halts. Otherwise profit ≥ target halts. Otherwise an earlier halt refuses with its stored reason. Otherwise the result is OK. |
| Risk.InSession | pain_gain_bot/strategy/risk_manager.py:171-190 | If start > end the session is now ≥ start or now ≤ end. Otherwise it is start ≤ now ≤ end, inclusive. |
| Risk.DefaultSessionExamples | pain_gain_bot/strategy/risk_manager.py:182-187 | With the default 19:00–06:00 window, 23:00, 06:00 and 19:00 are in the session and 12:00 is not. |
| Risk.RoundHalfEven | pain_gain_bot/strategy/risk_manager.py:128 | Python's `round` gives the nearest integer, with halves going to the even one. |
| Risk.ClampLot | pain_gain_bot/strategy/risk_manager.py:119-122 | The lot is at least min_lot, at most max_lot when min ≤ max, and unchanged when already in range. |
| Risk.PositionSize | pain_gain_bot/strategy/risk_manager.py:106-130 | Without symbol info the lot is the clamped lot. With it, the lot is an integer multiple of the volume step within half a step of the clamped lot. |
| Risk.Validate | pain_gain_bot/strategy/risk_manager.py:132-169 | The checks run in order: daily limits, then session, then volume below min or above max, then spread. The first failure is returned, and a failed symbol lookup is an error. |
| Risk.TradeRecorded | pain_gain_bot/strategy/risk_manager.py:213-216 | `trades_today` grows by exactly 1, and nothing else changes. |
| Risk.RiskStatusOf | pain_gain_bot/strategy/risk_manager.py:192-237 | The remaining loss and profit are max(0, limit − used). The daily return is 0 for a non-positive start balance and otherwise 100·pnl/start. The utilisation is 0 for a non-positive stop and otherwise 100·loss/stop. The session flag is `InSession`. |
| Risk.ResetThenUpdate | pain_gain_bot/strategy/risk_manager.py:43-70 | After a reset at balance b0, an update at b records exactly b − b0 as profit or loss. |
| Risk.HaltLatches | pain_gain_bot/strategy/risk_manager.py:72-104 | A halted state stays halted under any call but a reset, and the limit and validate calls refuse. |
| Risk.HaltLatchesOverRun | pain_gain_bot/strategy/risk_manager.py:43-104 | The halt survives any sequence of calls without a reset. |
| Risk.FiguresStayNonNegative | pain_gain_bot/strategy/risk_manager.py:49-70 | Profit and loss stay ≥ 0 across any sequence of calls. |
| Risk.RiskManager.constructor | pain_gain_bot/strategy/risk_manager.py:15-22 | It starts with zero figures, no halt and no reset date. |
| Risk.RiskManager.Initialize | pain_gain_bot/strategy/risk_manager.py:24-34 | The new state is `Initialized`. |
| Risk.RiskManager.CheckDailyReset | pain_gain_bot/strategy/risk_manager.py:36-41 | The new state is `DailyReset`. |
| Risk.RiskManager.ResetDailyCounters | pain_gain_bot/strategy/risk_manager.py:43-56 | The new state is `ResetDaily`. |
| Risk.RiskManager.UpdateDailyPnl | pain_gain_bot/strategy/risk_manager.py:58-70 | The new state is `UpdatePnl`. |
| Risk.RiskManager.CheckDailyLimits | pain_gain_bot/strategy/risk_manager.py:72-104 | The answer and new state are those of `CheckLimits`. |
| Risk.RiskManager.ValidateTrade | pain_gain_bot/strategy/risk_manager.py:132-169 | The answer and new state are those of `Validate`. |
| Risk.RiskManager.RecordTrade | pain_gain_bot/strategy/risk_manager.py:213-216 | The new state is `TradeRecorded`. |
| Risk.RiskManager.GetRiskStatus | pain_gain_bot/strategy/risk_manager.py:218-237 | The status and new state are those of `RiskStatusOf`. |
| SimpleBacktest.FilterSignal | pain_gain_bot/backtest/backtester.py:141-159 | The action survives exactly when it is the bot's side, and nothing else is changed. |
| SimpleBacktest.RemoveFirst | pain_gain_bot/backtest/backtester.py:224 | Removing a held position leaves one element fewer. |
| SimpleBacktest.RemoveFirstMultiset | pain_gain_bot/backtest/backtester.py:224 | Exactly one copy of the removed position goes, and every other position keeps its count. |
| SimpleBacktest.RemoveFirstAfter | pain_gain_bot/backtest/backtester.py:224 | `list.remove` deletes exactly the first equal element. |
| SimpleBacktest.PeakIsHighest | pain_gain_bot/backtest/backtester.py:252-261 | The peak starts at the initial balance, is at least every balance, and is attained. |
| SimpleBacktest.DrawdownCoversEveryDrop | pain_gain_bot/backtest/backtester.py:252-261 | The maximum drawdown is ≥ 0 and at least every drop from an earlier peak. |
| SimpleBacktest.DrawdownIsAttained | pain_gain_bot/backtest/backtester.py:252-261 | A positive maximum drawdown is the drop at some point. |
| SimpleBacktest.MaxDrawdown | pain_gain_bot/backtest/backtester.py:252-261 | The drawdown loop returns the peak and the maximum drawdown of the equity curve. |
| SimpleBacktest.DrawdownPct | pain_gain_bot/backtest/backtester.py:262 | The percentage is 0 when peak ≤ 0, and otherwise it is 100·dd/peak, which is ≥ 0. |
| SimpleBacktest.SquaredDeviation | pain_gain_bot/backtest/backtester.py:264-271 | The sum of squared deviations is ≥ 0. |
| SimpleBacktest.SquaredDeviationZero | pain_gain_bot/backtest/backtester.py:264-271 | It is 0 exactly when every P/L equals the mean. |
| SimpleBacktest.FlatTotal | pain_gain_bot/backtest/backtester.py:264-271 | n equal P/Ls of v total n·v. |
| SimpleBacktest.FlatIffNoDeviation | pain_gain_bot/backtest/backtester.py:264-271 | The deviation is zero exactly when all P/Ls are equal. |
| SimpleBacktest.SharpeOf | pain_gain_bot/backtest/backtester.py:264-271 | The Sharpe value is 0 exactly with fewer than 2 trades or zero deviation. Otherwise the variance is positive and the mean is total/n. |
| SimpleBacktest.ExitStep | pain_gain_bot/backtest/backtester.py:190-195 | One step of the exit loop moves a due position to the closed list and keeps an undue one. |
| SimpleBacktest.ClosedWithAppend | pain_gain_bot/backtest/backtester.py:213-223 | Appending a trade with the exit time, reason and drawn P/L extends the closed-with record. |
| SimpleBacktest.ClosedWithEntries | pain_gain_bot/backtest/backtester.py:213-223 | The trades recorded as closing a list of positions carry exactly those positions, in order. |
| SimpleBacktest.Balances | pain_gain_bot/backtest/backtester.py:255-260 | One balance per equity point, in order. |
| SimpleBacktest.Backtester.constructor | pain_gain_bot/backtest/backtester.py:20-46 | It starts at the initial balance with no positions, trades or equity points. |
| SimpleBacktest.Backtester.ExecuteBacktestTrade | pain_gain_bot/backtest/backtester.py:161-184 | It appends exactly one position with the signal's side, price, time, lot and hold, and nothing else changes. |
| SimpleBacktest.Backtester.ClosePosition | pain_gain_bot/backtest/backtester.py:197-224 | For a held position, the balance grows by the drawn P/L and one trade with the new balance is appended. The first equal position is removed. |
| SimpleBacktest.Backtester.CheckPositionExits | pain_gain_bot/backtest/backtester.py:186-195 | It closes exactly the positions held ≥ hold minutes, in order, and keeps the others. |
| SimpleBacktest.Backtester.CloseDue | pain_gain_bot/backtest/backtester.py:194-195 | Closing one due position keeps the exit loop's invariant. |
| SimpleBacktest.Backtester.RecordEquity | pain_gain_bot/backtest/backtester.py:111-115 | It appends one point (day, balance, balance) and nothing else changes. |
| SimpleBacktest.Backtester.Opening | pain_gain_bot/backtest/backtester.py:83-100 | A check opens one position exactly when the signal has the bot's side and a price, with the symbol, side, price, check time, lot and hold. |
| SimpleBacktest.Backtester.CheckConserves | pain_gain_bot/backtest/backtester.py:83-105 | One check keeps and closes together exactly what was held plus what it opens. |
| SimpleBacktest.Backtester.RunAccounted | pain_gain_bot/backtest/backtester.py:74-123 | The positions closed during the days plus those still held at the end are, as a multiset, exactly the positions the run opens. |
| SimpleBacktest.Backtester.Check | pain_gain_bot/backtest/backtester.py:83-105 | One 30-minute check opens the position `Opening` gives (a signal of the bot's side with a price), then keeps exactly the undue positions and appends trades for exactly the due ones, in order, with "Hold time reached". |
| SimpleBacktest.DrawnHoldExitsGrow | pain_gain_bot/backtest/backtester.py:186-195 | Hold-time exits appended after hold-time exits keep every trade of the days a "Hold time reached" exit with its drawn P/L. |
| SimpleBacktest.Backtester.CheckNext | pain_gain_bot/backtest/backtester.py:81-105 | Check number j of the run advances the check fold by one step. |
| SimpleBacktest.Backtester.CheckHour | pain_gain_bot/backtest/backtester.py:81-105 | The checks at minutes 0 and 30 of an hour advance the check fold by two steps. |
| SimpleBacktest.Backtester.RunDay | pain_gain_bot/backtest/backtester.py:74-118 | 48 checks advance the check fold by 48 steps, and exactly one equity point for the day is appended. |
| SimpleBacktest.Backtester.RunDays | pain_gain_bot/backtest/backtester.py:74-118 | The day loop leaves the run equal to the check fold over every day from the start date to the end date, with one equity point per day in date order. |
| SimpleBacktest.Backtester.CloseRemaining | pain_gain_bot/backtest/backtester.py:121-123 | Every leftover position is closed at the end date with "Backtest end", and earlier trades are untouched. |
| SimpleBacktest.Backtester.CloseLeftover | pain_gain_bot/backtest/backtester.py:121-123 | Closing the first leftover keeps the closing loop's invariant. |
| SimpleBacktest.Backtester.RunExits | pain_gain_bot/backtest/backtester.py:74-123 | The day loop's hold-time exits followed by the leftovers closed at the end date make up `PeriodBooked`. |
| SimpleBacktest.Backtester.RunBacktest | pain_gain_bot/backtest/backtester.py:48-139 | A failed connect returns nothing. Otherwise there is one equity point per day from start to end, all positions end closed, and the trades are `PeriodBooked`. First come the trades the check fold closes, each with "Hold time reached". Then come the positions still held at the end, closed at the end date with "Backtest end". Trade k has the drawn P/L `draw(k)`. As a multiset they are exactly the positions the signals open (`RunOpened`). The statistics are those of the trades, with the final balance being the initial balance plus the total P/L. Without trades the maximum drawdown, its percentage and the Sharpe figure are zero. With trades they are the curve's maximum drawdown, its percentage of the peak, and `SharpeOf` the trades. |
| SimpleBacktest.Backtester.Statistics | pain_gain_bot/backtest/backtester.py:228-288 | There is a division error exactly with trades and a zero initial balance. An empty trade list gives zero drawdown and Sharpe. Otherwise it gives the base figures, the drawdown and its percentage, and the Sharpe figures. |
| TradeLedger.OpenRecord | pain_gain_bot/utils/trade_exporter.py:31-69 | The new record is OPEN with no exit fields. sl and tp default to 0.0, bot_type to "UNKNOWN" and entry_time to now. |
| TradeLedger.FirstOpenFrom | pain_gain_bot/utils/trade_exporter.py:87-91 | It finds the first OPEN record with the ticket, or reports that there is none. |
| TradeLedger.CloseRecord | pain_gain_bot/utils/trade_exporter.py:98-104 | The record becomes CLOSED with the exit data, and its identity fields are kept. exit_reason defaults to "Unknown" and pnl to 0.0. |
| TradeLedger.CloseTrade | pain_gain_bot/utils/trade_exporter.py:71-110 | The length is unchanged. An unknown or already-closed ticket changes nothing, and otherwise only the first OPEN match changes. |
| TradeLedger.WithStatus | pain_gain_bot/utils/trade_exporter.py:214 | The filter keeps only records of the given status, in order; `WithStatusMembers` proves that every such record is kept. |
| TradeLedger.WithStatusMembers | pain_gain_bot/utils/trade_exporter.py:214 | A record is kept exactly when it is in the ledger with the given status. |
| TradeLedger.WinsAndLossesPartition | pain_gain_bot/utils/trade_exporter.py:227-228 | Winners (pnl > 0) plus losers (pnl ≤ 0) are all closed trades. |
| TradeLedger.WinsAndLossesMembers | pain_gain_bot/utils/trade_exporter.py:227-228 | A record is a winner exactly when its pnl > 0, and a loser exactly when its pnl ≤ 0. |
| TradeLedger.WinsAndLossesPnl | pain_gain_bot/utils/trade_exporter.py:227-229 | The winners' P/L plus the losers' P/L is the total; a non-empty set of winners sums to > 0 and the losers sum to ≤ 0. |
| TradeLedger.AveragePnl | pain_gain_bot/utils/trade_exporter.py:238-239 | The average is 0 for no records and otherwise times the count equals the P/L sum. |
| TradeLedger.BestPnl | pain_gain_bot/utils/trade_exporter.py:240 | This is the largest P/L, and it is attained. |
| TradeLedger.WorstPnl | pain_gain_bot/utils/trade_exporter.py:241 | This is the smallest P/L, and it is attained. |
| TradeLedger.Percent | pain_gain_bot/utils/trade_exporter.py:236 | p·whole = part·100. |
| TradeLedger.Statistics | pain_gain_bot/utils/trade_exporter.py:207-242 | Only CLOSED records count. The win and loss counts are those of the records with pnl > 0 and pnl ≤ 0, the total P/L is their sum, the averages are `AveragePnl` of the winners and of the losers, open_trades counts the OPEN records, the win rate is their percentage, and best and worst bound every P/L and are attained. With no closed trade the figures are zero. |
| TradeLedger.CloseMovesOneRecord | pain_gain_bot/utils/trade_exporter.py:87-104 | A successful close raises the CLOSED count by one and lowers the OPEN count by one. |
| TradeLedger.SecondCloseIsNoOp | pain_gain_bot/utils/trade_exporter.py:93-96 | Closing an already-closed ticket leaves the ledger unchanged. |
| TradeLedger.ExportScenario | test_trade_export.py:12-33 | Opening and then closing ticket 999888777 leaves one CLOSED trade with pnl 1.74, one win and a total of 1.74. |
| TradeLedger.Ledger.constructor | pain_gain_bot/utils/trade_exporter.py:19-29 | The ledger starts empty. |
| TradeLedger.Ledger.RecordTradeOpen | pain_gain_bot/utils/trade_exporter.py:31-69 | It appends exactly one OPEN record. |
| TradeLedger.Ledger.RecordTradeClose | pain_gain_bot/utils/trade_exporter.py:71-110 | The search loop leaves exactly `CloseTrade`. |
| TradeablePeriods.GoodFor | find_tradeable_periods.py:57-70 | SELL days are good for PainBot and BUY days for GainBot. |
| TradeablePeriods.WindowBias | find_tradeable_periods.py:48-53 | The window's bias is never NONE. It is UP exactly when bar i−2 has the larger upper wick. |
| TradeablePeriods.SideDays | find_tradeable_periods.py:48-70 | The list holds only days of its side, at most n−5 of them. |
| TradeablePeriods.EveryDayOnOneList | find_tradeable_periods.py:48-70 | Every index from 5 on lands on exactly one of the two lists. |
| TradeablePeriods.NeutralIsWarmup | find_tradeable_periods.py:73-75 | The neutral count is min(n, 5), the warm-up days. |
| TradeablePeriods.SideDaysAscending | find_tradeable_periods.py:48-70 | On chronological bars each list is in date order. |
| TradeablePeriods.ClassifyDays | find_tradeable_periods.py:44-70 | The classification loop builds exactly the two side lists. |
| TradeablePeriods.Runs | find_tradeable_periods.py:84-99 | The runs are non-empty and concatenate back to the list. |
| TradeablePeriods.RunsSnoc | find_tradeable_periods.py:87-96 | A new day joins the current run when within 3 days of the last one, and otherwise starts a new run. |
| TradeablePeriods.RunsAreMaximal | find_tradeable_periods.py:87-96 | Within a run consecutive days differ by ≤ 3, and a larger gap separates runs. |
| TradeablePeriods.Long | find_tradeable_periods.py:94-99 | Only runs of at least 3 days are kept. |
| TradeablePeriods.LongAppend | find_tradeable_periods.py:94-99 | A closed run is kept exactly when it has ≥ 3 days. |
| TradeablePeriods.LongMembers | find_tradeable_periods.py:94-99 | A run is kept exactly when it has at least 3 days. |
| TradeablePeriods.Streaks | find_tradeable_periods.py:84-99 | The streaks are exactly the runs of the list with at least 3 days. |
| TradeablePeriods.TakeDate | find_tradeable_periods.py:87-96 | One loop step keeps the current streak and the kept streaks in step with the runs. |
| TradeablePeriods.GroupStreaks | find_tradeable_periods.py:84-99 | The grouping loop returns exactly the long runs. |
| TradeablePeriods.Insert | find_tradeable_periods.py:102 | Inserting grows the list by one. |
| TradeablePeriods.InsertIsPermutation | find_tradeable_periods.py:102 | Inserting adds exactly the inserted streak. |
| TradeablePeriods.InsertKeepsOrder | find_tradeable_periods.py:102 | Inserting keeps the list longest-first. |
| TradeablePeriods.SortByLength | find_tradeable_periods.py:102 | Sorting keeps the length of the list. |
| TradeablePeriods.SortIsPermutation | find_tradeable_periods.py:102 | The sort gives a longest-first permutation. |
| TradeablePeriods.OfLengthShorter | find_tradeable_periods.py:102 | No streak of length n is among shorter ones. |
| TradeablePeriods.InsertIsStable | find_tradeable_periods.py:102 | Inserting places the streak after those of equal length. |
| TradeablePeriods.InsertBehindIsStable | find_tradeable_periods.py:102 | The same holds when the streak goes behind the head. |
| TradeablePeriods.SortIsStable | find_tradeable_periods.py:102 | Streaks of each length keep their original order, so the sort is stable. |
| TradeablePeriods.InsertLast | find_tradeable_periods.py:102 | The in-place insertion step on the array gives exactly `Insert`. |
| TradeablePeriods.SortStreaks | find_tradeable_periods.py:102 | The in-place sort leaves the array equal to `SortByLength`. |
| TradeablePeriods.TopFive | find_tradeable_periods.py:104 | It reports at most five streaks, as a prefix, and all of them when there are at most five. |
| TradeablePeriods.Recommended | find_tradeable_periods.py:102-104 | With at most five streaks all of them are reported, as a multiset. With more, exactly five are reported. |
| TradeablePeriods.RecommendedShape | find_tradeable_periods.py:84-104 | At most 5 streaks are reported, longest first. Each has ≥ 3 days, gaps ≤ 3, and is a run of the list. |
| TradeablePeriods.Recommend | find_tradeable_periods.py:78-104 | An empty list reports nothing. Otherwise it groups, sorts in place and takes five, which gives `Recommended`. |
| TradeablePeriods.AnalyzeBiasHistory | find_tradeable_periods.py:23-75 | A failed initialise and an empty download end early. Otherwise it gives the two lists, the neutral count and both recommendations. |

## Left out
- Risk.PositionSize: a symbol whose volume step is not positive is excluded by its precondition. A zero step raises `ZeroDivisionError` at pain_gain_bot/strategy/risk_manager.py:128, and a negative step would be rounded like a positive one.

- The MetaTrader 5 adapter, logging, alerts, console output and the CSV/JSON writers (`export_results`, `export_to_csv`, `export_to_json`, `print_summary`) are not modelled. Broker answers are parameters.
- `load_historical_data` is not modelled: the downloaded cache is a parameter and its success is the `loaded` flag. M1 is absent from the cache, as the source's timeframe table leaves it out.
- `get_status`, `get_daily_stats` (as its own call; its fields are part of `RiskStatusOf`), and the verbose and check counters of the backtests are not modelled.
- `calculate_squid` is modelled only as a colour label; the cascades compute nothing with it, matching the source, which never reads it.
- `IndicatorCache` is not modelled: it depends on wall-clock expiry and the core never uses it.
- Exceptions are modelled as the None/False outcomes their handlers return. Where an exception depends on the data (a SELL close with no tick), it is an explicit failure case.
- Floating point is not modelled: prices are exact reals. Python's `round` is modelled as round-half-even on exact reals.
- SimpleBacktest.SharpeOf: the square root is not taken. The ratio is reported as its mean and variance, and the zero cases agree with the source.
- SimpleBacktest.Backtester.ClosePosition: the random draw is the parameter `draw`, indexed by trade number.
- SimpleBacktest.Backtester.ClosePosition: closing a position that is not held is excluded by its precondition. There `positions.remove` would raise `ValueError` after the trade is booked. Every caller closes a position taken from the held list.
- SimpleBacktest.RemoveFirst: an absent element is excluded by its precondition, since `list.remove` raises `ValueError` for it.
- SimpleBacktest.Backtester.RunBacktest: `_get_historical_signal`'s call into the live engine is the parameter `signalAt`. The method requires that a signal with an action carries a price, as the live engine always does.
- SimpleBacktest.Backtester.RecordEquity: `unrealized_pnl` is always 0 in the source, so equity equals balance.
- Orders.OrderManager.ManagePositions: the dictionary's iteration order is not modelled. The ticket snapshot is a parameter listing exactly the tracked tickets.
- Orders.Execute: `datetime.now()` is read once per call, as `now`, although the source reads it again for the comment and the record.
- Risk.RiskStatusOf: the account is read once per call, although the source reads it twice.
- Signals.SignalEngine.GenerateSignal: the timestamp and `last_analysis_time` are the same `now`.
- TradeLedger.Statistics: the keys the source leaves out when nothing is closed are `None`.
- TradeablePeriods.AnalyzeBiasHistory: `mt5.shutdown` and the printing are not modelled, and dates are day numbers rather than formatted strings.
- TradeablePeriods.InsertKeepsOrder: it states only that the order is kept; the bounds on the inserted length are a separate lemma (`InsertBounded`).
- Concurrency between the two bots sharing one risk manager is not modelled.
