# tradebook backtesting core in Dafny

tradebook replays a series of price bars (OHLCV candles) through a trading
strategy and reports how the strategy would have done. This project models the
core of that replay and proves properties about it:

- **Account** (`accounts.dfy`). The account has a cash balance, an ordered list
  of open positions and a counter that hands out position IDs starting at 1.
  - Opening a trade turns a signal into a position. BUY makes a long, SELL makes
    a short, and any other action leaves the direction empty. Each position gets
    the next ID.
  - On every bar, each open position is checked against its stop-loss and then
    against its take-profit. Both checks are independent. A bar that reaches
    both levels closes the position twice: both PnLs reach the balance, but only
    the take-profit trade is reported. The model keeps this behaviour as written
    (`DoubleCloseQuirk`, `DoubleCloseExample`) and proves the exact balance
    equation that includes the discarded close (`ExitBalance`).
  - At the end of the backtest, every remaining position is closed at the last
    bar's close.
- **Indicators** (`indicators.dfy`). Four streaming indicators, each a small
  state machine: EMA, SMA over a bounded window, ATR (an EMA of true ranges with
  a warm-up counter) and ATRCandle (a counter of candle bodies that are too
  large relative to the ATR). Each class keeps a ghost history of its inputs,
  and its invariant ties its fields to pure functions of that history.
- **Strategy helpers** (`strategy.dfy`):
  - readiness of a group of indicators;
  - pip arithmetic for NAS100_USD;
  - risk-based position sizing;
  - long and short entry signals, whose size makes a stopped-out trade lose
    exactly the risk amount.
- **Engine** (`backtest.dfy`). One bar at a time, the engine does three things:
  1. it checks exits;
  2. it asks the strategy for signals, giving it the post-exit account;
  3. it opens every OPEN_TRADE signal.

  At the end it closes everything. The run is a pure function, `Simulate`, and
  `Engine.Run` is proved to compute it. Theorems about a whole run:
  - the reported trades carry exactly the IDs 1 .. n-1, each once;
  - the final balance is the initial balance plus the PnL of the reported trades
    and of the discarded double closes.
- **Statistics** (`stats.dfy`). Win and loss counts, gross profit and loss,
  total PnL, profit factor, averages, expected value, maximum drawdown along the
  running balance, and average trade duration. `Results.Calculate` computes
  them once and caches them.
- **Debug logging** (`logging.dfy`). The debug topic list (for example
  `atr, sma`) is parsed into a topic map: `""` enables nothing and `"all"`
  enables `"*"`. Topic loggers are enabled by that map, and an enabled logger
  prefixes `topic=<name>` to its arguments.

Common pieces: `prelude.dfy` holds Option, `math.Abs`, `math.Max` and Go's
truncating integer division. `types.dfy` holds bars and signals.

Time is an integer count of nanoseconds, as Go's `time.Duration` is, and
timestamps are Unix nanoseconds. Prices are `real`, and Go's `float64`
rounding is not modelled.

## Model

| member | source | states |
|---|---|---|
| Prelude.Abs | internal/strategy/indicators.go:119-122 | `math.Abs`: non-negative and equal to x or -x |
| Prelude.Max | internal/strategy/indicators.go:119-122 | `math.Max`: at least both arguments and equal to one of them |
| Prelude.TruncDiv | internal/backtest/stats.go:111 | Go integer division truncates toward zero: the quotient times the divisor is within one divisor of the dividend, on the dividend's side |
| Accounts.DirectionOf | internal/account/account.go:76-82 | LONG exactly for BUY, SHORT exactly for SELL, the empty direction for every other action |
| Accounts.PnLPercent | internal/account/account.go:174 | pct * entry == pnl * 100 whenever the entry price is non-zero |
| Accounts.PnL | internal/account/account.go:151-157 | with a positive size, a long profits iff it exits above entry, any other position iff it exits below; PnL is zero iff the exit equals the entry |
| Accounts.PnLOrder | internal/account/account.go:151-157 | with a positive size, a long's PnL grows with the exit price and any other position's PnL shrinks with it |
| Accounts.HitsStopLoss | internal/account/account.go:109-128 | the stop is reached iff the bar's adverse extreme (low for a long, high otherwise) is at least as bad for the position as its stop-loss price |
| Accounts.HitsTakeProfit | internal/account/account.go:116-134 | the target is reached iff the bar's favourable extreme (high for a long, low otherwise) is at least as good for the position as its take-profit price |
| Accounts.ReportedTrade | internal/account/account.go:101-146 | the trade CheckExits reports for a triggered position has the position's ID; it is the take-profit close whenever the target was hit, else the stop-loss close |
| Accounts.CloseAllTrades | internal/account/account.go:179-189 | one END_OF_BACKTEST trade per open position, in order, at the last bar's close and time |
| Accounts.SumPnLAppend | internal/account/account.go:159 | the summed PnL of two trade lists is the sum of their PnLs |
| Accounts.DoubleCloseQuirk | internal/account/account.go:109-144 | when one bar hits both stop and target, only the take-profit trade is reported, but the balance receives both PnLs; the difference is the stop-loss PnL |
| Accounts.DoubleCloseExample | internal/account/account.go:109-144 | a concrete long (entry 100, SL 90, TP 110) on a bar with high 120 and low 80 reports +10 while the balance moves by 0 |
| Accounts.ClosuresSplit | internal/account/account.go:109-144 | a position's closes on a bar are its discarded close followed by its reported trade |
| Accounts.ExitBalance | internal/account/account.go:101-159 | balance change of CheckExits = PnL of the reported trades + PnL of the discarded closes; with no double hits it equals the reported PnL |
| Accounts.ExitCount | internal/account/account.go:101-146 | every open position either stays open or yields exactly one reported trade |
| Accounts.RemainingExact | internal/account/account.go:138-145 | a position stays open iff it was open and neither level was reached |
| Accounts.ExitTradesExact | internal/account/account.go:137-144 | every reported trade is the reported trade of a triggered open position, and every triggered position's trade is reported |
| Accounts.ExitIds | internal/account/account.go:101-146 | the IDs of the open positions are split exactly between the remaining positions and the reported trades |
| Accounts.ExitKeepsOrder | internal/account/account.go:137-144 | CheckExits keeps the list order: both survivors and reported trades stay in increasing ID order |
| Accounts.QuietExits | internal/account/account.go:105-145 | on a bar that reaches no position's stop or target, nothing is reported or discarded and every position stays open |
| Accounts.ExitIdsBelow | internal/account/account.go:137-144 | every ID kept open or reported by CheckExits was already an open ID, so a bound on the open IDs bounds both lists |
| Accounts.IncreasingWithinBounds | internal/account/account.go:94-95 | a strictly increasing ID list within [lo, hi) has at most hi - lo entries |
| Accounts.OpenBelowNextId | internal/account/account.go:94-95 | in a well-formed account fewer positions are open than the next ID |
| Accounts.NewAccountWellFormed | internal/account/account.go:62-68 | a new account satisfies the ID invariant (IDs positive, increasing, below the counter) |
| Accounts.OpenStepWellFormed | internal/account/account.go:84-95 | opening preserves the ID invariant, and the new position gets the counter's value |
| Accounts.ExitStepWellFormed | internal/account/account.go:101-146 | checking exits preserves the ID invariant |
| Accounts.CloseAllStepWellFormed | internal/account/account.go:179-189 | closing everything preserves the ID invariant |
| Accounts.Account.constructor | internal/account/account.go:62-68 | NewAccount: the given balance, no positions, next ID 1 |
| Accounts.Account.OpenTrade | internal/account/account.go:70-98 | appends the position built from the signal with the current ID, bumps the ID, leaves the balance alone, keeps the invariant |
| Accounts.Account.ClosePosition | internal/account/account.go:148-177 | returns the trade for closing at the given price and adds its PnL to the balance |
| Accounts.Account.CheckPosition | internal/account/account.go:106-135 | one position against one bar: closed iff its stop or target was reached, the reported trade is the take-profit close when both were, and the balance receives the PnL of every close made |
| Accounts.Account.CheckExits | internal/account/account.go:101-146 | returns the reported trades, keeps exactly the untriggered positions, adds the PnL of every close, keeps the ID counter and the invariant |
| Accounts.Account.CloseAll | internal/account/account.go:179-189 | closes every position at the last bar, empties the list, adds the trades' PnL, keeps the invariant |
| Accounts.Account.OpenPositions | internal/account/account.go:191-193 | the open positions are in increasing ID order, all below the next ID |
| Accounts.Account.PositionCount | internal/account/account.go:195-197 | the number of open positions, always below the next position ID |
| Indicators.AlphaInUnitInterval | internal/strategy/indicators.go:26-31 | the smoothing factor 2/(period+1) is in (0, 1] for period >= 1 |
| Indicators.EmaAtLeast | internal/strategy/indicators.go:33-43 | the EMA never falls below a lower bound of all prices fed |
| Indicators.EmaAtMost | internal/strategy/indicators.go:33-43 | the EMA never exceeds an upper bound of all prices fed |
| Indicators.EmaScenario | internal/strategy/indicators.go:26-43 | period 3 gives alpha 0.5, and feeding 10 then 20 gives 15 |
| Indicators.EMA.constructor | internal/strategy/indicators.go:26-31 | an unfed EMA with the given period |
| Indicators.EMA.Update | internal/strategy/indicators.go:33-43 | the first price seeds the value; later prices are blended with weight alpha |
| Indicators.EMA.Value | internal/strategy/indicators.go:45-47 | the value is the EMA of everything fed |
| Indicators.EMA.Ready | internal/strategy/indicators.go:49-51 | ready iff at least one price was fed |
| Indicators.Window | internal/strategy/indicators.go:66-72 | the last min(period, n) prices fed |
| Indicators.WindowSnoc | internal/strategy/indicators.go:66-72 | feeding a price appends it to the window and drops the oldest item once the window would exceed the period |
| Indicators.SumBounds | internal/strategy/indicators.go:74-84 | n*lo <= sum <= n*hi when every value is within [lo, hi] |
| Indicators.MeanBounds | internal/strategy/indicators.go:74-84 | the mean of a non-empty window lies between its bounds |
| Indicators.SmaScenario | internal/strategy/indicators.go:66-88 | one price is not ready for period 2, two are; the window of 1, 2, 3 averages to 2.5 |
| Indicators.SMA.constructor | internal/strategy/indicators.go:59-64 | an empty SMA with the given period |
| Indicators.SMA.Update | internal/strategy/indicators.go:66-72 | the stored values are the last `period` prices fed |
| Indicators.SMA.Value | internal/strategy/indicators.go:74-84 | the mean of the window (the summing loop is proved against it) |
| Indicators.SMA.Ready | internal/strategy/indicators.go:86-88 | ready iff at least `period` prices were fed |
| Indicators.TrueRangeBounds | internal/strategy/indicators.go:118-122 | the true range is non-negative, at least each of its three candidates and equal to one of them |
| Indicators.TrueRanges | internal/strategy/indicators.go:107-145 | one true range per bar after the first |
| Indicators.TrueRangesAt | internal/strategy/indicators.go:114-122 | the i-th true range compares bar i+1 with the close of bar i |
| Indicators.TrueRangesSnoc | internal/strategy/indicators.go:107-145 | a new bar appends exactly one true range |
| Indicators.AtrValueNonNegative | internal/strategy/indicators.go:147-149 | the ATR is never negative |
| Indicators.ATR.constructor | internal/strategy/indicators.go:99-105 | an unfed ATR with the given period |
| Indicators.ATR.Update | internal/strategy/indicators.go:107-145 | the first bar is only remembered; every later bar feeds one true range and advances the warm-up; readiness is never lost |
| Indicators.ATR.Advance | internal/strategy/indicators.go:114-138 | with a previous bar present, one true range joins the EMA's inputs and the bar joins the history, keeping the ATR consistent with its inputs |
| Indicators.ATR.Value | internal/strategy/indicators.go:147-149 | the value is the EMA of the true ranges of all bars fed |
| Indicators.ATR.Ready | internal/strategy/indicators.go:151-153 | ready iff at least `period` true ranges (and at least one) were fed |
| Indicators.ViolationCount | internal/strategy/indicators.go:176-192 | the counter is non-negative, and positive only after some ready bar violated |
| Indicators.ViolationCountSnoc | internal/strategy/indicators.go:176-192 | one more bar leaves the counter untouched while the ATR warms up, bumps it on a violation and resets it to 0 otherwise |
| Indicators.CounterTracksLastBar | internal/strategy/indicators.go:176-192 | once the ATR is ready, the counter is positive iff the latest bar violated |
| Indicators.ATRCandle.constructor | internal/strategy/indicators.go:166-174 | an empty candle checker with the given configuration |
| Indicators.ATRCandle.Update | internal/strategy/indicators.go:176-192 | while the ATR warms up the counter is untouched; afterwards a violation increments it and a non-violation resets it to 0 |
| Indicators.Violates | internal/strategy/indicators.go:193-234 | a violation means the candle body strictly exceeds ATR*multiplier and, in relative-size mode with a previous bar, also strictly exceeds relativeSize times the previous body; with no previous bar only the ATR test applies |
| Indicators.ATRCandle.CheckViolation | internal/strategy/indicators.go:193-234 | the candle's check applies the violation rule to the bar, the ATR's current value (the EMA of its true ranges), the previous bar and its configuration |
| Indicators.ATRCandle.Value | internal/strategy/indicators.go:238-243 | 1 when the counter is positive, else 0 |
| Indicators.ATRCandle.Ready | internal/strategy/indicators.go:245-247 | ready iff its ATR is ready |
| Strategy.Abs | internal/strategy/common.go:44-50 | the strategy package's own absolute value: non-negative, x for x >= 0, -x otherwise |
| Strategy.IndicatorsReady | internal/strategy/common.go:53-60 | true iff every indicator is ready (true for none) |
| Strategy.GetPipsFromInstr | internal/strategy/common.go:63-71 | NAS100_USD has pip size 0.1 |
| Strategy.PipsToPrice | internal/strategy/common.go:73-76 | a pip count becomes a price distance that, divided by a non-zero pip size, gives the count back |
| Strategy.StopDistance | internal/strategy/common.go:74-76 | stopLossPips pips are stopLossPips/10 in price |
| Strategy.CalculatePositionSize | internal/strategy/common.go:116-130 | size * \|entry - stop\| equals the risk amount, from the static balance when set and the account balance otherwise |
| Strategy.OpenLong | internal/strategy/common.go:79-94 | a BUY at the close with the stop below and the target riskRatio stops above, sized to risk the risk amount |
| Strategy.OpenShort | internal/strategy/common.go:97-112 | a SELL at the close with the stop above and the target riskRatio stops below, sized to risk the risk amount |
| Strategy.LongStopLossLosesRiskAmount | internal/strategy/common.go:79-94 | a long from OpenLong that is stopped out loses exactly the risk amount |
| Strategy.ShortStopLossLosesRiskAmount | internal/strategy/common.go:97-112 | a short from OpenShort that is stopped out loses exactly the risk amount |
| Stats.MaxDrawdown | internal/backtest/stats.go:66-75 | the maximum drawdown is never negative |
| Stats.StatsOf | internal/backtest/stats.go:35-115 | all-zero statistics without trades; otherwise the counts, sums, rates, PnL percent, expected value and truncated average duration as the source defines them |
| Stats.WinsAndLossesAtMostTotal | internal/backtest/stats.go:58-64 | wins + losses <= total trades (break-even trades count as neither) |
| Stats.GrossSplit | internal/backtest/stats.go:58-64 | gross profit >= 0, gross loss <= 0, and together they are the total trade PnL |
| Stats.GrossZeroWithoutCount | internal/backtest/stats.go:58-64 | no wins means no gross profit, no losses means no gross loss |
| Stats.PeakIsHighestBalance | internal/backtest/stats.go:66-70 | the peak is the highest running balance, starting from the initial balance, and is attained |
| Stats.MaxDrawdownIsLargestFall | internal/backtest/stats.go:66-75 | the maximum drawdown is at least every fall from an earlier to a later running balance, and is either 0 or such a fall |
| Stats.DrawdownIgnoresStart | internal/backtest/stats.go:66-75 | shifting the initial balance shifts the peak by the same amount and leaves the maximum drawdown unchanged |
| Stats.WinRateBounds | internal/backtest/stats.go:82 | the win rate is between 0 and 100 |
| Stats.ProfitSigns | internal/backtest/stats.go:85-101 | gross profit and average win are non-negative, gross loss and average loss non-positive, the profit factor non-negative |
| Stats.DrawdownSigns | internal/backtest/stats.go:104-108 | the maximum drawdown and its percentage are non-negative |
| Stats.StatsScenario | internal/backtest/stats.go:35-115 | trades of +5 (60 ns) and -15 (121 ns) from 10000: win rate 50, profit factor 1/3, drawdown 15, average duration 90 ns (the integer average truncates) |
| Stats.Results.constructor | internal/backtest/results.go:5-11 | results hold the balances and trades, with nothing cached |
| Stats.Results.Calculate | internal/backtest/stats.go:35-115 | returns the cached statistics if present; otherwise computes StatsOf, with the loop proved against the folds, and caches it |
| Backtest.OpenSignals | internal/backtest/engine.go:46-50 | opening the signals leaves the balance alone, and each OPEN_TRADE signal takes one ID and adds one position |
| Backtest.StepBar | internal/backtest/engine.go:40-50 | whatever the strategy asks for, the balance after a bar is the one its exits leave, and the ID counter never goes back |
| Backtest.Simulate | internal/backtest/engine.go:30-63 | a run over at least one bar ends with nothing open; a run over no bars reports nothing and keeps the initial balance |
| Backtest.OpenOnly | internal/backtest/engine.go:46-50 | the OPEN_TRADE signals among those emitted, one per OPEN_TRADE signal counted, each taken from the signals |
| Backtest.OpenSignalsEffect | internal/backtest/engine.go:46-49 | opening the OPEN_TRADE signals keeps the balance and the old positions, and appends one position per OPEN_TRADE signal, in order: the k-th new position is built from the k-th OPEN_TRADE signal with ID next+k, timestamped with the bar |
| Backtest.OpenSignalsWellFormed | internal/backtest/engine.go:46-49 | opening signals preserves the ID invariant |
| Backtest.RangeSplit | internal/account/account.go:94 | consecutive ID ranges concatenate |
| Backtest.StepKeepsIds | internal/backtest/engine.go:39-51 | one bar preserves the ID invariant and the fact that every ID handed out is either open or reported once |
| Backtest.StartIds | internal/account/account.go:62-68 | before the first bar the ID invariant holds and no ID has been handed out |
| Backtest.RunStepKeepsIds | internal/backtest/engine.go:39-51 | the ID accounting after n-1 bars carries over to n bars |
| Backtest.StepBalance | internal/backtest/engine.go:39-51 | one bar changes the balance by the PnL of its reported and discarded closes |
| Backtest.RunStepBalance | internal/backtest/engine.go:39-51 | the balance accounting after n-1 bars carries over to n bars |
| Backtest.ExitsBeforeOpens | internal/backtest/engine.go:41-48 | exits are settled before the strategy runs: the bar's reported trades are from older positions, the survivors come first, and new positions have new IDs |
| Backtest.RunBarsIds | internal/backtest/engine.go:39-51 | after any number of bars the ID invariant holds and every ID is open or reported once |
| Backtest.RunBarsBalance | internal/backtest/engine.go:39-51 | after any number of bars the balance is the initial balance plus all reported and discarded PnL |
| Backtest.EmptyRun | internal/backtest/engine.go:53-60 | no bars: no trades, and the account is untouched |
| Backtest.TradeIdsAppend | internal/backtest/engine.go:42 | appending trades appends their IDs |
| Backtest.CloseAllIds | internal/backtest/engine.go:53-58 | the final close-out reports exactly the open IDs, in order |
| Backtest.SimulateIds | internal/backtest/engine.go:30-63 | after a run nothing is open and the reported trades carry exactly the IDs 1 .. next-1, each once |
| Backtest.SimulateBalance | internal/backtest/engine.go:30-63 | final balance = initial + reported PnL + discarded PnL; with no double hits, initial + reported PnL |
| Backtest.RunStatsTotalPnL | internal/backtest/stats.go:87 | with the engine's own initial balance and no double hits, total PnL equals the reported trades' PnL |
| Backtest.SingleExit | internal/account/account.go:101-146 | the exit rules applied to a single position |
| Backtest.QuietBar | internal/backtest/engine.go:40-50 | a bar that triggers no exit and yields no signal leaves the run's state unchanged |
| Backtest.TestRunFirstBars | internal/backtest/engine_test.go:17-92 | the test strategy's long is taken at 105 on bar 2 and a short opens with ID 2 |
| Backtest.TestRunOpeningBar | internal/backtest/engine_test.go:17-92 | after the first bar of the engine test the long is open with ID 1, entry 100, stop 50 and target 105, and nothing is reported |
| Backtest.TestSecondBarExits | internal/backtest/engine_test.go:17-92 | the second bar takes the long's profit at 105: +5 on the balance, one reported trade, nothing discarded, nothing left open |
| Backtest.TestRunLastBars | internal/backtest/engine_test.go:17-92 | bars 3 and 4 reach neither level of the short |
| Backtest.EngineScenario | internal/backtest/engine_test.go:17-56 | the engine test: two trades, 100 to 105 (+5) and 105 to 120 (-15), final balance initial - 10 |
| Backtest.HardCodedInitialBalanceMisreports | internal/backtest/engine.go:33 | from 5000 the trades total -10, but statistics from the hard-coded 10000 report -5010 |
| Backtest.OpenRequested | internal/backtest/engine.go:46-49 | the engine's filtering loop opens exactly the OPEN_TRADE signals, as OpenSignals specifies |
| Backtest.Engine.constructor | internal/backtest/engine.go:19-24 | the engine holds the bars and the initial balance |
| Backtest.ProcessBar | internal/backtest/engine.go:40-50 | one pass of the bar loop: the account and the reported trades become those of StepBar, and the account stays valid |
| Backtest.RunAllBars | internal/backtest/engine.go:39-51 | the bar loop leaves the account and the reported trades equal to RunBars over every bar |
| Backtest.Engine.Run | internal/backtest/engine.go:30-63 | a fresh Results whose trades and final balance are those of Simulate, with initial balance 10000 as written |
| Logging.IndexOf | internal/logging/debug.go:32 | the first position of the separator |
| Logging.Split | internal/logging/debug.go:32 | at least one piece, and no piece contains the separator |
| Logging.TrimLeft | internal/logging/debug.go:33 | never longer than its input |
| Logging.TrimRight | internal/logging/debug.go:33 | never longer than its input |
| Logging.SplitJoin | internal/logging/debug.go:32 | joining the pieces with the separator gives back the input |
| Logging.TrimLeftShape | internal/logging/debug.go:33 | the result is a suffix; what is dropped is whitespace; the result does not start with whitespace |
| Logging.TrimRightShape | internal/logging/debug.go:33 | the result is a prefix; what is dropped is whitespace; the result does not end with whitespace |
| Logging.TrimSpaceShape | internal/logging/debug.go:33 | the result is a slice of the input with whitespace only around it, and neither end of it is whitespace |
| Logging.TopicMapExact | internal/logging/debug.go:32-37 | the topic map has exactly the non-empty trimmed pieces as keys, all set to true |
| Logging.TopicMapLookup | internal/logging/debug.go:32-37 | a topic reads as enabled iff it is non-empty and some trimmed piece equals it |
| Logging.TopicMapSnoc | internal/logging/debug.go:32-37 | one more piece adds its trimmed text as a key when non-empty and changes nothing else |
| Logging.TopicMapOfThree | internal/logging/debug.go:32-37 | the topic map of three pieces is built from their trimmed non-empty texts |
| Logging.EnabledTopics | internal/logging/debug.go:17-37 | every key of the topic map is set to true, the empty topic is never a key, and outside the "all" case "*" is a key only when some trimmed piece is "*" |
| Logging.ParseTopics | internal/logging/debug.go:17-43 | the parsing loop computes EnabledTopics |
| Logging.NoTopicsEnableNothing | internal/logging/debug.go:19-22 | an empty topic list enables no logger |
| Logging.AllEnablesEverything | internal/logging/debug.go:25-29 | "all" enables every logger |
| Logging.EnabledIffListed | internal/logging/debug.go:32-37 | for any other list, a logger is enabled iff "*" or its own topic is a trimmed piece of the list |
| Logging.PaddedAllIsATopic | internal/logging/debug.go:25-33 | " all" is not the special case: it enables only a topic named "all" |
| Logging.ParseScenario | internal/logging/debug.go:32-37 | " atr,,sma " enables exactly atr and sma |
| Logging.SplitScenario | internal/logging/debug.go:32 | " atr,,sma " splits into " atr", "" and "sma " |
| Logging.TrimScenario | internal/logging/debug.go:33 | padding is trimmed and the empty piece stays empty |
| Logging.New | internal/logging/debug.go:56-62 | the logger has the topic and is enabled iff "*" or its topic is enabled; a missing key reads as false |
| Logging.Logger.Enabled | internal/logging/debug.go:93-97 | a logger is enabled iff it emits a record at Debug, at Info and at Warn level |
| Logging.Emit | internal/logging/debug.go:66-91 | a disabled logger emits nothing; an enabled one emits one record at the level, with "topic", topic prepended to the arguments |
| Logging.Debug | internal/logging/debug.go:66-74 | at most one record, none iff the logger is disabled, at Debug level with the message and "topic", topic before the arguments |
| Logging.Info | internal/logging/debug.go:76-82 | at most one record, none iff the logger is disabled, at Info level with the message and "topic", topic before the arguments |
| Logging.Warn | internal/logging/debug.go:84-91 | at most one record, none iff the logger is disabled, at Warn level with the message and "topic", topic before the arguments |
| Logging.DisabledIsSilent | internal/logging/debug.go:66-91 | Debug, Info and Warn of a disabled logger emit nothing |
| Logging.LoggerScenarios | internal/logging/debug_test.go:9-38 | a listed topic is enabled, an unlisted one is not, "*" enables anything, an empty map enables nothing |

## Left out

- I/O is not modelled. This covers reading the `DEBUG_TOPICS` environment variable, configuring slog's level and handler, and writing log records (internal/logging/debug.go:19, 40-52). The topic string and the topic map are explicit parameters. A log record is a value, and `slog`'s own level filtering is not modelled.
- Log arguments are strings. The source takes `...any`.
- `time.Time` and `time.Duration` are integers (nanoseconds). Bar timestamps are never compared.
- `Stats.StatsOf`: int64 overflow of the summed durations is not modelled.
- Floating point is modelled as exact reals. The IEEE results of dividing by zero are not modelled:
- `Accounts.PnLPercent`: gives 0 for a zero entry price, where Go gives ±Inf or NaN.
- `Stats.StatsOf`: gives a total PnL percentage of 0 for a zero initial balance, where Go gives ±Inf or NaN.
- Indicators.Alpha, Indicators.AtrValue, Indicators.EMA.constructor, Indicators.ATR.constructor and Indicators.ATRCandle.constructor require a period other than -1. For -1 Go divides by zero and the smoothing factor is +Inf.
- Indicators.SMA.constructor requires a non-negative period. Go's `make` panics on a negative capacity.
- `Strategy.CalculatePositionSize` requires the entry and stop prices to differ. Go would divide by zero.
- `Strategy.GetPipsFromInstr` requires NAS100_USD. The source panics for any other instrument.
- `Strategy.OpenLong` and `Strategy.OpenShort` also require a non-zero `stopLossPips`.
- The strategy is a pure function of the bars, the bar index and a snapshot of the account. In the source, `OnBar` receives the `*Account` itself. It could mutate the account, or keep the slice that `OpenPositions` returns; that aliasing is not modelled.
- The `Indicator` interface is modelled as a closed datatype of the four indicator classes. The `Strategy` interface's getters are modelled as the `StrategyConfig` record (internal/strategy/common.go:11-31).
- Printing is not part of this model: `Trade.Print`, `Statistics.Print` and `PrintTrades`.
- Not part of this model either: the OANDA client, the TradingView exporter, `main.go` and the concrete strategies.

## Findings

| source | as written | input that shows it | evidently intended | confidence | as-written member | corrected member |
|---|---|---|---|---|---|---|
| internal/backtest/engine.go:33 | `Run` always reports an initial balance of 10000, so total PnL, PnL percentage and drawdown percentage are measured from 10000 (the drawdown amount itself does not depend on the starting balance) whatever balance the engine was built with | `NewEngine(bars, 5000)` on the engine test's bars and strategy: the trades total -10, but `TotalPnL` is 4990 - 10000 = -5010 | the engine's own `initialBalance` | medium, not executed | Backtest.HardCodedInitialBalanceMisreports | Backtest.RunStatsTotalPnL |
