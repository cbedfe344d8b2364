# Trend-momentum entry and exit logic

This project models the decision core of the TrendMomentumX futures strategy in Dafny:

- the **multi-timeframe trend classifier**. It classifies the 15-minute frame by EMA alignment, the 5-minute frame by MACD histogram sign and slope, and the 1-minute frame by a Waddah Attar Explosion above its dead zone. It then combines the three states into a trade mode: long only, short only or no trade;
- the **15-second entry signal**. It counts RSI re-cross, WAE explosion, price break and an optional candlestick-pattern edge against a minimum. It also computes the weighted score;
- the **order-book gate**. It checks the imbalance threshold for each direction and looks for icebergs on the adverse side. It also computes order-book pressure;
- the **risk manager**:
  - fixed-fractional position sizing, capped at 10 contracts;
  - an ATR stop, falling back to a tick-based stop and then to a 1% stop;
  - the reward/risk target;
  - the daily and weekly loss gate and the concurrent-trades gate;
  - the open-position list;
- the **exit manager**:
  - the exit conditions: target, stop, 5-minute time exit, and 5-minute MACD reversal;
  - break-even and trailing activation;
  - the Parabolic-SAR trailing stop, which only tightens;
  - the monitoring loop of `manage_position`;
- the **strategy glue** in `main.py`:
  - stop and target helpers;
  - the volume filter;
  - dispatch by trade mode;
  - the pending-order book and its fill and failure handlers;
  - shutdown.

Values that the trading suite supplies are inputs to the model. This covers data frames, indicator columns, order-book calls, instrument metadata, account balance and order outcomes. A call that raises is modelled as `OrderBook.Call.Raised`. A missing value is `None`. The wall clock is a parameter (`now`). Prices are `real`, so nothing depends on floating-point rounding.

Three stateful objects become classes whose methods are proved against pure step functions: `RiskManager.RiskManager`, `Exits.ExitManager` and `Strategy.Strategy`. Each step function has lemmas of its own: invariants it preserves, iff characterisations, and mirror symmetry between long and short.

Behaviours of the code worth stating plainly:

- The trade mode needs **all three** timeframes to agree (`get_trade_mode`); two agreeing timeframes with a neutral third give no trade (`TrendAnalysis.TwoOfThreeIsNotEnough`).
- Entry acceptance is **count-based**: `signals_met >= min_signals_required`. The weighted score is reported but never decides (`Signals.AcceptanceIgnoresWeights`), except that a zero total weight makes the score's debug line raise ZeroDivisionError, so nothing is entered (`Signals.ZeroWeightsRaise`), and the pattern counts only when `pattern_required` is set (`Signals.OptionalPatternNeverDecides`).
- A close order that fails leaves the position record in place (`Exits.ExitManager.ExitPosition`).
- `main.py` never calls `manage_position`. The exit manager is modelled as an object of its own.
- The configuration module has no `MIN_SIGNALS_REQUIRED`, `PATTERN_REQUIRED`, `WEIGHT_*` or `RSI_LOOKBACK_BARS` entries. These settings are therefore the parameters of `Signals.SignalConfig`.

## Model

| member | source | states |
|---|---|---|
| Market.Abs | strategy/risk_manager.py:44 | the absolute value is non-negative and is either x or -x |
| TrendAnalysis.SlowTrend | strategy/trend_analysis.py:20-40 | neutral when the frame is missing or has fewer than 200 bars; bullish iff EMA50 > EMA200 and close > EMA50 on the last bar; bearish iff both are reversed |
| TrendAnalysis.LastThree | strategy/trend_analysis.py:49-54 | `tail(3)`: min(3, n) values, which are the last ones of the column in order |
| TrendAnalysis.MediumTrend | strategy/trend_analysis.py:42-61 | neutral when fewer than 35 bars; bullish iff the last histogram value is positive and the last three strictly rise; bearish iff it is negative and they strictly fall |
| TrendAnalysis.FastTrend | strategy/trend_analysis.py:63-81 | neutral below 20 bars or when the explosion is not above the dead zone; otherwise bullish iff the WAE trend is positive and bearish iff it is negative |
| TrendAnalysis.CountState | strategy/trend_analysis.py:83-99 | the number of timeframes in a state is at most the number of timeframes |
| TrendAnalysis.TradeModeByCount | strategy/trend_analysis.py:83-99 | long only iff all three states are bullish, short only iff all three are bearish, and no trade otherwise, checked against a counting definition |
| TrendAnalysis.NeutralBlocksTrading | strategy/trend_analysis.py:94-99 | any neutral timeframe gives no trade |
| TrendAnalysis.LongOnlyMeansAligned | strategy/trend_analysis.py:20-99 | a long-only mode implies every frame has enough bars and its bullish condition holds: close > EMA50 > EMA200, a positive last histogram value with the last three strictly rising, and an explosion above the dead zone with a positive WAE trend |
| TrendAnalysis.ShortOnlyMeansAligned | strategy/trend_analysis.py:20-99 | a short-only mode implies every frame has enough bars and its bearish condition holds: close < EMA50 < EMA200, a negative last histogram value with the last three strictly falling, and an explosion above the dead zone with a negative WAE trend |
| TrendAnalysis.MirrorEma | strategy/trend_analysis.py:35-40 | the mirrored 15-minute frame negates price and both EMAs bar by bar |
| TrendAnalysis.MirrorWae | strategy/trend_analysis.py:74-81 | the mirrored 1-minute frame negates the WAE trend and keeps the explosion and the dead zone |
| TrendAnalysis.SlowTrendMirror | strategy/trend_analysis.py:35-40 | the bearish EMA rule is the exact mirror of the bullish one |
| TrendAnalysis.SlopeMirror | strategy/trend_analysis.py:53-61 | negating a window swaps strictly increasing and strictly decreasing |
| TrendAnalysis.MediumTrendMirror | strategy/trend_analysis.py:42-61 | the bearish MACD rule is the mirror of the bullish one |
| TrendAnalysis.FastTrendMirror | strategy/trend_analysis.py:63-81 | the bearish WAE rule is the mirror of the bullish one |
| TrendAnalysis.TradeModeMirror | strategy/trend_analysis.py:83-99 | mirrored frames swap long only and short only, and keep no trade |
| TrendAnalysis.Details | strategy/trend_analysis.py:101-107 | the details report the three per-frame states; the mode agrees with them when both fetches return the same frames |
| TrendAnalysis.TwoOfThreeIsNotEnough | strategy/trend_analysis.py:94-99 | two aligned trends plus a neutral one give no trade; three bearish give short only |
| Signals.RsiColumn | strategy/signals.py:60-62 | the RSI column has one value per bar, taken from that bar |
| Signals.RsiWindow | strategy/signals.py:60-69 | the look-back window holds the min(lookback, n) - 1 values that come before the current bar, in order |
| Signals.PatternEdge | strategy/signals.py:255-327 | an edge is reported only when the 5-minute frame exists with at least 120 bars and a current price is known |
| Signals.PatternEdgeIff | strategy/signals.py:255-327 | bullish iff, on enough data, the last 5-minute row has a bullish order block whose known bottom is at or below the price, or a bullish fair-value gap; bearish likewise with the order block's top at or above the price, or a bearish gap |
| Signals.CoreFactors | strategy/signals.py:123-127 | the core signal list has four entries when the pattern is required and three otherwise |
| Signals.CountTrue | strategy/signals.py:128 | the count of met signals is at most the number of signals |
| Signals.CountTrueSnoc | strategy/signals.py:128 | appending a signal adds one to the count exactly when that signal is met |
| Signals.SignalsMetCounts | strategy/signals.py:123-131 | `signals_met` is the sum of the indicators of RSI, WAE, price break and (if required) pattern, and is bounded by the list length |
| Signals.EntrySignal | strategy/signals.py:38-145 | with no 15-second frame or fewer than 100 bars, there are no factors and no scoring; otherwise the reported `signals_met` is the count of the core factors |
| Signals.EvaluatedWithEnoughData | strategy/signals.py:51-131 | with at least 100 bars the check reports the four evaluated factors, the score, the maximum score and the count |
| Signals.CountMet | strategy/signals.py:128 | the loop counts the true flags |
| Signals.AccumulateScore | strategy/signals.py:98-121 | the score accumulated weight by weight is the weighted sum of the met factors, with half the pattern weight as a bonus when the pattern is optional; the total is the maximum score |
| Signals.EntryCheck | strategy/signals.py:38-145 | the check raises ZeroDivisionError exactly when there are at least 100 bars and the total weight is zero; otherwise it returns the signal result and accepts iff that result is accepted |
| Signals.SignalPassesIff | strategy/signals.py:51-139 | the signal gate passes iff there are at least 100 bars, the total weight is not zero and at least `min_signals_required` core factors are met |
| Signals.ZeroWeightsRaise | strategy/signals.py:98-139 | with zero weights and no pattern requirement, the check raises and no entry passes, however many factors are met |
| Signals.CheckEntry | strategy/signals.py:38-253 | the outcome computed step by step, the raise at a zero total weight included, is the specified `EntryCheck` |
| Signals.InsufficientDataRejects | strategy/signals.py:51-54 | too little data rejects the entry with no factors |
| Signals.AcceptedIffEnoughFactors | strategy/signals.py:123-131 | with enough data, acceptance iff the number of met core factors reaches the minimum |
| Signals.AcceptanceIgnoresWeights | strategy/signals.py:98-139 | changing the four weights never changes the factors or the count rule, and while neither total weight is zero it never changes whether the signal gate passes |
| Signals.OptionalPatternNeverDecides | strategy/signals.py:123-131 | when the pattern is not required, the pattern data never changes acceptance |
| Signals.ScoreBounds | strategy/signals.py:98-121 | with non-negative weights the score is at least 0 and at most the total weight, plus the half pattern bonus when the pattern is optional; all core factors met reach the required weights |
| Signals.MirrorRows | strategy/signals.py:147-253 | mirroring the 15-second frame keeps its length and mirrors each bar |
| Signals.MirrorPatternRows | strategy/signals.py:292-327 | mirroring the pattern frame keeps its length and mirrors each row |
| Signals.ReflectedWindow | strategy/signals.py:60-69 | reflecting RSI through 50 reflects the look-back window value by value |
| Signals.RsiCrossMirror | strategy/signals.py:60-69 | under symmetric thresholds the short RSI rule on reflected RSI equals the long rule |
| Signals.PatternEdgeMirror | strategy/signals.py:255-327 | the bearish pattern check on a mirrored frame equals the bullish check |
| Signals.FastFactorsMirror | strategy/signals.py:60-85 | under symmetric thresholds the short factors of mirrored bars equal the long factors |
| Signals.MirroredRowsFactors | strategy/signals.py:60-85 | with equal pattern flags, the short factors of mirrored bars equal the long factors |
| Signals.MirroredFactors | strategy/signals.py:38-253 | all four short factors on mirrored inputs, the pattern edge included, equal the long factors |
| Signals.ShortMirrorsLong | strategy/signals.py:38-253 | `check_short_entry` on mirrored inputs gives the same result, and raises in the same cases, as `check_long_entry` |
| OrderBook.MarketImbalance | strategy/orderbook.py:14-25 | an imbalance value exists iff the feed answered with a value, and it is that value; a raised call gives none |
| OrderBook.DetectIcebergs | strategy/orderbook.py:27-38 | the detected list is the feed's list when it answered, and empty otherwise |
| OrderBook.OnSide | strategy/orderbook.py:64 | filtering keeps only icebergs of the given side |
| OrderBook.OnSideKeepsAll | strategy/orderbook.py:64-66 | the filter keeps every iceberg on the given side with its multiplicity and no other, so the reported count is the number of adverse icebergs |
| OrderBook.OnSideEmptyIff | strategy/orderbook.py:64-65 | the filtered list is empty iff no iceberg is on that side |
| OrderBook.ConfirmationOf | strategy/orderbook.py:40-104 | a confirmation has an imbalance and an entry-confirmed reason; the reported imbalance is the feed's |
| OrderBook.ConfirmEntry | strategy/orderbook.py:40-104 | the imperative gate returns the specified confirmation, with ok equal to its confirmed flag |
| OrderBook.ConfirmedIff | strategy/orderbook.py:40-104 | confirmed iff the imbalance is available and meets the threshold for the direction (>= 1.5 long, <= 0.6667 short) and, when the check is on, there is no adverse iceberg |
| OrderBook.UnavailableRejects | strategy/orderbook.py:48-51 | a missing or failing imbalance rejects with the data-unavailable reason |
| OrderBook.DefaultThresholds | strategy/orderbook.py:9-12 | with the default analyzer, 1.5 and 1.8 pass long and 1.2 does not; 0.6667 and 0.5 pass short and 0.8 does not |
| OrderBook.OnlyAdverseIcebergsMatter | strategy/orderbook.py:40-104 | icebergs on the favourable side never change the decision or the reason |
| OrderBook.IcebergCheckOnlyRestricts | strategy/orderbook.py:53-60 | disabling the iceberg check never turns a confirmation into a rejection |
| OrderBook.SumNonNegative | strategy/orderbook.py:117-118 | summed level volumes are non-negative when each level is |
| OrderBook.OrderBookPressure | strategy/orderbook.py:106-136 | with no snapshot or a zero total, all zeros; otherwise bid and ask pressure are the volume shares, sum to 1, and the net pressure is their difference |
| OrderBook.PressureVolumes | strategy/orderbook.py:110-131 | ratios are reported iff a snapshot arrives with non-zero total, and the reported volumes are the level sums |
| OrderBook.PressureBounds | strategy/orderbook.py:120-131 | with non-negative volumes both pressures lie in [0, 1] and the net pressure in [-1, 1] |
| OrderBook.PressureMirror | strategy/orderbook.py:106-136 | swapping bid and ask levels swaps the pressures and negates the net pressure |
| RiskManager.Trunc | strategy/risk_manager.py:51 | Python `int()` truncates toward zero |
| RiskManager.PositionSize | strategy/risk_manager.py:23-55 | a size is returned iff balance, instrument, tick size and tick value are present, the tick size is non-zero and the risk per contract is positive; the size lies between 1 and 10 |
| RiskManager.WholeContracts | strategy/risk_manager.py:44-51 | the truncated quotient times the risk per contract lies within one contract of the budget |
| RiskManager.ClampedFits | strategy/risk_manager.py:49-55 | clamping to [1, 10] keeps the budget bound: above 1 the size fits, and below 10 one more contract does not |
| RiskManager.SizeFitsBudget | strategy/risk_manager.py:37-55 | an uncapped size of at least 1 is the largest whole number of contracts whose risk fits 0.5% of the balance |
| RiskManager.PositionSizeExample | strategy/risk_manager.py:23-55 | 100000 balance, 5-point stop, 0.25 tick, 12.5 tick value gives 2 contracts |
| RiskManager.StopDistance | strategy/risk_manager.py:57-82 | the distance is the last ATR when there are at least 14 bars, otherwise 10 ticks when the tick size is known, otherwise 1% of entry |
| RiskManager.StopPrice | strategy/risk_manager.py:57-82 | the stop is that distance from the entry, below for long and above for short when the distance is positive |
| RiskManager.StopOnProtectiveSide | strategy/risk_manager.py:57-82 | with positive inputs the stop is strictly on the losing side of the entry |
| RiskManager.StopMirror | strategy/risk_manager.py:76-80 | the short stop is the long stop reflected through the entry |
| RiskManager.StopExamples | strategy/risk_manager.py:57-82 | ATR 2.5 at 5000 gives 4997.5 long and 5002.5 short; no ATR with a 0.25 tick gives 4997.5 |
| RiskManager.TargetPrice | strategy/risk_manager.py:84-93 | the target is on the profit side and at ratio times the risk distance |
| RiskManager.TargetRewardRisk | strategy/risk_manager.py:84-93 | for a stop on the protective side, the reward equals the ratio times the risk exactly |
| RiskManager.TargetExamples | strategy/risk_manager.py:84-93 | 5000 entry, 4995 stop, ratio 2 gives 5010 long; a 5005 stop gives 4990 short |
| RiskManager.Gate | strategy/risk_manager.py:95-105 | trading is allowed iff the daily loss is within 3%, the weekly loss within 5% and fewer than 3 positions are open; the daily limit is reported first |
| RiskManager.LossKeepsGateClosed | strategy/risk_manager.py:95-109 | a loss or more open positions never reopen a closed gate |
| RiskManager.ResetKeepsGateOpen | strategy/risk_manager.py:95-115 | resetting daily or weekly P&L never closes an open gate |
| RiskManager.WithoutId | strategy/risk_manager.py:120-121 | removal leaves no position with that id and never grows the list |
| RiskManager.WithoutIdMembership | strategy/risk_manager.py:120-121 | a position survives removal iff it was there and has another id |
| RiskManager.WithoutIdAppend | strategy/risk_manager.py:120-121 | removal distributes over concatenation, so order is kept |
| RiskManager.WithoutIdIdempotent | strategy/risk_manager.py:120-121 | removing the same id twice is the same as removing it once |
| RiskManager.AddThenRemove | strategy/risk_manager.py:117-121 | adding a position then removing its id restores the filtered list |
| RiskManager.RiskManager.constructor | strategy/risk_manager.py:9-21 | P&L starts at zero and the position list starts empty |
| RiskManager.RiskManager.CanTrade | strategy/risk_manager.py:95-105 | the gate over the current P&L and open-position count |
| RiskManager.RiskManager.Metrics | strategy/risk_manager.py:128-136 | the metrics report the gate, the open-position count and the limit of 3 |
| RiskManager.RiskManager.UpdatePnl | strategy/risk_manager.py:107-109 | both P&L totals grow by the amount and positions are unchanged; a loss keeps a closed gate closed |
| RiskManager.RiskManager.ResetDailyPnl | strategy/risk_manager.py:111-112 | daily P&L becomes 0 and nothing else changes; an open gate stays open |
| RiskManager.RiskManager.ResetWeeklyPnl | strategy/risk_manager.py:114-115 | weekly P&L becomes 0 and nothing else changes; an open gate stays open |
| RiskManager.RiskManager.AddPosition | strategy/risk_manager.py:117-118 | the position is appended and P&L is unchanged; a closed gate stays closed |
| RiskManager.RiskManager.RemovePosition | strategy/risk_manager.py:120-121 | every position with that id is removed and P&L is unchanged; an open gate stays open |
| Exits.NewRecord | strategy/exits.py:26-35 | a new record copies the position's prices, direction and size, takes the current time, and has neither flag set |
| Exits.TrendReversed | strategy/exits.py:91-106 | a reversal iff the 5-minute frame has at least 35 bars and the last histogram value is below -0.01 for a long or above 0.01 for a short |
| Exits.ExitCheck | strategy/exits.py:55-89 | hold with no record or no price; otherwise the first matching reason in the order target, stop, time exit without progress, trend reversal |
| Exits.ExitCheckMirror | strategy/exits.py:55-106 | a mirrored short position exits for the same reason as the long one |
| Exits.TargetBeforeStop | strategy/exits.py:66-73 | when a price meets both the target and the stop, the target is reported |
| Exits.ExitExamples | strategy/exits.py:55-89 | sample long position from 5000 with stop 4995 and target 5010: 5010 reports the target, 4995 the stop, and 4999 after 6 minutes the time exit |
| Exits.MoveToBreakeven | strategy/exits.py:133-168 | with a tick size and an accepted modify (direct or fallback), the stop moves to entry plus or minus 5 ticks and break-even is flagged; otherwise nothing changes |
| Exits.ActivateTrailing | strategy/exits.py:108-131 | without a price or below the activation price nothing changes; at or beyond it the result is the break-even step (when break-even is not yet active) with trailing flagged, or the record with trailing flagged otherwise; the entry, target, direction and size are kept |
| Exits.TrailStop | strategy/exits.py:170-200 | only the stop changes and it never loosens; the stop becomes the last SAR value iff the modify succeeds, a price is known, there are enough bars and the SAR lies strictly between the old stop and the price (reversed for a short) |
| Exits.TrailStopExamples | strategy/exits.py:170-200 | a long stop of 4995 trails to a SAR of 4998 at price 5005, and does not move at 4997 |
| Exits.BreakevenExample | strategy/exits.py:133-168 | a long entry at 5000 with a 0.25 tick moves the stop to 5001.25 |
| Exits.Monitor | strategy/exits.py:37-53 | a closed outcome always names an exit reason; a run with no exit keeps direction and entry |
| Exits.AdvancePreserves | strategy/exits.py:37-53 | one monitoring pass keeps break-even implying trailing, keeps the stop protective and never loosens it |
| Exits.MonitorPreserves | strategy/exits.py:21-53 | a whole run keeps the flags consistent and the stop protective, and never loosens the stop |
| Exits.ExitManager.constructor | strategy/exits.py:10-19 | no positions are tracked at the start |
| Exits.ExitManager.CheckExitConditions | strategy/exits.py:55-60 | an untracked id holds |
| Exits.ExitManager.MoveStopToBreakeven | strategy/exits.py:133-168 | the tracked record is replaced by its break-even step; an untracked id changes nothing |
| Exits.ExitManager.CheckTrailingActivation | strategy/exits.py:108-131 | the tracked record is replaced by its activation step; an untracked id changes nothing |
| Exits.ExitManager.UpdateTrailingStop | strategy/exits.py:170-200 | the tracked record is replaced by its trailing step; an untracked id changes nothing |
| Exits.ExitManager.ExitPosition | strategy/exits.py:202-208 | a successful close forgets the id; a failed close keeps it |
| Exits.ExitManager.AdvancePass | strategy/exits.py:44-51 | a pass that did not exit replaces the tracked record by its activation-then-trailing step |
| Exits.ExitManager.ManagePosition | strategy/exits.py:21-53 | without an id, nothing happens; otherwise the loop ends in the specified monitoring outcome, and the record is removed when closed or left as the final state |
| Strategy.CalculateStopPrice | main.py:69-96 | with a positive distance, the stop is below the entry for long and above it for short |
| Strategy.CalculateTargetPrice | main.py:98-106 | the target is on the profit side at twice the risk distance |
| Strategy.HelpersAgreeWithRiskManager | main.py:69-106 | the strategy's stop and target helpers compute the same prices as the risk manager |
| Strategy.VolumeFilter | main.py:160-178 | passes iff the last 15-second volume exists and the average is positive and the volume is at least 20% of it |
| Strategy.VolumeFilterExamples | main.py:160-178 | against an average of 100, a volume of 50 passes and 10 fails; a zero average fails |
| Strategy.DecideIff | main.py:137-220 | an entry is attempted in a direction iff the volume filter passes, the trade mode is that direction's mode, the signal check returns (a zero total weight raises, and the handler enters nothing) and accepts, and the order book confirms |
| Strategy.LongEntryRestsOnAllGates | main.py:137-199 | a long entry implies three bullish timeframes, enough 15-second bars, a non-zero total weight, and an available imbalance meeting the long threshold |
| Strategy.DispatchFollowsMode | main.py:137-154 | a failed volume filter or no-trade mode attempts nothing; long-only never shorts and short-only never buys |
| Strategy.PendingEntry | main.py:250-267 | a pending record carries the id, direction, entry price and the helper stop and target |
| Strategy.PendingEntryBrackets | main.py:222-267 | with a positive stop distance, stop, entry and target are strictly ordered for the direction |
| Strategy.AfterEntry | main.py:222-270 | an order is recorded only when a current price and an order id exist; other pending orders are untouched |
| Strategy.Strategy.constructor | main.py:15-32 | not running, a zero volume average, no pending orders |
| Strategy.Strategy.Start | main.py:61-62 | sets running and changes nothing else |
| Strategy.Strategy.CheckVolumeFilter | main.py:160-178 | passing implies a positive stored average |
| Strategy.Strategy.EnterTrade | main.py:222-270 | the pending book becomes the entry step of the old book |
| Strategy.Strategy.CheckEntry | main.py:180-220 | enters iff every gate for that direction accepts, so a raising signal check enters nothing; the pending book changes only then |
| Strategy.Strategy.ProcessTradingSignal | main.py:137-158 | the attempted direction is the specified decision, with nothing entered when the signal check raises, and the pending book follows it |
| Strategy.Strategy.OnOrderFilled | main.py:272-283 | a known pending order becomes active; an unknown id changes nothing |
| Strategy.Strategy.OnOrderFailed | main.py:285-293 | the id is dropped from the pending book |
| Strategy.Strategy.Shutdown | main.py:319-339 | a running strategy stops and requests a close for exactly each tracked position, once each |

## Left out

- Indicator kernels are not modelled. This covers EMA, MACD, RSI, ATR, WAE, SAR and the candlestick patterns. Their output columns are inputs, given one value per bar.
- Data-frame fetching, column lookup and `bars=` limits are not modelled. The frames the suite returns are inputs.
- Asynchronous execution, `asyncio.sleep` pacing and event subscriptions are left out, and so is any interleaving between coroutines.
- The wall clock is a parameter `now` of the exit checks and of `manage_position`.
- Order placement and modification are left out. Their outcome is an input: `modifyOk`, `fallbackOk` and `closeOk` on `Exits.Tick`, and the order id on `Strategy.EntryFill`.
- `get_microstructure_score` (strategy/signals.py:329-351) is diagnostic only. Nothing in the decision path uses it.
- `update_volume_average`, `on_new_bar`, `on_position_closed`, `initialize`, `run`, `main` and the signal handler are event plumbing. The stored volume average is a field of `Strategy.Strategy` that the model reads.
- Logging, configuration loading and the analysis and validation scripts are left out.
- A direction string other than "long" or "short" is not representable. `Direction` has two values.
- Position fields beyond id, entry, stop, target, direction and size are ignored by `manage_position`, and so by the model.
- RiskManager.StopPrice: a tick size present but null raises `TypeError` in the source. The model treats it like a missing tick size and takes the 1% fallback.
- Strategy.CalculateStopPrice, Strategy.EnterTrade and Strategy.AfterEntry: `_calculate_stop_price` in main.py has the same pattern, so in the source a null tick size raises inside `enter_trade`, the exception is caught and no pending entry is recorded. The model instead records an entry with the 1% stop.
- Signals.PatternEdge: the current price is read from the last bar of the 15-second frame, and an empty frame would raise `IndexError` there. The price is an input, and an empty frame is modelled as a missing price.
- Exits.ExitManager.ManagePosition: runs over a finite sequence of monitoring passes, not an unbounded loop, and does not model another coroutine removing the position between passes.
- Exits.ExitManager.UpdateTrailingStop: the source asks for a "15s" frame while the suite is configured with "15sec". The SAR column is an input, so the model does not capture a lookup that returns nothing.
- Exception paths outside the modelled try blocks are left out, and so are the suite's `None` checks and disconnection.
- The suite's managed-trade context (`managed_trade`) performs the pre-trade risk checks and the position sizing for real entries. The strategy never calls `can_trade`, so no risk gate appears in `Strategy.Decide`; those checks are not modelled, and an entry that they refuse is modelled as an entry with no order id.
