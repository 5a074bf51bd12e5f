# Verified model of the trading platform's core

This project models, in Dafny, the parts of the platform whose correctness is hardest to see from the code alone, and
proves what they promise over every input, every run or every interleaving. Code that changes state is modelled as
classes whose methods are verified against specification functions; the promises are lemmas about those functions.

| modules | what they model |
|---|---|
| `PaperBroker`, `PaperBrokerRuns`, `PaperBrokerQuotes`, `PaperBrokerTriggers`, `PaperBrokerBands` | the in-memory exchange: orders, quotes, stops and targets, its books and tickets over whole runs |
| `Backtest`, `BacktestTrades`, `BacktestLevels`, `BacktestEquity` | the one-position trade simulator, the equity curve, drawdown and profit factor |
| `Donchian`, `Safety` | the breakout strategy's causal signals and the bridge's check that they must pass |
| `Sizing`, `RiskManager`, `RiskManagerRuns`, `RiskManagerHistory`, `EngineSizing` | position sizing, the risk gate, and the size that leaves the engine |
| `CircuitBreaker`, `CircuitBreakerRuns`, `CircuitBreakerHistory`, `LiveEngine`, `LatchLockstep` | the breaker, the engine's loop, and the agreement of its two drawdown latches |
| `Billing`, `BillingRuns`, `BillingRows` | the Stripe webhook ledger with duplicates, failures and redeliveries in any order |
| `Lifecycle`, `LifecycleRuns`, `KillSwitch`, `KillSwitchRuns` | strategy instances under user and administrator operations, and the two-administrator kill switch |
| `Throttle` | the threaded call throttle as a step system over arbitrary interleavings |
| `PartitionNames`, `Partitions`, `PartitionRuns` | monthly partitions: their names and the maintenance job, run after run |

`Basics` holds optional values, sums over maps and a little arithmetic. Prices and money are exact reals. Clock readings,
broker answers, gate results and failures of a store are parameters.

## What turned out differently from the documentation

The model follows the code. Each difference below has a lemma.

- A position still open at the last bar is no trade, although the simulator's docstring (runner.py:80) speaks of an exit at the end. `SignalTradesExactlyWhen` says which signals become trades.
- A trimmed approval is returned before any position cap is looked at, so an order at a full cap passes exactly when it risks too much: `FullPassesExactlyWhen`, and over runs `CapsSurviveExactlyWhenUntrimmed`. Trimming is also not followed by the size guard, so an order of no size goes out exactly under the condition of `EmptyOrderExactlyWhen`; before trimming, the guard never fires with a positive minimum lot: `GuardNeverFires`.
- Correlation buckets compare upper-case names but count names as written. Orders for a symbol and for the names its bucket lists can overflow the bucket if and only if the symbol belongs to it without being written as listed, unless the other limits make the bucket's redundant; the default limits do not: `CapsSurviveExactlyWhenListed`.
- Seeding keeps the default 10,000 as a floor under both peaks and is not checked by the risk manager. The two latches agree after every verdict if and only if the seed is not already the limit below that floor: `LockstepIffSeedSound`.
- A failed webhook leaves no ledger row at all, where the docstring (billing_service.py:479-481) speaks of one that is not marked processed: `DatabaseStaysConsistent`.
- Invoices are documented to advance only (invoice.py:5-6). A later failure event reopens a paid one, in exactly the case of `PaidStaysPaidExactlyWhen`.
- A first checkout in subscription mode writes a status that the table's check refuses, so it can never be processed; `CheckoutFailsExactlyWhen` says which checkouts fail. Subscription events with such a status share its fate: `UpsertFailsExactlyWhen`.
- A subscription event is written into the first row with its Stripe id, whoever owns it; without an id, into the first row that has none. `UpsertWritesOwnRowExactlyWhen` says when that row is the user's own.
- An instance can be created live without the gate: `BecomesLiveExactlyWhen`.
- A store that fails half-way, or is missing while there is a single administrator, can leave approvals that are refreshed without being counted, never expire, or outlive an engagement. `RuleSurvivesExactlyWhen` and `DisarmRuleSurvivesExactlyWhen` say which failures break the two-administrator rule; `HarmfulKindBreaks` gives a run for each of them.
- A stop order fills at its own price, so it can profit without any price movement, in exactly the cases of `StopOrderRoundTrip` and `StopOrderEquity`. `NoProfitWithoutMovement` admits all other stop orders.
- The name `_get_active_or_latest_subscription` and its comment promise to prefer active rows; the newest row is taken, whatever its status. `NewerRowHidesRunningOne` is an example, and `LatestIsPreferredExactlyWhen` says when the two agree.
- The breaker is documented to let the engine resume once the broker answers again (circuit_breaker.py:9-11). On a halt the loop makes no call to the broker, so the first halt is for good: `FirstHaltIsForGood`, by `HaltRepeats`.

## Model

| member | source | states |
|---|---|---|
| PaperBroker.Broker.constructor | trading-engine/broker/paper_adapter.py:68-86 | a new broker has the initial balance, no position, no order, no quote, and issues ticket 1 first |
| PaperBroker.Broker.Place | trading-engine/broker/paper_adapter.py:150-171 | every order consumes a ticket; a market order opens at the quoted side plus one fill's cost or is rejected without a positive price; any other order rests |
| PaperBroker.Broker.Close | trading-engine/broker/paper_adapter.py:173-189 | the position leaves the open map, enters the ledger of closed trades, and its signed result goes to balance and realized profit alike; unknown tickets change nothing |
| PaperBroker.Broker.Cancel | trading-engine/broker/paper_adapter.py:191-196 | exactly a pending ticket can be cancelled |
| PaperBroker.Broker.Modify | trading-engine/broker/paper_adapter.py:198-212 | only given levels are replaced; nothing else of the position moves |
| PaperBroker.Broker.MarkSweep | trading-engine/broker/paper_adapter.py:225-244 | visiting the positions in any order marks all of the symbol and lists exactly the hit ones, each once |
| PaperBroker.Broker.CloseSweep | trading-engine/broker/paper_adapter.py:245-246 | closing the listed tickets one at a time, in whatever order, realizes the whole set at once |
| PaperBroker.Broker.FillSweep | trading-engine/broker/paper_adapter.py:248-274 | the pending sweep moves exactly the triggered orders of the symbol into positions, in any visiting order |
| PaperBroker.Broker.Quoted | trading-engine/broker/paper_adapter.py:223-274 | a quote marks, then closes, then fills: orders filled by a quote are not stopped out by it |
| PaperBroker.Broker.AccountEquity | trading-engine/broker/paper_adapter.py:105-107 | equity is the balance plus the order-free sum of unrealized results |
| PaperBroker.CloseOneMore | trading-engine/broker/paper_adapter.py:245-246 | closing one more position after a set equals closing the larger set, which makes the sweep order irrelevant |
| PaperBrokerRuns.StepKeepsBooks | trading-engine/broker/paper_adapter.py:180-196 | every operation keeps balance = initial balance + realized profit = initial balance + sum over the ledger of closed trades |
| PaperBrokerRuns.StepKeepsTickets | trading-engine/broker/paper_adapter.py:150-274 | every operation keeps each issued ticket in exactly one of rejected, pending, open, cancelled, closed and moves it only forward |
| PaperBrokerRuns.RunKeepsBooks | trading-engine/broker/paper_adapter.py:150-274 | both invariants hold in every state reachable from a new broker |
| PaperBrokerRuns.QuoteMoves | trading-engine/broker/paper_adapter.py:228-274 | a quote closes exactly the open tickets it hits, opens exactly the pending ones it triggers, and moves no other |
| PaperBrokerRuns.RunMovesForward | trading-engine/broker/paper_adapter.py:150-274 | over a whole run no ticket moves back and a ledger entry never changes, so nothing is realized twice |
| PaperBrokerQuotes.QuoteByTicket | trading-engine/broker/paper_adapter.py:223-274 | the three sweeps together act on each ticket by itself |
| PaperBrokerQuotes.QuoteClears | trading-engine/broker/paper_adapter.py:228-274 | after a quote no earlier position of the symbol is still hit and no pending order still triggered; every hit position is realized once, at that quote and with the result it implies; other symbols are untouched |
| PaperBrokerQuotes.QuotesCommute | trading-engine/broker/paper_adapter.py:223-274 | quotes for two different symbols may arrive in either order with the same resulting state |
| PaperBrokerQuotes.CloseCostsOneFill | trading-engine/broker/paper_adapter.py:180-187 | closing a freshly marked position lowers equity by exactly one fill's cost |
| PaperBrokerTriggers.QuoteClosesExactlyWhen | trading-engine/broker/paper_adapter.py:228-246 | on any run a quote closes a long if and only if bid <= stop or ask >= target, a short if and only if ask >= stop or bid <= target; at which price and result; and how the others are marked |
| PaperBrokerTriggers.LedgerGrowsByHits | trading-engine/broker/paper_adapter.py:228-246 | every ledger entry made by a quote was open on its symbol and had its stop or target reached there |
| PaperBrokerTriggers.OpenPositionsAreUnhit | trading-engine/broker/paper_adapter.py:230-246 | whatever happens since its symbol's last quote, an open long with unmodified levels has bid above stop and ask below target there, a short the reverse |
| PaperBrokerTriggers.QuoteFillsExactlyWhen | trading-engine/broker/paper_adapter.py:248-274 | on any run a quote fills a limit order if and only if it is at least as good as the order's price, a stop order if and only if at least as bad, the mid standing in for no price; and with which position |
| PaperBrokerTriggers.EveryPositionIsTraced | trading-engine/broker/paper_adapter.py:150-212 | on every run ticket t is the t-th order placed, and its position, open or in the ledger, has that order's symbol, side, volume, and levels as last modified while open |
| PaperBrokerTriggers.PlacingExactly | trading-engine/broker/paper_adapter.py:150-171 | at which price a market order opens or that it is rejected, and that any other order rests unchanged |
| PaperBrokerTriggers.RequestsExactly | trading-engine/broker/paper_adapter.py:173-196 | cancelling takes effect on exactly the pending tickets and closing on exactly the open ones, at the quoted side less a fill's cost |
| PaperBrokerTriggers.RoundTripCost | trading-engine/broker/paper_adapter.py:139-148 | buying and at once selling costs the quoted spread, the broker's spread and twice the slippage, in pips of the symbol |
| PaperBrokerBands.RunInBand | trading-engine/broker/paper_adapter.py:142-274 | with quotes inside a band, no trade of any run earns more per unit than the gain that the band leaves to the orders placed |
| PaperBrokerBands.NoProfitWithoutMovement | trading-engine/broker/paper_adapter.py:142-274 | where no order can gain, every closed trade of any run has a result of at most zero and the balance never exceeds the initial one; where each order gives up a fill's cost, neither does equity |
| PaperBrokerBands.StillOrders | trading-engine/broker/paper_adapter.py:142-171 | under one unchanging quote with bid <= ask, market and limit orders are always among those that cannot gain |
| PaperBrokerBands.NoProfitUnderStillQuotes | trading-engine/broker/paper_adapter.py:142-274 | so with quotes that never move and market and limit orders only, no trade, no balance and no equity of any run shows a profit |
| PaperBrokerBands.StopOrderRoundTrip | trading-engine/broker/paper_adapter.py:253-273 | the exact result of a stop order's round trip under one quote, on either side; it profits if and only if the order is not admitted to that quote's band, that is, gains more than two fills' costs |
| PaperBrokerBands.StopOrderEquity | trading-engine/broker/paper_adapter.py:105-106 | while it is open, equity exceeds the start if and only if the order gains more than one fill's cost |
| Backtest.CheckExit | trading-engine/backtest/runner.py:100-113 | there is an exit price exactly when the bar touches a level, and the stop wins a tie |
| Backtest.BookTrade | trading-engine/backtest/runner.py:115-133 | the booked record is the trade of that signal and those two bars |
| Backtest.SimulateTrades | trading-engine/backtest/runner.py:75-154 | the single pass yields: the first signal while flat, the first later bar that touches, and so on from the bar after it |
| BacktestTrades.TradesInOrder | trading-engine/backtest/runner.py:99-149 | every trade starts on a signal, exits on the first later bar that touches, and lies strictly before the next entry |
| BacktestTrades.EverySignalAccounted | trading-engine/backtest/runner.py:99-151 | each signal starts a trade, falls inside one, or belongs to the position that never exits, which is no trade |
| BacktestTrades.SignalTradesExactlyWhen | trading-engine/backtest/runner.py:99-151 | a signal becomes a trade if and only if no position is open when it comes and some later bar touches its stop or target |
| BacktestTrades.PrefixTrades | trading-engine/backtest/runner.py:99-154 | the trades of a prefix are exactly the whole run's trades that exit inside it |
| BacktestLevels.TradesInRawPrices | trading-engine/backtest/runner.py:99-149 | in highs and lows of the bars: which bars a long and a short stay in, on which they leave, at which prices, and the result and multiple of risk |
| BacktestLevels.NeverTouchedMeans | trading-engine/backtest/runner.py:100-113 | a position that is never closed never sees its levels again, in highs and lows |
| BacktestLevels.TradesMirror | trading-engine/backtest/runner.py:99-149 | negating prices and directions and exchanging highs and lows reflects every trade and keeps its result, without commission |
| BacktestTrades.CostsKeepTiming | trading-engine/backtest/runner.py:99-149 | two cost models give trades with the same entry bars, exit bars and directions |
| BacktestTrades.CostedPnl | trading-engine/backtest/runner.py:116-120 | the result in raw prices: direction times the move, less two slippages, the spread and the commission on both prices |
| BacktestTrades.DearerNeverHelpsExactlyWhen | trading-engine/backtest/runner.py:104-120 | no dearer cost model raises a trade's result if and only if its two raw prices sum to at least zero |
| BacktestTrades.HigherCostsLowerPnl | trading-engine/backtest/runner.py:104-120 | so dearer costs never raise the result of a trade on a usual signal |
| BacktestTrades.HigherCostsLowerTrades | trading-engine/backtest/runner.py:99-149 | the same for every trade of two whole simulations |
| BacktestEquity.EquityCurve | trading-engine/backtest/runner.py:172-176 | adding each result to the suffix from its exit gives, at each bar, the start plus the results of the trades that have exited |
| BacktestEquity.MaxDrawdown | trading-engine/backtest/runner.py:179-182 | the running-peak minimum is the deepest fall below a peak and, on a positive curve, the worst change between any two points in time order |
| BacktestEquity.WorstFromPeaks | trading-engine/backtest/runner.py:179-182 | on a positive curve looking only at running peaks misses no pair of points |
| BacktestEquity.PeakIsWorstExactlyWhen | trading-engine/backtest/runner.py:179-182 | the fall from the peak is at least as deep as the change from a lower point if and only if the curve does not end below zero there |
| BacktestEquity.ProfitFactorMeansProfit | trading-engine/backtest/runner.py:199-205 | with some loss, the unrounded profit factor exceeds one if and only if the final equity exceeds the start |
| BacktestEquity.EquityOfPrefix | trading-engine/backtest/runner.py:172-176 | later bars never change an earlier point of the curve |
| BacktestEquity.HigherCostsLowerEquity | trading-engine/backtest/runner.py:115-176 | dearer costs never raise any point of the equity curve |
| Safety.CheckMeansRightSides | mt5-bridge/mt5_bridge/safety.py:75-108 | for positive levels the check passes if and only if stop and target lie strictly on their sides of the entry |
| Donchian.Signals | trading-engine/strategies/donchian_breakout.py:59-85 | masked writing of longs and then shorts gives one edge-triggered signal per bar, a short overwriting a long |
| Donchian.HighestHighIsMax | trading-engine/strategies/donchian_breakout.py:52-54 | the upper channel is the greatest of the window's highs, and attained |
| Donchian.LowestLowIsMin | trading-engine/strategies/donchian_breakout.py:53-55 | the lower channel is the least of the window's lows, and attained |
| Donchian.SignalsAreSafe | trading-engine/strategies/donchian_breakout.py:63-82 | on real bars each signal passes the bridge's check with its levels strictly on their sides, and has a stop exactly when its exit window is full |
| Donchian.SignalExactlyWhen | trading-engine/strategies/donchian_breakout.py:52-82 | a bar signals if and only if its close breaks out of the highs or lows of the period before it and the bar before did not; with which entry, stop and target |
| Donchian.MinusOneROrGain | trading-engine/backtest/runner.py:104-122 | at zero cost a trade on such levels books exactly -1R at its stop and a gain at its target |
| Donchian.TradesLoseOneROrGain | trading-engine/strategies/donchian_breakout.py:63-82 | so does every trade of the strategy's zero-cost backtest |
| Donchian.SignalsOfPrefix | trading-engine/strategies/donchian_breakout.py:48-68 | no signal depends on a later bar |
| Donchian.BacktestIsCausal | trading-engine/strategies/donchian_breakout.py:48-68 | backtesting a prefix gives exactly the whole backtest's trades that exit in it, and the same equity |
| Sizing.RoundIsLargestStep | trading-engine/risk/position_sizing.py:101-106 | the result is at least the minimum, is within one step below the size when above the minimum, and no step multiple in between fits |
| Sizing.LotsAgreeWhenFitting | trading-engine/risk/position_sizing.py:101-106 | a lot bought with a larger budget that fits a smaller one is the lot the smaller one buys |
| Sizing.MinimumWhenOverrun | trading-engine/risk/position_sizing.py:101-106 | a lot that overruns even the larger budget is the minimum lot |
| RiskManager.Manager.constructor | trading-engine/risk/manager.py:84-86 | starts enabled, with no position and the peak at the initial equity |
| RiskManager.Manager.OnEquityUpdate | trading-engine/risk/manager.py:91-103 | raises the peak, and sets the latch at the drawdown limit; a zero peak stops it before the latch |
| RiskManager.Manager.PositionClosed | trading-engine/risk/manager.py:113-120 | removes the ticket's entries, or all of the symbol without a ticket |
| RiskManager.Manager.CountAll | trading-engine/risk/manager.py:160 | the loop over the lists counts the set of all held positions |
| RiskManager.Manager.CountBucket | trading-engine/risk/manager.py:174-177 | the loop over the bucket's names counts the positions held under those names |
| RiskManager.Manager.EvaluateOrder | trading-engine/risk/manager.py:125-183 | the decision, and that evaluating changes nothing but the day |
| RiskManagerRuns.CapsAlwaysHold | trading-engine/risk/manager.py:110-183 | total, per-symbol and per-bucket counts stay within their limits on every run whose symbols are outside the buckets or written as listed, and whose trimmed approvals open nothing |
| RiskManagerRuns.BucketByNames | trading-engine/risk/manager.py:172-177 | counting by the listed names counts every position of every bucket if and only if all held symbols are outside the buckets or written as listed |
| RiskManagerRuns.CapsSurviveExactlyWhenListed | trading-engine/risk/manager.py:159-183 | on all runs of orders for a symbol and its bucket's listed names the caps hold if and only if the symbol is in no bucket or written as listed, or the bucket limit is zero, at least the total limit, or at least three times the symbol limit |
| RiskManagerRuns.FullPassesExactlyWhen | trading-engine/risk/manager.py:138-183 | with a position count at its limit an order still passes if and only if it risks more than the per-trade cap while trading is on; it is then trimmed the same whatever is held |
| RiskManagerRuns.CapsSurviveExactlyWhenUntrimmed | trading-engine/risk/manager.py:149-157 | where positions are opened on any approval, orders of a given risk, however many, keep the caps if and only if the risk is within the per-trade cap, or zero |
| RiskManagerRuns.DisabledForever | trading-engine/risk/manager.py:140-141 | once disabled, every later order of every run is rejected, on any day |
| RiskManagerHistory.DecisionFromHistory | trading-engine/risk/manager.py:91-183 | the decision from raw history: the equities reported, the results closed today, and the counts; and which limit a rejection names |
| RiskManagerHistory.BookChanges | trading-engine/risk/manager.py:110-120 | closing takes away exactly the positions of that symbol and ticket, opening adds one |
| RiskManagerHistory.BucketsByName | trading-engine/risk/manager.py:67-78 | which names, in any case, belong to which bucket |
| CircuitBreaker.Breaker.constructor | trading-engine/live/circuit_breaker.py:59-66 | starts neither killed nor halted, with all equities at the initial one |
| CircuitBreaker.Breaker.SlippageSample | trading-engine/live/circuit_breaker.py:83-96 | keeps every sample and fixes the baseline once there are enough |
| CircuitBreaker.Breaker.Verdict | trading-engine/live/circuit_breaker.py:101-147 | the verdict and the whole state after it |
| CircuitBreaker.SortedSorts | trading-engine/live/circuit_breaker.py:94-96 | the samples behind the baseline are an ascending rearrangement of those seen |
| CircuitBreakerRuns.BaselineIsFirstMedian | trading-engine/live/circuit_breaker.py:83-96 | on every run the baseline is the upper median of the first samples that suffice; later ones never move it |
| CircuitBreakerRuns.HaltRepeats | trading-engine/live/circuit_breaker.py:101-156 | without realized losses, a halt that nothing but time follows is repeated at every later verdict, on any day |
| CircuitBreakerHistory.VerdictFromHistory | trading-engine/live/circuit_breaker.py:71-156 | the verdict from raw history: a kill for a drawdown now or at an earlier verdict, a halt for the trades closed today, a silent broker, or a last slippage beyond its multiple of the first samples' median |
| CircuitBreakerHistory.UpperMedianMeans | trading-engine/live/circuit_breaker.py:94-96 | the baseline is a sample with at most half of them below it and more than half not above it |
| CircuitBreakerHistory.SmallerSlippageIsNoWorse | trading-engine/live/circuit_breaker.py:131-141 | once the baseline is fixed, a smaller last slippage never turns an OK into a halt |
| CircuitBreakerHistory.ReasonNamesCause | trading-engine/live/circuit_breaker.py:104-147 | the reason kept is that of the first condition that asked, with its figures |
| LiveEngine.Engine.constructor | trading-engine/live/engine.py:89-98 | both latches start from the same default equity |
| LiveEngine.Engine.Connect | trading-engine/live/engine.py:168-199 | connecting restarts the disconnect timer; seeding sets the equities and keeps the default as a floor under both peaks; a failed account query seeds nothing |
| LiveEngine.Engine.SizeAndGate | trading-engine/live/engine.py:306-329 | the lot that is ordered, if any, for a signal in a given risk state |
| LiveEngine.Engine.NewBar | trading-engine/live/engine.py:275-370 | at most that one order is placed; an answer restarts the disconnect timer and a successful fill adds exactly its distance from the entry to the slippages |
| LiveEngine.Engine.Refresh | trading-engine/live/engine.py:263-270 | both latches get the same sample, or neither gets one |
| LiveEngine.Engine.Trade | trading-engine/live/engine.py:223-231 | at most one order and then at most one sample, which comes last |
| LiveEngine.Engine.Iterate | trading-engine/live/engine.py:207-232 | stops exactly on a kill, orders nothing unless the verdict is OK, and what then reaches the latches: the fill's slippage, the account's equity, the time of the answer |
| LiveEngine.Engine.Loop | trading-engine/live/engine.py:204-235 | runs the turns in order up to the first kill; verdicts and samples alternate as the lockstep needs |
| LiveEngine.FirstHaltIsForGood | trading-engine/live/engine.py:216-222 | with a clock that does not go back, after the first halt of a loop every verdict is a halt and nothing is ordered |
| EngineSizing.PipelineClosedForm | trading-engine/live/engine.py:306-329 | size, round, trim and round again equals one rounding of the smaller budget divided by the risk per lot |
| EngineSizing.OrderGoesOutExactlyWhen | trading-engine/live/engine.py:306-329 | an order goes out if and only if the rounded size is positive, the manager enabled, the day's loss below its cap, and either the cap is overrun or no position count is full |
| EngineSizing.PipelineExactly | trading-engine/live/engine.py:306-329 | so what is ordered for every signal with a stop, if anything: what the smaller budget buys |
| EngineSizing.LotMeans | trading-engine/risk/position_sizing.py:101-106 | what a budget buys: whole steps of the budget over the risk per lot, at least the minimum |
| EngineSizing.BudgetsMean | trading-engine/risk/position_sizing.py:43-46 | the two budgets and the risk per lot in raw terms |
| EngineSizing.OrderWithinBudgets | trading-engine/live/engine.py:306-329 | an order risks no more than either budget unless it is exactly the minimum lot |
| EngineSizing.OrderIsLargest | trading-engine/live/engine.py:306-329 | no larger step multiple fits both budgets |
| EngineSizing.EmptyOrderExactlyWhen | trading-engine/live/engine.py:315-329 | an order without size goes out if and only if the minimum lot is not positive and the cap buys less than one step (or, without steps, nothing) |
| EngineSizing.NoEquityNoOrder | trading-engine/risk/manager.py:144-146 | without equity the daily-loss check rejects every order the engine proposes |
| LatchLockstep.LatchesTrack | trading-engine/live/engine.py:189-231 | on every alternating trace both latches follow the running peak of the same samples |
| LatchLockstep.LockstepAfterVerdict | trading-engine/live/circuit_breaker.py:101-114 | after each verdict killed = disabled = some sample was the limit below its running peak |
| LatchLockstep.LockstepIffSeedSound | trading-engine/live/engine.py:189-197 | the latches agree after every verdict of every alternating trace if and only if the seed is not already the limit below the default equity |
| LatchLockstep.TrippedForever | trading-engine/live/circuit_breaker.py:101-114 | once both have tripped, every later verdict is a kill and every order is rejected, across days |
| LatchLockstep.Drive | trading-engine/live/engine.py:180-235 | an engine that is built, connected and run through any turns is in such a tracked state, and its first halt is for good |
| Billing.Service.CheckoutCompleted | backend/app/services/billing_service.py:571-605 | what a checkout does to the user's newest row, or which row it adds |
| Billing.Service.SubscriptionUpsert | backend/app/services/billing_service.py:607-656 | what a subscription event does to the row it selects |
| Billing.Service.SubscriptionDeleted | backend/app/services/billing_service.py:658-676 | what a deletion does |
| Billing.Service.UpsertInvoice | backend/app/services/billing_service.py:708-745 | what an invoice event does for a resolved user |
| Billing.Service.DispatchEvent | backend/app/services/billing_service.py:525-541 | which handler an event type reaches; unknown types change nothing |
| Billing.Service.HandleWebhook | backend/app/services/billing_service.py:471-523 | the outcome of a delivery, and that all but a processed one leave the database exactly as it was |
| Billing.FindByStripe | backend/app/services/billing_service.py:620-625 | the first row with that Stripe id, a missing id matching rows without one |
| Billing.LatestOf | backend/app/services/billing_service.py:288-299 | the user's newest row, whatever its status |
| Billing.FindInvoice | backend/app/services/billing_service.py:714-717 | the first row with that invoice id |
| BillingRuns.OnlyProcessedChanges | backend/app/services/billing_service.py:483-523 | only a processed delivery changes anything, and it carries a new event id and adds exactly that id to the ledger |
| BillingRows.OutcomeExactlyWhen | backend/app/services/billing_service.py:483-523 | which answer a delivery gets, and that a processed one leaves the handler's rows and a ledger row with its type and time |
| BillingRows.DispatchMeans | backend/app/services/billing_service.py:525-541 | which event type has which effect |
| BillingRows.ResolveMeans | backend/app/services/billing_service.py:545-569 | whose event it is |
| BillingRuns.RunEqualsEffective | backend/app/services/billing_service.py:494-523 | any sequence of deliveries ends as if only the effective ones had been sent, and those are all effective there |
| BillingRuns.EffectiveIsFirstAccepted | backend/app/services/billing_service.py:494-515 | the effective delivery of an event id is its first accepted one |
| BillingRuns.EffectiveOnce | backend/app/services/billing_service.py:494-510 | each event id takes effect at most once |
| BillingRuns.DispatchKeepsUnique | backend/app/services/billing_service.py:607-745 | no handler gives two rows the same Stripe subscription id or invoice id |
| BillingRuns.DatabaseStaysConsistent | backend/app/services/billing_service.py:512-523 | over every sequence of deliveries ids stay unique, rows meet the table checks, and every ledger row is marked processed |
| BillingRuns.UpsertSettles | backend/app/services/billing_service.py:607-656 | afterwards exactly one row carries the event's id, with the reported status, and at most that row changed; a row taken over without the id is the user's own |
| BillingRows.UpsertFields | backend/app/services/billing_service.py:611-647 | every field of the row a subscription event writes, new or existing |
| BillingRows.CheckoutFields | backend/app/services/billing_service.py:578-596 | every field of the row a checkout writes |
| BillingRows.InvoiceFields | backend/app/services/billing_service.py:711-745 | every field of the row an invoice event writes |
| BillingRows.InvoiceEventRecorded | backend/app/services/billing_service.py:678-745 | a sound invoice event is processed and leaves its invoice paid or open, as reported |
| BillingRows.DeletionEventCancels | backend/app/services/billing_service.py:658-669 | a sound deletion event is processed, cancels exactly the row with its id and stamps the delivery's time |
| BillingRows.StatusChangesExactlyWhen | backend/app/services/billing_service.py:571-669 | a delivery changes an existing row's status in exactly three cases, and to what |
| BillingRows.DeletionLasts | backend/app/services/billing_service.py:658-669 | after a deletion the row stays cancelled over any deliveries until a subscription event or a one-time payment writes it |
| BillingRuns.PaidCheckoutActivates | backend/app/services/billing_service.py:590-596 | a one-time payment leaves the user's newest row active without an end |
| BillingRuns.InvoiceRecorded | backend/app/services/billing_service.py:708-745 | afterwards exactly one row carries the invoice's id, with the reported status and amount; a payment time is never lost |
| BillingRuns.PaidStaysPaidExactlyWhen | backend/app/services/billing_service.py:684-688 | a paid invoice stays paid over a delivery if and only if that is not a signed, new and undisturbed failure event for it, from a known user and with an amount that is not negative |
| BillingRuns.CheckoutFailsExactlyWhen | backend/app/services/billing_service.py:571-596 | an undisturbed new checkout fails if and only if its user is known and it either asks for a subscription before the user has a row or pays once for something that is no plan |
| BillingRuns.UpsertFailsExactlyWhen | backend/app/services/billing_service.py:607-647 | an undisturbed new subscription event fails if and only if its user is known and its status, or the default for a missing one, is none that the table allows |
| BillingRuns.LatestIsPreferredExactlyWhen | backend/app/services/billing_service.py:288-299 | the row that is found is the documented one if and only if the user's newest row is active or trialing, or none of the user's rows is |
| BillingRuns.NewerRowHidesRunningOne | backend/app/services/billing_service.py:288-299 | two rows for which it is not |
| BillingRuns.UpsertWritesOwnRowExactlyWhen | backend/app/services/billing_service.py:611-641 | a subscription event writes a row of its own user if and only if no other user's row is the first with its Stripe id, a missing id counting as one |
| BillingRuns.UpsertWithoutIdTakesFirstFreeRow | backend/app/services/billing_service.py:611-641 | without an object id that is the oldest row without one |
| BillingRuns.UpsertFollowsIdNotUser | backend/app/services/billing_service.py:620-641 | with an id it is the row that has it, even when the event names another user |
| Lifecycle.Service.CreateInstance | backend/app/services/strategy_service.py:92-135 | the new row takes its status straight from the requested mode |
| Lifecycle.Service.UpdateInstance | backend/app/services/strategy_service.py:217-250 | what each status lets the owner change |
| Lifecycle.Service.GoLiveInstance | backend/app/services/strategy_service.py:254-308 | counting failed checks, the order system's answer, and the fields set on success |
| Lifecycle.Service.RevertToPaper | backend/app/services/strategy_service.py:310-340 | only a live instance moves |
| Lifecycle.Service.StartInstance | backend/app/services/strategy_service.py:352-376 | only a stopped instance moves |
| Lifecycle.Service.StopInstance | backend/app/services/strategy_service.py:378-397 | everything but a killed instance stops |
| Lifecycle.Service.KillInstance | backend/app/services/strategy_service.py:399-420 | the owner's kill works from every status |
| Lifecycle.Service.SoftDeleteUser | backend/app/services/admin_service.py:454-469 | kills what the deleted user has running, and nobody deletes themselves |
| Lifecycle.Service.KillAllOfStrategy | backend/app/services/admin_service.py:935-942 | kills every running instance of one strategy |
| Lifecycle.Service.KillEveryLive | backend/app/services/admin_service.py:1179-1183 | kills every live instance and no paper one |
| LifecycleRuns.KilledForever | backend/app/services/strategy_service.py:224-263 | over every run a killed instance stays killed, with its terms, title and owner |
| LifecycleRuns.BecomesLiveExactlyWhen | backend/app/services/strategy_service.py:254-308 | an instance becomes live if and only if a gated request of its owner got through or it was created live |
| LifecycleRuns.StepKeepsFrozen | backend/app/services/strategy_service.py:227-247 | an operation that leaves an instance live leaves its terms alone |
| LifecycleRuns.LiveStaysFrozen | backend/app/services/strategy_service.py:217-308 | over every run the terms of a live instance are those it became live with; after go-live, those sent on, with every check passed |
| LifecycleRuns.BecomesKilledExactlyWhen | backend/app/services/strategy_service.py:399-405 | an instance is killed by its owner or by a bulk kill that selects it, and by nothing else |
| LifecycleRuns.BecomesPaperExactlyWhen | backend/app/services/strategy_service.py:310-376 | an instance comes to run on paper exactly by its creation, a revert from live, or a start from stopped |
| LifecycleRuns.BecomesStoppedExactlyWhen | backend/app/services/strategy_service.py:378-397 | an instance is stopped by its owner unless killed, and by nothing else |
| LifecycleRuns.EditsExactlyWhen | backend/app/services/strategy_service.py:217-250 | when each of title, parameters, risk and loss limit changes, and to what |
| LifecycleRuns.AddsExactlyWhen | backend/app/services/strategy_service.py:92-135 | which creation adds which instance, and that nothing else adds any |
| LifecycleRuns.AlwaysStamped | backend/app/services/strategy_service.py:294-405 | over every run the times and the kill-switch flag fit the status |
| LifecycleRuns.TimesAreOfRequests | backend/app/services/strategy_service.py:294-405 | the times are those of the request that set them, and only the owner's kill clears the flag |
| LifecycleRuns.AnswersExactly | backend/app/services/strategy_service.py:223-405 | why a request is refused |
| KillSwitch.Switch.EngageGlobal | backend/app/services/admin_service.py:1114-1202 | the approval set, the switch and the instances after a request, for a store that works, is missing or fails at any stage |
| KillSwitch.Switch.DisarmGlobal | backend/app/services/admin_service.py:1205-1273 | the same for disarming, with approvals of its own |
| KillSwitchRuns.EngageOnSingle | backend/app/services/admin_service.py:1127-1157 | a request on at most one approval engages, or leaves exactly its own actor pending for an hour |
| KillSwitchRuns.TwoAdministratorsWithinAnHour | backend/app/services/admin_service.py:1122-1175 | with at least two administrators, after harmless requests, every engagement has an earlier request by another administrator less than an hour before and after the previous engagement |
| KillSwitchRuns.HarmfulKindBreaks | backend/app/services/admin_service.py:1127-1177 | for every other combination of administrator count and store failure, a run with one such request and the store up otherwise in which an engagement has none |
| KillSwitchRuns.RuleSurvivesExactlyWhen | backend/app/services/admin_service.py:1122-1177 | the rule survives all runs with requests of a kind if and only if the store works throughout, or several administrators are needed and it fails from the start |
| KillSwitchRuns.TwoRequestsSuffice | backend/app/services/admin_service.py:1122-1175 | of two requests by different administrators within an hour one engages, or a request in between does, whatever other calls, and harmless requests in time order, lie between |
| KillSwitchRuns.TwoAdministratorsToDisarm | backend/app/services/admin_service.py:1213-1254 | after harmless requests disarming needs two administrators within an hour as well |
| KillSwitchRuns.DisarmRuleSurvivesExactlyWhen | backend/app/services/admin_service.py:1213-1254 | and the same kinds of request, no others, are harmless to it |
| KillSwitchRuns.RunsMirror | backend/app/services/admin_service.py:1127-1225 | exchanging the two kinds of request exchanges the two approval sets, over every run: neither is ever counted for the other |
| KillSwitchRuns.EngagedExactlyWhen | backend/app/services/admin_service.py:1161-1252 | on every run the recorded switch is on if and only if a recorded engagement turned it on and no recorded disarming off since |
| KillSwitchRuns.LiveAfterEngagementIsNew | backend/app/services/admin_service.py:1179-1183 | whatever is live any number of calls after an engagement went live after it |
| Throttle.InvAlwaysHolds | trading-engine/tradingview/client.py:139-158 | on every interleaving permits and callers add up, at most one thread holds the lock, and it admits on time |
| Throttle.ConcurrencyIsBounded | trading-engine/tradingview/client.py:143-158 | never more callers between acquire and release than allowed, and the bounded semaphore is never over-released |
| Throttle.EachCallAdmittedOnce | trading-engine/tradingview/client.py:148-158 | the admissions recorded are those that took place, and between taking and releasing its permit every call is admitted exactly once |
| Throttle.AdmissionsAreSpaced | trading-engine/tradingview/client.py:148-155 | any n + 1 consecutive admissions span at least n spacings, across threads |
| Throttle.SomeThreadCanAct | trading-engine/tradingview/client.py:148-158 | no interleaving deadlocks while a caller is inside |
| PartitionNames.AddMonthsIsPlus | backend/scripts/maintain_partitions.py:65-69 | month arithmetic is addition on a linear index, across years and backwards |
| PartitionNames.ParseInvertsName | backend/scripts/maintain_partitions.py:72-73 | the drop job reads every printed name back to its month, whatever the table is called |
| PartitionNames.NameLayout | backend/scripts/maintain_partitions.py:72-73 | a name is the table, "_y" and four digits that write the year, "_m" and two that write the month |
| PartitionNames.NamesAreInjective | backend/scripts/maintain_partitions.py:72-73 | table and month are both determined by the name |
| PartitionNames.NamesMatchPattern | backend/scripts/maintain_partitions.py:161 | the catalogue query selects the printed names of exactly the proper table names |
| PartitionNames.NameInvertsParse | backend/scripts/maintain_partitions.py:161-177 | a selected name that can be read is the printed name of what was read |
| Partitions.Store.CreateAhead | backend/scripts/maintain_partitions.py:120-144 | creates exactly the missing months from the current one to the horizon; a dry run nothing |
| Partitions.Store.DropOld | backend/scripts/maintain_partitions.py:147-192 | drops exactly the table's readable partitions before the cutoff, in any order; a dry run nothing |
| Partitions.Store.Maintain | backend/scripts/maintain_partitions.py:195-205 | creates, then drops unless skipped, table after table |
| PartitionRuns.MonthsAreCoveredOnce | backend/scripts/maintain_partitions.py:126-142 | a month is covered by exactly one partition if it has one of its own, and else by none |
| PartitionRuns.RunEffect | backend/scripts/maintain_partitions.py:195-205 | a run over all tables adds a range of months to each and takes away the old ones, each table by itself |
| PartitionRuns.TimelyRunsCoverRange | backend/scripts/maintain_partitions.py:120-192 | after timely runs the covered months are one unbroken range |
| PartitionRuns.TimelyMaintenanceCoversOnce | backend/scripts/maintain_partitions.py:120-205 | starting empty, after timely runs each month from the first run or latest cutoff to the horizon is covered exactly once, and no other month is |
| PartitionRuns.RegularRunsAreTimely | backend/scripts/maintain_partitions.py:125-128 | runs at most the look-ahead plus one month apart are timely |
| PartitionRuns.GapExactlyWhen | backend/scripts/maintain_partitions.py:120-192 | a late run leaves a hole if and only if it comes after the covered range and does not drop all of it |

## Left out

- Everywhere: floating-point rounding (prices, money, lots and percentages are exact reals), logging, and audit rows.
- PaperBroker: tick handlers, connection flags, the position listing, open times, the margin figures, and the volume argument of a close, which the code ignores. Positions are values in a map rather than shared objects, so aliasing is not captured. Strings other than the declared sides and order types are not modelled.
- PaperBrokerBands.NoProfitWithoutMovement: asks that a symbol is quoted before its market orders; without a quote they fill at the price they name.
- RiskManagerHistory.DecisionFromHistory: asks, as does CircuitBreakerHistory.VerdictFromHistory, that the dates do not go back; otherwise a date that returns starts again from nothing.
- CircuitBreakerHistory.SmallerSlippageIsNoWorse: says nothing of the sample that itself completes the baseline.
- RiskManagerRuns.CapsSurviveExactlyWhenListed: asks for a positive equity and daily-loss limit at the start, without which no order passes; several unlisted spellings at once are not considered.
- Backtest.SimulateTrades: a missing stop (not a number in the data frame) is an absent value; bars and signals share one index. The table that picks a cost model per asset class is not modelled.
- BacktestTrades.HigherCostsLowerTrades: asks for directions of one unit and for an entry that sums to at least zero with either level; below that a commission is an income, as `DearerNeverHelpsExactlyWhen` shows.
- BacktestEquity.MaxDrawdown: asks that no running peak is zero, which a positive start ensures; there pandas divides by zero. Rounding to four digits, Sharpe and Sortino ratios and the profit factor without losses, which is reported as infinite, are not modelled.
- Donchian.SignalsAreSafe: asks for bars with 0 < low <= high and the close between them; reason strings are not modelled.
- Safety.CheckMeansRightSides: non-positive levels are not checked by the bridge at all, so it speaks of positive ones. The other checks of an order intent are not modelled.
- EngineSizing.PipelineClosedForm: speaks of positive equity, stop distance and pip value, without which the size before rounding is zero or, with a negative pip value and a positive risk, negative.
- RiskManager.Manager: upper-casing is that of the ASCII letters; the text of reasons is not kept. The engine never reports opened positions or closed trades, so the caps are stated about the manager.
- LiveEngine.Engine: heartbeats, threads, bar loading, strategy construction, notifications, closing positions on a kill, and the sleep between turns. A turn's bar, broker answer and account query are inputs, and only the latest signal matters; an answer that cannot be read counts as none. If the bridge refuses the connection the engine does not start. `Apply` gives an equity sample to both latches even at a peak of zero, where the manager's division raises; the floor under the peaks keeps that from happening.
- LatchLockstep.LockstepAfterVerdict: assumes equal drawdown limits for both latches and a sound seed; `LockstepIffSeedSound` shows that the second assumption is needed.
- Billing.Service: signature cryptography, e-mails, normalisation of currencies, column lengths and the stored payload. One delivery is processed at a time, so of the race between two workers only the outcome of the unique key is captured. Unordered queries return the oldest match. An explicit null counts as an absent field, and an empty string as an absent id; for a null amount paid beside an amount due the code records zero.
- Billing.Service: starting trials, creating checkout sessions and the customer portal are not modelled.
- Lifecycle.Service: soft-deleted instances, validation of signal parameters, and the lookups of broker and strategy (folded into whether a creation is accepted). Gate checks are a list of truth values. The order system's answer to a revert is ignored by the code. Cancelling the subscriptions of a deleted user is not modelled.
- KillSwitch.Switch: the stored reason and time. An engaged switch does not keep later requests from going live, because the code does not look at it. The number of administrators is an input of each request.
- Throttle: modelled as a step system because several threads interleave in it. The cache, retries, and an interruption inside the sleep, which would leak a permit, are not modelled.
- Partitions.Store: the SQL that creates, detaches and drops, and the check that a retention is not negative, which the fixed table list satisfies. Dates are limited to the years 1 to 9999, as in the source, where others raise. The number reader covers the names that the catalogue query can select.
- Other strategies, authentication, the bridge's terminal calls, migrations other than the cited checks, health endpoints and the frontend.
