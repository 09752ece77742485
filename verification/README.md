# The backtest core: a model and its proofs

The repository's `backtester-core` is a discrete-event backtester. Market data enters from sorted tick and per-order
(L3) sources, is merged lazily into one event queue ordered by `(ts, seq)`, and drives one exchange simulator per
symbol. A strategy sees delayed ticks, order reports and funding; it answers with commands, which pass a risk check and
become further events. Fills are booked in fixed-point money, three times over.

This project models that core and proves what it is for.

* **Books and queue models** - `OrderBookL2.dfy`, `OrderBookL3.dfy`, `QueueModel.dfy`: the price-level book, the FIFO
  book, and the fill models, with the in-place loops of the source.
* **Exchange** - `ExchangeSimulator.dfy` (the class and the functions that specify it), `ExchangeProps.dfy` (its
  invariants, the bucket index, cancel races, the two volume models), `Quotes.dfy` (market fills and marks off the
  books), `ReachedExchanges.dfy` (runs that reach its oddities).
* **Money** - `Arith.dfy`, `AvgCost.dfy`, `Account.dfy`, `Stats.dfy`, `RiskGuard.dfy`, `Ledger.dfy`, `RiskFigures.dfy`,
  `SymbolLedger.dfy`, `BookKeeper.dfy`: truncating average cost, fees, the three ledgers, the PnL total and the kill
  switch. 64-bit clamps and saturating sums are written out.
* **Engine** - `EventQueue.dfy`, `Feed.dfy` (gated merge), `EngineSpec.dfy` (the engine as a deterministic state
  machine: handlers, commands, flush, one iteration, runs), `ExchangeBoard.dfy` and `Engine.dfy` (the engine as a class
  that updates its parts in place, every method proved against that state machine), `Backtest.dfy` (a whole backtest).
* **Whole runs** - `EngineClock.dfy`, `Causality.dfy`, `CausalRuns.dfy`, `EndOfStream.dfy`, `QueueViews.dfy`,
  `Lifecycle*.dfy`, `ReportStreams.dfy`, `StreamSteps.dfy`, `EngineMoney.dfy`, `PositionBound.dfy`, `PositionSteps.dfy`,
  `PositionGrowth.dfy`, `EngineInvariant.dfy`, `EngineGuarantees.dfy`, `OrderHistory.dfy`, `OrderFees.dfy`,
  `PlacedOrders.dfy`, `PnlHistory.dfy`, `FillLogs.dfy`, `Batching.dfy`, `BatchDeadline.dfy`, `BatchStrategies.dfy`,
  `Deliveries.dfy`, `MarketViews.dfy`, `AckDelays.dfy`, `RiskLimits.dfy`, `FillTerms.dfy`, `SummaryTotals.dfy`,
  `GuardTotals.dfy`, `DepthKinds.dfy`, `MissedDeadline.dfy`, `DeadlineExact.dfy`, `Termination.dfy`, `EagerRuns.dfy`,
  `TwinRuns.dfy`. All are statements over every run: `After(env, e, n)` is the engine after n iterations, `env` holds an
  arbitrary deterministic strategy and an arbitrary latency draw, and every result is proved from what a start satisfies
  (`EngineInvariant.StartSound`).

What a run assumes, and only where a result needs it: each source is sorted by `(ts_exchange, seq)`; an explicit
`ts_local` is 0 or no earlier than `ts_exchange`; configured latencies are not negative; submitted quantities are
positive; level quantities are not negative; only market data and funding enter from outside; `auto_tune` is off.

Where the code and the obvious reading of its documentation part, the code is modelled:

* A trade that fills part of an order in cancel flight moves it from `PendingCancel` to `PartiallyFilled`, an edge that
  `can_transition_to` does not have (`ExchangeProps.CancelRace`, `ReachedExchanges.CancelCanBeOvertaken`).
* Every resting order sees the full trade quantity (`ExchangeProps.TradePointwise`, `ExchangeProps.TradeFillsShares`,
  `ReachedExchanges.OneTradeFillsTwice`).
* `max_position` does not count open orders (`PositionGrowth.PositionsAreBoundedExactly`).
* Orders in cancel flight are not told of L3 updates (`ExchangeProps.PendingCancelGoesStale`,
  `ReachedExchanges.CacheCanGoStale`).
* The early returns of `step` skip the batch check, so a batch can miss its deadline
  (`MissedDeadline.DeadlineCanBeMissed`; exactly when: `DeadlineExact.DeadlineIsMetExactly`); the return for unknown
  acknowledgements is dead code (`LifecycleSteps.AckFindsOrder`).
* The final flush of `run` shows a strategy that the streams have ended (`EndOfStream.TheEndCanShow`; exactly when:
  `CausalRuns.SameCallsExactly`).

## Model

| member | source | states |
|---|---|---|
| BookL2.OrderBookL2.Apply | backtester-core/src/orderbook_l2.rs:36-48 | A level update leaves exactly the book that sets or, at quantity 0, removes that one level; an update without a side changes nothing. |
| BookL3.OrderBookL3.Apply | backtester-core/src/orderbook_l3.rs:22-68 | A per-order message is refused, or moves the in-place book to the one that differs only in the queue of its price: append, resize in place, remove, and drop a level that empties. |
| BookL3.OrderBookL3.OrdersAhead | backtester-core/src/orderbook_l3.rs:84-100 | The loop collects the queue up to, and excluding, the first entry with the given id. |
| BookL3.ApplyL3Good | backtester-core/src/orderbook_l3.rs:22-68 | Every accepted message keeps every level non-empty and every queued quantity positive. |
| BookL3.UpdateCommutes | backtester-core/src/orderbook_l3.rs:22-114 | Summing levels commutes with updating: the L2 image after a message is the old image after one `apply_l2` of the new level total. |
| BookL3.L3RefinesL2 | backtester-core/src/orderbook_l3.rs:22-114 | Over every accepted message sequence the per-order book and the level book fed with totals agree on `level_qty` at every price and on `best_bid` and `best_ask`. |
| QueueModels.CheckFillInPlace | backtester-core/src/queue_model.rs:30-233 | One method with the in-place `while` of the exact model computes the state and the fill of all four queue models. |
| QueueModels.ConsumeAheadOrders | backtester-core/src/queue_model.rs:253-262 | The in-place loop drops fully traded orders from the front and shrinks the next, leaving exactly what a recursive consumption leaves. |
| QueueModels.FillBounds | backtester-core/src/queue_model.rs:68-233 | No model ever fills a negative amount or more than what remains. |
| QueueModels.ConservativeIsVolumeClock | backtester-core/src/queue_model.rs:59-173 | From one book the two models give the same fill on every trade of every trade sequence, and in total `min(qty, max(0, volume - quantity ahead))`. |
| QueueModels.ModelsAgreeExactly | backtester-core/src/queue_model.rs:59-173 | Whatever quantity a level shows, the two models fill alike on every trade sequence if and only if it is not negative, or the order is for at most one unit (or for no side). |
| QueueModels.ExactNeverLags | backtester-core/src/queue_model.rs:59-290 | After every prefix of trades and venue messages in which no modify at the level of the order enlarges an order ahead, the exact model has filled at least as much as the conservative one. |
| QueueModels.RegisterMatches | backtester-core/src/queue_model.rs:188-194 | Registration copies the level up to, and excluding, the first entry with the id of the order, so the whole level if and only if there is none; it caches the sum; and from a level with distinct ids the cache is a good one. |
| QueueModels.CacheAgreesWithBook | backtester-core/src/queue_model.rs:235-290 | In every trade-free run of messages, from a level with distinct ids, the cached orders ahead stay a prefix of the queue the book shows at that price. |
| QueueModels.CheckFillGood | backtester-core/src/queue_model.rs:196-262 | Trades keep `qty_ahead` equal to the sum of `ahead_orders`. |
| QueueModels.OnL3Good | backtester-core/src/queue_model.rs:235-290 | Deletes and modifies keep `qty_ahead` equal to the sum of `ahead_orders`. |
| Exchanges.ExchangeSimulator.ApplyL2Update | backtester-core/src/exchange_simulator.rs:72-79 | The simulator object ends in exactly the state that differs by the level update. |
| Exchanges.ExchangeSimulator.ApplyL3Update | backtester-core/src/exchange_simulator.rs:94-112 | Every order that still follows the venue is notified exactly once; the book takes the message or the call reports failure. |
| Exchanges.ExchangeSimulator.SubmitOrder | backtester-core/src/exchange_simulator.rs:114-148 | A new order is pending, unfilled, registered against the book, and last in its price/side bucket. |
| Exchanges.ExchangeSimulator.AcknowledgeNew | backtester-core/src/exchange_simulator.rs:150-168 | Only a pending order opens, with one report; otherwise nothing changes. |
| Exchanges.ExchangeSimulator.CancelOrder | backtester-core/src/exchange_simulator.rs:170-182 | A cancel is taken exactly in the states from which the transition table allows it. |
| Exchanges.ExchangeSimulator.AcknowledgeCancel | backtester-core/src/exchange_simulator.rs:184-204 | Only a pending cancel is confirmed; an order that meanwhile filled refuses it and keeps its state. |
| Exchanges.ExchangeSimulator.FillMarketImmediately | backtester-core/src/exchange_simulator.rs:231-299 | A market order takes min(quantity, visible best level), falls back to the given price without a book, or is rejected. |
| Quotes.MarketFillsFromBook | backtester-core/src/exchange_simulator.rs:231-299 | A market buy fills at the lowest ask, a sell at the highest bid, for `min(qty, what stands there)`: of the per-order book if that side has any, else of the levels; with neither, whole at the fallback price; without one it is rejected with `book empty`. |
| Quotes.MarkIsMidway | backtester-core/src/exchange_simulator.rs:81-92 | The mark is half the saturating sum of highest bid and lowest ask, rounded toward zero; it is the best of the one side that has any; an empty book has none. |
| Exchanges.ExchangeSimulator.ForceCancelPartialFill | backtester-core/src/exchange_simulator.rs:301-317 | The remainder is cancelled with one report that fills nothing. |
| Exchanges.ExchangeSimulator.RemoveOrder | backtester-core/src/exchange_simulator.rs:319-333 | The order leaves both the map and its bucket, and nothing else changes. |
| Exchanges.ExchangeSimulator.ProcessTrade | backtester-core/src/exchange_simulator.rs:335-403 | The loop over one bucket leaves the state and the reports, in order, that `OnTrade` names. |
| ExchangeProps.TradePointwise | backtester-core/src/exchange_simulator.rs:335-403 | A trade changes each order as if that order alone had been offered the whole trade quantity; volume is not shared between own orders. |
| ExchangeProps.IndexEqualsScan | backtester-core/src/exchange_simulator.rs:335-403 | With the bucket invariant, the indexed trade gives the same reports in the same order and the same state as offering the trade to every order in id order with no price filter. |
| ExchangeProps.StepKeepsGood | backtester-core/src/exchange_simulator.rs:72-403 | Every operation keeps each bucket listing exactly the live ids at its price and side, once, ascending, and keeps `filled + remaining = qty`. |
| ExchangeProps.RunKeepsGood | backtester-core/src/exchange_simulator.rs:72-403 | So does every run of operations. |
| ExchangeProps.StepTransitions | backtester-core/src/exchange_simulator.rs:150-403 | Terms never change, fills never shrink, terminal orders are frozen, and every state change is in the table of `types.rs` or is `PendingCancel -> PartiallyFilled` by a trade. |
| ExchangeProps.CancelRace | backtester-core/src/exchange_simulator.rs:385-388 | The undocumented edge is taken if and only if a trade fills part, not all, of an order in cancel flight, and the cancel acknowledgement is refused if and only if the trade filled anything. |
| ExchangeProps.QueueModelsIndistinguishable | backtester-core/src/exchange_simulator.rs:114-403 | However an exchange is driven, the two volume models give the same reports and the same orders up to queue state. |
| ExchangeProps.StepKeepsCaches | backtester-core/src/exchange_simulator.rs:94-148 | Inside the exchange every operation but a trade keeps every cache a prefix of the book queue, for orders that still follow the venue. |
| ExchangeProps.RunKeepsCaches | backtester-core/src/exchange_simulator.rs:94-148 | So does every trade-free run of operations of one symbol. |
| QueueModels.UntoldCache | backtester-core/src/queue_model.rs:235-290 | A cache that is not told of a message stays a prefix of the level if and only if the message neither deletes a cached order nor gives one another quantity. |
| ExchangeProps.PendingCancelGoesStale | backtester-core/src/exchange_simulator.rs:94-112 | An order in cancel flight is not told of messages: its cache stays a prefix of its level if and only if the message is for another level or touches none of the cached orders. |
| ReachedExchanges.CacheCanGoStale | backtester-core/src/exchange_simulator.rs:96-99 | A run of operations that reaches an exchange at which such a cache goes stale. |
| ReachedExchanges.CancelCanBeOvertaken | backtester-core/src/exchange_simulator.rs:335-403 | A run of operations that reaches an order of 5 in cancel flight; a trade of 2 leaves it partially filled and its cancel acknowledgement refused. |
| ReachedExchanges.OneTradeFillsTwice | backtester-core/src/exchange_simulator.rs:335-403 | A run of operations after which one trade of 3 fills two own orders of 3. |
| QueueModels.FillsBehindQueue | backtester-core/src/queue_model.rs:68-233 | One law for the three models that fill, with their caches and counters as every run keeps them: a trade that reaches the level fills `min(remaining, max(0, qty - ahead))` and leaves `max(0, ahead - qty)` in front, whichever way the model keeps the quantity ahead. |
| QueueModels.RegistersBehindLevel | backtester-core/src/queue_model.rs:62-194 | A new order is put behind all that rests at its own price on its own side, in whichever book; under the exact model behind what rests ahead of its own id. |
| ExchangeProps.SubmitsBehindBook | backtester-core/src/exchange_simulator.rs:114-148 | A submitted order is pending and unfilled; under the volume models the quantity ahead of it is what rests at its price and side in the per-order book, or in the levels if there is no such book. |
| ExchangeProps.CancelTakenExactly | backtester-core/src/types.rs:90-119 | A cancel is taken if and only if the order is open or partially filled. |
| ExchangeProps.TradeFillsShares | backtester-core/src/exchange_simulator.rs:335-403 | Under every queue model, at every exchange that satisfies the invariant, a trade fills of the own orders, in all, the sum over the bucket of `min(remaining, max(0, qty - ahead))`. |
| Accounts.Account.OnFill | backtester-core/src/account.rs:46-106 | The field-by-field update computes the average-cost law of one fill and its realised profit. |
| Accounts.Account.ApplyFunding | backtester-core/src/account.rs:115-144 | A payment moves the totals and leaves quantity and average price alone. |
| Accounts.FundingPaysByRate | backtester-core/src/account.rs:115-144 | A payment is the rate of the notional, both divided by 10^8 toward zero and the result clamped; at a positive mark longs pay and shorts receive positive rates, and the reverse. |
| SummaryTotals.FundingIsTotalled | backtester-core/src/account.rs:136-144 | At any time in a run the total of the account is the saturating sum of all payments booked so far, and that of each symbol the sum of its own. |
| AvgCost.RoundingBound | backtester-core/src/account.rs:46-106 | Over every fill sequence on which no 64-bit register saturates or clamps, `SCALE * sum(pnl)` differs from `cash flow + qty * avg_price` by at most the sum of `abs(new qty) - 1` per opening or adding fill and `SCALE - 1` per other fill, however much is traded. |
| AvgCost.SlackExactly | backtester-core/src/account.rs:46-106 | While positions and price gaps are 64-bit numbers, every fill stays within its own remainder if and only if no profit is clamped. |
| AvgCost.ClampBreaksBound | backtester-core/src/account.rs:84-90 | A sequence of two fills whose clamped profit breaks the bound. |
| AvgCost.SaturationBreaksBound | backtester-core/src/account.rs:65-74 | A sequence of two fills whose saturated position breaks it. |
| AvgCost.NoClampFires | backtester-core/src/account.rs:28-106 | No register saturates or clamps as long as prices are at most p and positions at most q in magnitude, with `2 p` and `q` at most `i64::MAX` and `2 p q <= SCALE * i64::MAX`. |
| AvgCost.PositionIsNetQty | backtester-core/src/account.rs:46-106 | While no position saturates, the position is the signed sum of the fills. |
| AvgCost.AverageBetween | backtester-core/src/account.rs:57-104 | While a holding is open its average price lies between any two bounds that hold the prices paid, even where the position saturates; a flat holding has none. |
| AvgCost.OpenedAtLastTurn | backtester-core/src/account.rs:57-104 | An open holding is dated by the fill that took it from flat, or from the other side, to the side on which it has been ever since. |
| AvgCost.ProfitUnclamped | backtester-core/src/account.rs:80-90 | One fill against a holding of at most q at prices of at most p realises a profit that its register holds. |
| AvgCost.RoundTripIsCash | backtester-core/src/account.rs:46-106 | Once flat, the profit is the cash, up to the same remainders, on every sequence on which no register saturates or clamps. |
| PnlHistory.AccountMatchesCash | backtester-core/src/account.rs:46-106 | In every reachable state, with every fill kept: for each symbol on whose fills no register saturates or clamps, the position in the account is the sum of the logged fills, and the profit recomputed from the log differs from cash flow plus book value by at most the truncation remainders. |
| SymbolLedger.SymbolGains | backtester-core/src/stats.rs:422-519 | The recomputed profits of one symbol add up to what the average-cost law realises over its fills. |
| SymbolLedger.HoldingTimes | backtester-core/src/stats.rs:422-519 | A fill that realises something has held since the fill that took its symbol to that side; any other has held for no time. |
| Stats.IncrementalStats.OnFill | backtester-core/src/stats.rs:74-146 | The running summary applies the same average-cost law per symbol and counts the trades that close something. |
| Stats.IncrementalStats.OnPnl | backtester-core/src/stats.rs:148-194 | One PnL event updates total, profit and loss sums, win and event counts, running mean, squared deviations and losses, equity, its peak and when it peaked, and the deepest drawdown with its duration; ratios over the reals. |
| RiskFigures.PnlKeepsFigures | backtester-core/src/stats.rs:148-194 | The incremental figures are those of the whole history: mean and sum of squared deviations, squared losses, highest equity, and the deepest fall from an earlier peak with the time it took. |
| RiskFigures.PeakIsFirstHighest | backtester-core/src/stats.rs:172-181 | The peak is the highest point of the equity curve, and its time that of the first such point. |
| SummaryTotals.SummaryIsRecomputed | backtester-core/src/stats.rs:74-194 | In every reachable state, with every fill kept, trade count, fees, gross profit, gross loss, wins and holding time of the summary are those of the stored fills, recomputed; funding moves none of them. |
| Stats.TradeLog.PushFill | backtester-core/src/stats.rs:263-285 | One fill is kept, pushed into the ring behind its oldest, or not kept, as the mode has it, and the summary is fed unless logging is off. |
| Stats.RingHoldsLast | backtester-core/src/stats.rs:269-274 | A ring that holds the last `max(1, cap)` fills of any sequence still does after one more. |
| FillLogs.LogKeepsItsPromise | backtester-core/src/stats.rs:263-285 | From any start, after any number of iterations, the log holds every fill the run has booked, or the last `max(1, cap)` of them, or none, as its mode promises. |
| Stats.TradeLog.PushPnl | backtester-core/src/stats.rs:287-317 | Each PnL event is appended to the history and the summary unless logging is off. |
| Stats.PnlDeltasFromFills | backtester-core/src/stats.rs:422-519 | The loop over mutable lots computes the recursive specification. |
| Stats.PnlDeltasAt | backtester-core/src/stats.rs:422-519 | The i-th recomputed delta depends on exactly the fills before it: it is what the average-cost law realises on the lot they leave. |
| Stats.EquityCurve | backtester-core/src/stats.rs:521-530 | The loop computes the saturating prefix sums. |
| Stats.EquityCurveUnrolled | backtester-core/src/stats.rs:532-569 | The four-at-a-time form computes the same curve. |
| RiskGuards.RiskGuard.Update | backtester-core/src/risk_guard.rs:64-69 | The running PnL saturates and the switch latches. |
| Ledgers.FeeOfSplitOrder | backtester-core/src/engine.rs:114-124 | Filling an order in n pieces at its price costs between `fee(whole) - (n - 1)` and `fee(whole)`. |
| Ledgers.FeeIsBasisPoints | backtester-core/src/engine.rs:114-124 | The fee is `price * qty * bps / (10^8 * 10_000)` rounded down, 0 for rates or prices that are not positive, and `i64::MAX` where it would exceed that. |
| FillTerms.EveryFillIsCharged | backtester-core/src/engine.rs:565-743 | Every fill booked in a run, in any log mode, carries the time of its event and the fee of its own value: at the maker rate if a trade filled it, at the taker rate if it is the fill of a market order. |
| FillTerms.MarketOrdersNeverRest | backtester-core/src/engine.rs:671-743 | In every reachable state no market order can be reached by a trade: it is pending or finished. |
| Ledgers.RecordKeepsBooks | backtester-core/src/engine.rs:580-613 | Recording fills keeps account, summary and stored fills at the same quantity and cost per symbol, and `win_count <= closed_trades`. |
| Ledgers.FundKeepsBooks | backtester-core/src/engine.rs:788-808 | Funding keeps them in step too. |
| Ledgers.SettledHistory | backtester-core/src/stats.rs:422-519 | With all fills kept, the PnL booked for each fill is the delta recomputed from the stored fills less its fee. |
| PnlHistory.HistoryIsRecomputed | backtester-core/src/stats.rs:287-317 | In every reachable state, with every fill kept, the PnL history takes, in order, one entry per stored fill (the recomputed delta less the fee) and one per funding payment booked, and nothing else; `closed_trades` is the number of non-zero recomputed deltas. |
| Ledgers.RecordKeepsTotal | backtester-core/src/risk_guard.rs:34-69 | Guard, summary total, equity and the last point of the curve are one saturating sum of the history; the switch is on exactly when some prefix sum reached a negative loss limit; the peak is the highest point of the curve. |
| GuardTotals.GuardCountsEverything | backtester-core/src/risk_guard.rs:64-69 | In every log mode, after any number of iterations, the total of the guard is the saturating sum of all that was booked, and the switch is thrown if and only if some running total of that reached the loss limit. |
| RiskLimits.EachCommandIsDone | backtester-core/src/risk_guard.rs:34-62 | Each command of a list schedules one event, in its turn. A submit is routed under the next id and sent at once if and only if the switch is off, fewer than `max_open_orders` are tracked (or the limit is 0) and the proposed position is within `max_position` (or that is 0); otherwise it is rejected after the report latency, for the first of these reasons that fails. |
| RiskLimits.TrackedOrdersStayWithinLimit | backtester-core/src/risk_guard.rs:43-45 | In every reachable state no more orders are tracked than `max_open_orders`, for every positive limit. |
| BookKeepers.BookKeeper.RecordFills | backtester-core/src/engine.rs:580-613 | The two loops (log all, then book each) update account, log and guard to exactly the recorded ledger. |
| BookKeepers.BookKeeper.BookFunding | backtester-core/src/engine.rs:788-808 | So does a funding payment. |
| EventQueues.EventQueue.Push | backtester-core/src/event_queue.rs:56-58 | The queue stays in `(ts, seq)` order and holds exactly the one event more. |
| EventQueues.EventQueue.Pop | backtester-core/src/event_queue.rs:60-64 | Nothing leaves exactly if the queue is empty; otherwise the event that leaves is one that no queued event precedes, it is the only one to leave, and the order is kept. |
| EventQueues.PushAllOk | backtester-core/src/event_queue.rs:23-64 | Pushes keep the queue strictly sorted by `(ts, seq)`, numbered below the counter, and at or after the clock. |
| EventQueues.PopCommutesAll | backtester-core/src/event_queue.rs:23-64 | A later push never overtakes the head, so pushing and popping commute. |
| Feeds.Earliest | backtester-core/src/engine.rs:225-246 | The chosen source is minimal by (time, sequence) and, on ties, of lowest index. |
| Feeds.IngestOk | backtester-core/src/engine.rs:443-548 | After ingestion every item left in a source is strictly later than the head of the queue, and the queue is empty only when the sources are. |
| Feeds.IngestedIsDue | backtester-core/src/engine.rs:443-548 | Whatever is ingested happens at the very instant of the next event, so nothing is ingested before it is needed. |
| Feeds.NextItemIsFirst | backtester-core/src/engine.rs:475-548 | The item taken next is the first of all source heads by time and sequence number; an order message goes before a tick that ties with it, a source before any later one. |
| Feeds.PopIsEagerHead | backtester-core/src/engine.rs:443-555 | One lazy pop takes exactly the head of the fully scheduled queue and leaves its tail. |
| Feeds.LazyIsEager | backtester-core/src/engine.rs:443-555 | The first n lazy pops are the first n events of the sorted queue in which every source item was scheduled up front in merge order. |
| Engines.BacktestEngine.constructor | backtester-core/src/engine.rs:300-347 | A fresh engine is the empty state with the configured limits. |
| Backtests.Attach | backtester-core/src/engine.rs:349-358 | Attaching all sources leaves them in the order given, with the symbols of the per-order ones marked and nothing else changed. |
| Engines.BacktestEngine.PushEvent | backtester-core/src/engine.rs:414-421 | An event is numbered by the counter and queued behind everything due no later. |
| Engines.BacktestEngine.IngestNext | backtester-core/src/engine.rs:475-548 | One turn of the loop moves the next due item of the merged streams, L3 first on equal stamps, or reports that none is due. |
| Engines.BacktestEngine.IngestSources | backtester-core/src/engine.rs:443-548 | The loop reaches the fixed point of ingestion. |
| Engines.BacktestEngine.TakeEvent | backtester-core/src/engine.rs:441-555 | Ingestion and pop together take the head of the gated merge, or find that nothing is left. |
| Engines.BacktestEngine.TradeTick | backtester-core/src/engine.rs:559-624 | Trade, jobs, ledger and report events as the state machine has them. |
| Engines.BacktestEngine.DeliverTick | backtester-core/src/engine.rs:625-650 | The view follows; Tick mode calls, Batch mode buffers and arms the timer once. |
| Engines.BacktestEngine.ApplyL2 | backtester-core/src/engine.rs:651-654 | Mixing depth kinds fails; otherwise the level book of the symbol is updated. |
| Engines.BacktestEngine.ApplyL3 | backtester-core/src/engine.rs:655-660 | Likewise for per-order messages, with the message errors of the book. |
| Engines.BacktestEngine.PlaceOrder | backtester-core/src/engine.rs:661-670 | The order is submitted and its acknowledgement queued after one non-negative latency draw. |
| Engines.BacktestEngine.AckOrder | backtester-core/src/engine.rs:671-743 | Unknown ids do nothing; market orders fill, are booked and reported, with the remainder cancelled; limit orders open. |
| Engines.BacktestEngine.RequestCancel | backtester-core/src/engine.rs:744-757 | An accepted cancel queues its acknowledgement after one latency draw. |
| Engines.BacktestEngine.ConfirmCancel | backtester-core/src/engine.rs:758-765 | A confirmed cancel queues its report. |
| Engines.BacktestEngine.DeliverReport | backtester-core/src/engine.rs:766-787 | A terminal report retires the order before the strategy hears of it or the report is buffered. |
| Engines.BacktestEngine.ApplyFunding | backtester-core/src/engine.rs:788-829 | The mark is the last truth price, else the book mid; without either no PnL is booked; the strategy is always called. |
| Engines.BacktestEngine.FlushStrategy | backtester-core/src/engine.rs:900-931 | Ticks then reports are handed over under one set of commands, and the timer is forgotten. |
| Engines.BacktestEngine.HandleCommands | backtester-core/src/engine.rs:856-898 | The loop assigns ids, checks risk, routes, and schedules in command order. |
| Engines.BacktestEngine.Step | backtester-core/src/engine.rs:441-854 | One call is one iteration of the state machine: handled event, idle, or failure, with exactly its state and callbacks. |
| Engines.BacktestEngine.Run | backtester-core/src/engine.rs:423-438 | Whenever the run of the state machine has an end, the nested loops reach it: they end in the state and with the callbacks of that finished (or failed) run. |
| Backtests.Backtest | backtester-core/src/engine.rs:300-438 | From set-up to the end of a run that has one: on success the queue is empty, every tracked order rests in its exchange, the ledgers agree, the strategy was shown every delivered tick in order, and with every fill kept the history is the recomputed one and each order has been booked as it was told. |
| ExchangeBoards.ExchangeBoard.At | backtester-core/src/engine.rs:382-392 | The simulator of a symbol is found or created with the right kind of book; no other exchange changes. |
| EngineClock.AdvanceClock | backtester-core/src/engine.rs:441-854 | Each iteration moves the clock to its event, never back, and every callback carries that time. |
| EngineClock.ClockNeverRunsBack | backtester-core/src/engine.rs:550-555 | In every run simulated time never decreases. |
| Causality.NoLookAhead | backtester-core/src/engine.rs:441-854 | Two engines whose sources agree on every item through T pop the same events, make the same callbacks and pass through the same states for as long as the clock stays within T, whatever comes later. |
| Causality.BeyondForever | backtester-core/src/engine.rs:441-854 | Once a run is beyond T every later callback is. |
| Causality.FinalFlushSeesTheEnd | backtester-core/src/engine.rs:423-438 | Of two engines that agree through T, one drained and one with later items left, the second makes no call by T, and the first makes none by T if and only if it is in Tick mode or has nothing buffered. |
| CausalRuns.SameCallsExactly | backtester-core/src/engine.rs:423-854 | Two finished runs whose sources agree through T make the same callbacks by T if and only if at no iteration exactly one of them has run out of events with a buffer left to hand over by T. |
| EndOfStream.TheEndCanShow | backtester-core/src/engine.rs:423-438 | Two starts whose sources agree through 10: one run is told of the tick at 10 by 10, the other of nothing by 10, however far it goes. |
| EagerRuns.LazyRunsAreEager | backtester-core/src/engine.rs:443-555 | After any number of iterations, whatever the strategy does, in either mode, the market events handled so far followed by those to come are the up-front schedule. |
| EagerRuns.FinishedRunsHandleEverything | backtester-core/src/engine.rs:423-555 | The market events that a finished run has handled, among whatever else, are exactly that schedule, in its order. |
| EagerRuns.StartHoldsEverything | backtester-core/src/engine.rs:414-548 | The schedule is the external events, then the source items in merge order, each behind whatever is due no later. |
| Deliveries.FinishedRunsDeliverEverything | backtester-core/src/engine.rs:443-548 | A finished run has handled, as multisets, exactly the external events, two events per source tick and one per order message: the tick at its exchange time, its delivery at its local time (or one feed latency after the exchange time if that is 0, and then under that time), the message at its exchange time. |
| Deliveries.EveryTickArrives | backtester-core/src/engine.rs:514-531 | So every tick of every source is traded and delivered at those times. |
| Deliveries.TickIsTradedFirst | backtester-core/src/engine.rs:514-531 | Even without latency a tick is queued, and so handled, before its delivery. |
| MarketViews.StrategySeesLastDelivered | backtester-core/src/engine.rs:625-650 | Whatever a strategy is called with, the market it sees is made of the last tick of each symbol delivered so far. |
| MarketViews.MarketOrdersFillFromBook | backtester-core/src/engine.rs:671-743 | Whenever a run acknowledges a market order, it queues after the report latency a report of one fill from the books of that moment, or at the price of the last trade handled. |
| MarketViews.FundingIsMarkedAtLastTrade | backtester-core/src/engine.rs:788-808 | A funding event of a symbol that has traded is booked at the price of its last trade handled, whatever has been delivered. |
| MarketViews.FundingIsAlwaysShown | backtester-core/src/engine.rs:809-829 | Every funding event is shown to the strategy as it is handled, paid or not. |
| AckDelays.AcksAreDrawn | backtester-core/src/engine.rs:661-757 | Every acknowledgement queued in a run stands at `t + max(latency(t, k), 0)`, where t is when the order, or a cancel of an open or partially filled order, was handled and k counts such requests before it. |
| AckDelays.HandledAcksAreDrawn | backtester-core/src/engine.rs:661-757 | So is every acknowledgement that is handled; and every such request has its answer queued. |
| AckDelays.DrawsCountRequests | backtester-core/src/engine.rs:661-757 | Latencies are drawn for those requests and for nothing else. |
| DepthKinds.DepthIsNeverMixed | backtester-core/src/engine.rs:382-412 | In every reachable state no symbol has had both kinds of depth; an exchange has a per-order book if and only if its symbol is one of order messages, and its level book is then empty. |
| DepthKinds.DepthFailsExactly | backtester-core/src/engine.rs:394-412 | Level updates fail if and only if the symbol is one of order messages; order messages if and only if it is one of level updates, its exchange has no per-order book, or the message is malformed. |
| EngineInvariant.StepSound | backtester-core/src/engine.rs:441-854 | Clock, ownership, report streams, ledgers and, under a one-order limit, positions are kept by every step of every strategy. |
| EngineInvariant.StartSound | backtester-core/src/engine.rs:300-421 | Every configured start satisfies them. |
| EngineInvariant.RunKeepsSound | backtester-core/src/engine.rs:423-854 | So does every reachable state. |
| LifecycleRun.HandleLife | backtester-core/src/engine.rs:557-840 | Every handler keeps order ownership. |
| Lifecycle.CommandsLife | backtester-core/src/engine.rs:856-898 | So does every list of commands. |
| LifecycleSteps.AckFindsOrder | backtester-core/src/engine.rs:671-674 | A queued acknowledgement always finds its order routed, live and pending: that early return is dead. |
| EngineGuarantees.LiveOrdersAreTracked | backtester-core/src/engine.rs:661-787 | A live order is tracked and lives only in the exchange it is routed to. |
| EngineGuarantees.TrackedOrdersAreOwned | backtester-core/src/engine.rs:661-787 | A tracked id is either on its way or in its exchange, never both; pending orders have exactly one queued acknowledgement, pending cancels at least one, finished orders exactly one queued terminal report. |
| EngineGuarantees.UntrackedOrdersAreGone | backtester-core/src/engine.rs:766-787 | An untracked id has nothing queued but, at most, its terminal report. |
| EngineGuarantees.DrainedRunsLeaveRestingOrders | backtester-core/src/engine.rs:423-438 | When a run is done only open and partially filled orders are left, each in its exchange. |
| EngineGuarantees.QuantityIsConserved | backtester-core/src/exchange_simulator.rs:150-403 | In every reachable state filled and remaining make up the order, and it is filled exactly when nothing remains. |
| PlacedOrders.EveryPlacedOrderIsTold | backtester-core/src/engine.rs:615-787 | In every reachable state, for every order that reached an exchange, live or retired: delivered and queued reports add up to the quantity that was submitted (`filled_qty` is the sum of `last_fill_qty`, the rest is `remaining_qty`), and nothing follows a terminal one. |
| PlacedOrders.OtherIdsAreHeardOnce | backtester-core/src/engine.rs:856-898 | Any other id has at most one report, a terminal one, and is not tracked once it has. |
| PlacedOrders.ReportsArriveInOrder | backtester-core/src/engine.rs:557-840 | Reports arrive in the order in which they arise: between any two moments of a run, what is delivered or queued of an id at the first is a prefix of what is delivered or queued of it at the second, and of what has been delivered once nothing of it is queued. |
| StreamSteps.HandleStreams | backtester-core/src/engine.rs:557-840 | Every handler keeps that account of every order. |
| EngineGuarantees.LedgersStayInStep | backtester-core/src/stats.rs:74-194 | In every reachable state account, summary and stored fills hold the same positions at the same cost, there is one PnL total, the switch is on exactly when it has met the limit, and the incremental figures are those of the PnL history. |
| EngineGuarantees.PositionNeverExceedsLimit | backtester-core/src/risk_guard.rs:34-62 | With `max_open_orders = 1` and `max_position = M > 0`, `abs(position) <= M` in every reachable state. |
| PositionGrowth.OtherLimitsLetPositionsGrow | backtester-core/src/risk_guard.rs:46-56 | Under every configuration with another open-order limit and any `max_position = M > 0` a run of two market sells reaches a position of -2M, or the least 64-bit number. |
| PositionGrowth.PositionsAreBoundedExactly | backtester-core/src/risk_guard.rs:34-62 | Every reachable state of every run keeps `abs(position) <= M` if and only if `max_open_orders = 1`. |
| EngineGuarantees.KillSwitchIsFinal | backtester-core/src/risk_guard.rs:34-69 | Once killed, always killed: no later state holds an order event or a route that was not there at the time. |
| OrderHistories.StepProgress | backtester-core/src/engine.rs:557-840 | One iteration moves a live order along a documented edge, the one undocumented edge (trades only), or from pending to cancelled (market remainder); a landed id is never used again. |
| OrderHistories.OrdersOnlyProgress | backtester-core/src/types.rs:90-119 | Between any two moments of a run at which an order is live its terms are equal, its fills have not shrunk, and if it had finished nothing changed. |
| OrderHistories.HandleWork | backtester-core/src/engine.rs:557-840 | Each event carries out a definite list of exchange operations on one exchange and touches no other. |
| OrderHistories.WorkIsAllowed | backtester-core/src/engine.rs:661-743 | Those operations always meet what the exchange expects of its caller. |
| TwinRuns.QueueModelIsInvisible | backtester-core/src/queue_model.rs:59-173 | Two whole runs that differ only in using `ConservativeQueue` or `VolumeClockQueue` make the same callbacks and hold the same ledger after every iteration. |
| EngineMoney.TradeNames | backtester-core/src/engine.rs:572-591 | Every report of a trade names a live order and fills part of it at the price of that order. |
| EngineMoney.ReportsDescribeOrders | backtester-core/src/exchange_simulator.rs:150-403 | Whatever an exchange is asked to do, each report it hands back carries the ids its order was submitted with, its state, filled and remaining quantity, and the reason that the operation gives. |
| EngineMoney.HandleMoney | backtester-core/src/engine.rs:557-840 | Every handler keeps the ledgers in step and the PnL total single. |
| PositionSteps.HandlePosition | backtester-core/src/engine.rs:557-840 | Under a one-order limit every handler keeps every position within the limit, whatever the open or arriving order may still fill. |
| OrderFees.HandleLog | backtester-core/src/engine.rs:557-840 | With every fill logged, every handler keeps the log of each live order equal to what it has filled, and the log of each id that has not reached its exchange empty. |
| PlacedOrders.EveryPlacedOrderIsBooked | backtester-core/src/engine.rs:565-613 | In every reachable state, with every fill kept, the fills logged for an order that reached an exchange, live or retired, add up to the filled quantity told of it; a limit order is always filled at its own price and charged the maker fee; nothing is logged for any other id. |
| PlacedOrders.LimitOrderIsChargedOnce | backtester-core/src/engine.rs:114-124 | So a limit order with k fills, live or retired, has been charged between the fee of its whole filled quantity less k - 1 units and that fee. |
| Batching.HandoversConcatenate | backtester-core/src/engine.rs:625-650 | What the strategy was shown, followed by what is buffered, is exactly the processed deliveries (and reports) in order, after every iteration, in both modes. |
| Batching.NothingStaysBuffered | backtester-core/src/engine.rs:423-438 | When a run is done the strategy has been shown all of them. |
| Batching.BatchesWaitForTheirInstant | backtester-core/src/engine.rs:842-851 | At every batch handed over by a step, everything queued and everything left in the sources lies strictly in the future. |
| RiskLimits.BatchCommandsInOrder | backtester-core/src/engine.rs:900-931 | A batch of both shows ticks first and reports second, and carries out the commands given for the ticks before those for the reports. |
| BatchDeadline.DeadlineStep | backtester-core/src/engine.rs:625-650 | One iteration that begins with every buffered tick still on time hands over on time, and leaves them so unless it skips, by an early return, the one event a deferred wakeup was waiting for. |
| BatchDeadline.BatchesMeetTheirDeadline | backtester-core/src/engine.rs:830-851 | A run without such a skip hands every tick over within `ts_local + max_batch_ns`. |
| DeadlineExact.DeadlineIsMetExactly | backtester-core/src/engine.rs:625-851 | A finished run hands every tick over within `ts_local + max_batch_ns` if and only if at no iteration such a skip is followed by another event. |
| DeadlineExact.StartIsOnSchedule | backtester-core/src/engine.rs:300-421 | Every start meets what that theorem asks of the beginning of a run. |
| BatchStrategies.DeadlineIsMet | backtester-core/src/engine.rs:744-748 | If every cancel issued in a funding callback finds its order tracked when it is handled, every tick is handed over within `ts_local + max_batch_ns`. |
| BatchStrategies.CautiousStrategiesMeetIt | backtester-core/src/engine.rs:744-748 | In particular from every start of a strategy that cancels nothing in its funding callback. |
| MissedDeadline.DeadlineCanBeMissed | backtester-core/src/engine.rs:744-748 | A concrete run from the start in which a tick delivered at 10 with a maximum age of 5 is handed over at 100. |
| Termination.StepCloser | backtester-core/src/engine.rs:423-854 | Every iteration that goes on leaves less to come from outside; or as much, and then it asks the strategy about reports only and either a command is issued, or less is queued, or the buffer empties. No condition on the strategy. |
| Termination.RunEndsExactly | backtester-core/src/engine.rs:423-438 | A run ends, in either mode, for any strategy and any sources, if and only if there is a bound on the commands the strategy issues in it. |
| Termination.PaidRunsEnd | backtester-core/src/engine.rs:423-438 | Runs end if commands in answer to reports come out of a budget that such answers never refill; answers to ticks and funding are free and may refill it. |
| Termination.TickStrategiesEnd | backtester-core/src/engine.rs:423-438 | So runs end of every strategy that never answers a report with a command, however it answers ticks and funding. |
| Termination.RunsTerminate | backtester-core/src/engine.rs:423-438 | The special case in which every answer is paid for. |

## Left out

- AvgCost.RoundingBound: stated for fill sequences on which no register saturates or clamps (`AvgCost.Unclamped`); one that does can break the bound (`AvgCost.ClampBreaksBound`, `AvgCost.SaturationBreaksBound`).
- AvgCost.SlackExactly: stated where positions and price gaps are 64-bit numbers; what a saturated position adds to the drift is not characterised.
- Ledgers.FeeOfSplitOrder: stated where the fee of the whole order fits 64 bits; beyond it the source clamps.
- QueueModels.ConservativeIsVolumeClock: traded volumes and queue positions are unbounded integers; the saturating sums of the source are not modelled here.
- PlacedOrders.LimitOrderIsChargedOnce: stated with every fill logged, and where the fee of the filled quantity fits 64 bits.
- Stats.IncrementalStats.OnPnl: mean, squared deviations and drawdown percentage are real numbers here; the rounding of the source's floating point is not modelled.
- PnlHistory.AccountMatchesCash: stated for symbols on whose logged fills no register saturates or clamps, as AvgCost.RoundingBound is.
- Engines.BacktestEngine.Run: asks that the run has an end, which it has exactly when the strategy issues finitely many commands in it (`Termination.RunEndsExactly`); otherwise the source runs for ever too. On an error of the strategy the state left behind is not described.
- Engines.BacktestEngine.Step: timestamps, event numbers, order ids and timer ids are unbounded integers; saturating and wrapping additions on them are not modelled.
- EventQueues.EventQueue.Push: the heap is kept as the sequence it delivers; the layout of binary heaps, tree maps, hash maps and small vectors is not modelled.
- Feeds.Earliest: the source heaps are replaced by a scan for the minimum they would deliver; `next` and `peek` never fail.
- The queue model is one of the four in the repository, not an arbitrary implementation of the trait.
- The account, trade log and risk guard are grouped in one object, and the exchanges in another, which the source keeps as separate fields of the engine.
- The default `on_ticks` and `on_order_updates` that loop over the single-item callbacks: a strategy answers a batch as a whole.
- `auto_tune` and `tuner.rs`: driven by wall-clock time.
- Sharpe, Sortino and Calmar ratios, SIMD and parallel reductions, log-normal latency sampling: floating point.
- Arrow, mmap and asynchronous ingestion, the Python layer, parameter sweeps, GPU and DashMap variants: library plumbing or build variants of the same behaviour.
- Buffer reuse and branch hints: no effect on behaviour.
