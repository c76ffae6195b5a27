# ArbCore verification model

ArbCore is a triangular-arbitrage engine: it keeps three order books from snapshots and deltas,
looks for a profitable cycle through them, turns it into a three-leg plan, and tracks the plan
until the executor has reported on every leg. This project models that pipeline in Dafny and
proves what each stage, and the stages together, guarantee.

Prices, sizes and amounts are exact (`real`); sequence numbers are 64-bit (`u64`) with the
saturating subtraction of the adapter; a division by zero, which panics in the decimal library,
is the outcome `Panicked`.

| file | what it models |
|---|---|
| `MarketTypes.dfy`, `Wrappers.dfy` | canonical types, failure types, facts about products |
| `Ladder.dfy` | one side of a book: writes, the last-write reading, sorted listings |
| `Fill.dfy` | the market-order walk: optimality, convexity, composition |
| `OrderBook.dfy` | the book object, strict and tolerant deltas, copies |
| `EventLog.dfy`, `SymbolWorker.dfy` | event histories, and the worker loop that refines them |
| `AdapterWiring.dfy` | adapter updates into messages, from updates to the book, sequence drift |
| `TriView.dfy` | best-first views of three books |
| `TriArbitrage.dfy` | the two cycles, no phantom arbitrage, self-financing legs |
| `Planner.dfy` | lot rounding, plans, pre-trade checks, the rounding error bound |
| `Engine.dfy` | the engine object and its critical sections |
| `Protocol.dfy` | all interleavings of detector, monitor, callers and clock |
| `Timeouts.dfy` | registration and scan clocks, cancel requests, over every run |
| `Rollbacks.dfy` | what a failed send can cost over orderly runs |
| `Refinement.dfy` | the engine object's operations as protocol runs |
| `FillLedger.dfy` | the per-leg ledger over every run, order independence |
| `MockExecution.dfy` | the simulated executor, alone and against the engine's ledger |
| `Joint.dfy` | engine and executor as one system, over every run |
| `Pipeline.dfy` | books to detection, detection to completed plan |

Where the code and its own words disagree, the model follows the code:

- The executor's header (`crates/execution/src/mock.rs:24`) says a cancel stops every remaining leg.
  The signal is one-shot, so it cancels exactly one taker leg: `CancelStopsRemainingLegsIffLast`.
- The worker (`crates/marketdata/src/manager.rs:131`) says it buffers deltas until a snapshot is
  applied. It never applies a buffered delta: snapshots and overflow discard the buffer, and the
  delta that overflows it is dropped too: `UnappliedContributeNothing`.
- `min_profit_pct` is documented as a percentage of profit (`crates/strategy/src/config.rs:60`), but the
  check divides by first-leg quantity times implied price. It takes the documented decision at every
  percentage only on losses and when the implied price equals the first leg's price
  (`ChecksJudgeByStartIff`); at ordinary quotes a 3.3% profit passes a 50% threshold
  (`FiftyPercentThresholdPasses`).
- Configuration validation (`crates/strategy/src/config.rs:155-185`) admits fees above 1 and any
  `min_profit_abs`. Detection is free of phantom profit, and of both directions at once, if and only if
  the threshold covers what the fees keep (`SoundIffThresholdCovers`); two fees of 3.0, or no fees and a
  threshold of -1.0, report profit on flat prices (`ValidConfigurationsInventProfit`).
- A reported cycle always ends at exactly its estimated profit, but with fees above 1 it may owe on the
  way: with two fees of 3.0 its first leg leaves a debt of 20000 (`ReportedCycleOverdraws`). It never
  overdraws if and only if the condition of `SelfFinancingIff` on fees and profit holds, and a leg rounded
  by the planner stays within one step of its funds if and only if the fee of the leg before it is at most
  1 (`OverdrawWithinOneStep`).
- A plan whose send fails can time out before its rollback runs, and is then counted both as rejected
  and as cancelled: `FailedSendCanTimeOut`.
- `plans_executed` counts every removal by a report, also of cancelled, rejected and partially
  filled plans, and every `remove_inflight`: `RemovalsCountedOnce`.
- The two `estimate_fill_price` comments name each other's sides (`crates/orderbook/src/orderbook.rs:185`,
  `crates/orderbook/src/orderbook.rs:195`): `Bid` buys from the asks, `Ask` sells into the bids.
- The predecessor of id 0 saturates to 0, so accepted updates with id 0 do not advance the sequence, and
  an update without an id disarms the check for the next one: `DriftBound`, `ZeroIdsStall`,
  `UnnumberedBreaksDrift`.

## Model

| member | source | states |
|---|---|---|
| Ladders.WriteAllReadsLastWrite | crates/orderbook/src/orderbook.rs:102-117 | after any list of delta writes, each price holds the last write to it, is absent if that was a zero, and is untouched if there was none |
| Ladders.LastWriteIsLast | crates/orderbook/src/orderbook.rs:103-109 | the last-write reading is the size at the last position mentioning the price, and is empty exactly when none does |
| Ladders.LoadReadsLastPositive | crates/orderbook/src/orderbook.rs:71-82 | a loaded side holds each price's last positive level and no other price, duplicates and zero levels included |
| Ladders.WriteAllKeepsPositive | crates/orderbook/src/orderbook.rs:103-109 | delta writes without negative sizes keep every stored size positive |
| Ladders.RisingListingUnique | crates/orderbook/src/orderbook.rs:61-64 | a ladder has exactly one listing in ascending price order |
| Ladders.FallingListingUnique | crates/orderbook/src/orderbook.rs:57-60 | a ladder has exactly one listing in descending price order |
| Fill.GreedyIsCheapest | crates/orderbook/src/orderbook.rs:184-193 | buying greedily from an ascending listing costs no more than any allocation of the same quantity within the level sizes |
| Fill.GreedyIsDearest | crates/orderbook/src/orderbook.rs:194-203 | selling greedily into a descending listing earns no less than any allocation of the same quantity |
| Fill.TakesAreAllocation | crates/orderbook/src/orderbook.rs:186-192 | the walk's own takes are such an allocation and cost exactly the notional it reports, so the optimum is attained |
| Fill.UnfilledIsShortfall | crates/orderbook/src/orderbook.rs:206-208 | the walk leaves a remainder exactly when the side is not deep enough, and then by the missing depth |
| Fill.CostIsConvex | crates/orderbook/src/orderbook.rs:186-192 | the cost of buying is a convex function of the quantity over the whole depth |
| Fill.AverageBuyPriceRises | crates/orderbook/src/orderbook.rs:209 | a larger fillable buy never has a lower average price |
| Fill.AverageSellPriceFalls | crates/orderbook/src/orderbook.rs:209 | a larger fillable sale never has a higher average price |
| Fill.FillsCompose | crates/orderbook/src/orderbook.rs:186-192 | filling a + b costs exactly filling a and then b on the remaining listing, and fails exactly when the second part does |
| Fill.BuyingAboveQuote | crates/orderbook/src/orderbook.rs:184-193 | buying never costs less than the whole quantity at the best ask, and costs that exactly when the quantity fits the best level |
| Fill.SellingBelowQuote | crates/orderbook/src/orderbook.rs:194-203 | selling never earns more than the whole quantity at the best bid, and earns that exactly when the quantity fits the best level |
| OrderBooks.OrderBook.constructor | crates/orderbook/src/orderbook.rs:24-36 | a new book is empty, unsequenced and not in need of resync |
| OrderBooks.OrderBook.BestBid | crates/orderbook/src/orderbook.rs:38-44 | the highest stored bid with its size, absent exactly when the side is empty |
| OrderBooks.OrderBook.BestAsk | crates/orderbook/src/orderbook.rs:46-52 | the lowest stored ask with its size, absent exactly when the side is empty |
| OrderBooks.OrderBook.SnapshotCopy | crates/orderbook/src/orderbook.rs:213-221 | lists every stored level exactly, bids falling and asks rising, with the book's sequence |
| OrderBooks.OrderBook.ApplySnapshot | crates/orderbook/src/orderbook.rs:69-87 | replaces the whole state by the snapshot's positive levels and sequence, lowers the flag, always succeeds |
| OrderBooks.OrderBook.ApplyDelta | crates/orderbook/src/orderbook.rs:90-121 | refuses exactly when both numbers are known and differ, then only raising the flag and naming both numbers; otherwise writes every level and takes the delta's sequence |
| OrderBooks.OrderBook.ApplyDeltaWithGapTolerance | crates/orderbook/src/orderbook.rs:126-173 | as above but refuses exactly when the known numbers are more than the tolerance apart, on either side, and a success lowers the flag |
| OrderBooks.OrderBook.EstimateFillPrice | crates/orderbook/src/orderbook.rs:175-211 | rejects non-positive sizes, reports insufficient depth exactly when the opposite side is too shallow, and otherwise fills the whole size at the best notional over every allocation |
| OrderBooks.Walk | crates/orderbook/src/orderbook.rs:186-192 | the loop computes the walk's cost, filled quantity and remainder |
| OrderBooks.ZeroToleranceIsStrict | crates/orderbook/src/orderbook.rs:90-173 | over every run of snapshots and deltas, tolerance 0 decides and writes exactly as the strict apply; the strict flag means refused since the last snapshot, the tolerant one means the last update was refused |
| OrderBooks.CopyRestores | crates/orderbook/src/orderbook.rs:213-221 | reloading a book's copy restores both ladders and the sequence if and only if every size is positive |
| OrderBooks.NegativeSizeBreaksCopy | crates/orderbook/src/orderbook.rs:104-108 | a negative delta size is stored, and that book's copy does not restore it |
| OrderBooks.PositiveSizesKept | crates/orderbook/src/orderbook.rs:74-108 | snapshots always leave positive sizes, and deltas without negative sizes keep them |
| OrderBooks.AcceptedDeltaIsIdempotent | crates/orderbook/src/orderbook.rs:154-167 | writing a just-accepted delta's levels again changes nothing, even with duplicate prices in it |
| OrderBooks.FillThroughDelta | crates/orderbook/src/orderbook.rs:175-211 | estimating a + b equals estimating a, applying that fill's level changes as a delta, and estimating b on the resulting book |
| OrderBooks.LargerFillIsNoBetter | crates/orderbook/src/orderbook.rs:175-211 | on every positive book and either side, a larger fill's average price is never better |
| SymbolWorkers.PerSymbolWorker | crates/marketdata/src/manager.rs:132-226 | over every message stream and every fetch outcome, ladders, sequence, resync flag, buffer and snapshot flag are readings of the event history alone; the buffer is bounded and empty once a snapshot is applied; the book is empty before that; sizes stay positive without negative deltas |
| SymbolWorkers.LoadSnapshot | crates/marketdata/src/manager.rs:166-181 | a snapshot message replaces the book and discards whatever was waiting |
| SymbolWorkers.BufferDelta | crates/marketdata/src/manager.rs:185-200 | before any snapshot a delta waits, or overflows a full buffer, which is emptied and the provider asked |
| SymbolWorkers.SequenceDelta | crates/marketdata/src/manager.rs:203-221 | after a snapshot a delta is applied, or refused and the provider asked; no delta ever waits again |
| SymbolWorkers.ApplyLogged | crates/marketdata/src/manager.rs:203 | a delta is accepted exactly within tolerance of the history's sequence, and the book still shows the extended history |
| SymbolWorkers.Resync | crates/marketdata/src/manager.rs:215-219 | a fetched snapshot replaces the book, a failed fetch leaves it |
| EventLogs.HistoryIsSound | crates/marketdata/src/manager.rs:164-221 | in every history the buffer is within its cap, empty once there is a snapshot, and without a snapshot there are no writes, no sequence and no resync request |
| EventLogs.AfterEvent | crates/marketdata/src/manager.rs:164-221 | how one more event changes each reading; in particular resync is needed exactly when a refusal came after the last applied event |
| EventLogs.DeliveryOutcome | crates/marketdata/src/manager.rs:151-224 | over every run, what one more delivery does: a snapshot is loaded; before any snapshot a delta waits, or empties a full buffer; afterwards it is written exactly when its predecessor is unknown or within the tolerance of the sequence, on either side; a fetched snapshot, the first one included, is loaded and clears the resync flag, a failed fetch after a refusal leaves the flag raised and the book alone |
| EventLogs.UnappliedContributeNothing | crates/marketdata/src/manager.rs:185-200 | refused, buffered and overflowed deltas contribute nothing to ladders or sequence |
| EventLogs.HeldSinceLastApplied | crates/orderbook/src/orderbook.rs:143-147 | ladders and sequence are as the last successful apply left them |
| EventLogs.HistoryIsNonNegative | crates/orderbook/src/orderbook.rs:104-108 | without negative delta sizes no write in any history is negative |
| AdapterWiring.MappingConveys | crates/marketdata/src/adapter_wiring.rs:113-142 | a message goes out under its update's own symbol with the update's own sides and id, as a snapshot exactly when flagged, and a delta claims the id before it, 0 for id 0 |
| AdapterWiring.Forward | crates/marketdata/src/adapter_wiring.rs:54-82 | for any interleaving of symbols, each registered symbol's worker is sent exactly that symbol's updates, in order, and all others are dropped |
| AdapterWiring.WorkFeed | crates/marketdata/src/adapter_wiring.rs:63-142 | from updates to book, over every feed and fetch outcome: each price of each side holds the last write among the positive levels of that side of the last applied snapshot and the same side of the updates accepted after it; every snapshot update is applied, in feed order |
| AdapterWiring.FeedIsNumbered | crates/marketdata/src/adapter_wiring.rs:88-142 | mapped updates are flagged as snapshots exactly when they are, and the deltas all claim the saturating predecessor of an id of at least k exactly when every update carries such an id |
| AdapterWiring.DriftBound | crates/marketdata/src/adapter_wiring.rs:131-138 | over every worker run fed with numbered updates, n deltas accepted since a snapshot at s0 with tolerance G, z of them with id 0, leave the sequence within n * G of s0 + n - z; ids of at least 1 make z zero |
| AdapterWiring.NoToleranceNoDrift | crates/marketdata/src/adapter_wiring.rs:131-138 | with G = 0 the sequence is exactly s0 + n if and only if no update with id 0 was accepted |
| AdapterWiring.ZeroIdsStall | crates/marketdata/src/adapter_wiring.rs:133 | after a snapshot at 0 any number of updates with id 0 is accepted at any tolerance and the sequence stays 0 |
| AdapterWiring.UnnumberedBreaksDrift | crates/orderbook/src/orderbook.rs:134-151 | a worker run with one unnumbered update accepts any id after it at any tolerance, so no drift bound holds without ids |
| TriViews.TakeTop | crates/marketdata/src/triview.rs:189-201 | the first n levels as quotes, in order |
| TriViews.BuildTriView | crates/marketdata/src/triview.rs:179-221 | each side of the view is the first top_n levels of that side of its own snapshot, price and size by index, under its own symbol |
| TriViews.ViewAgreesWithBook | crates/marketdata/src/triview.rs:189-201 | a view of a book's copy is the book's own top n, strictly sorted best-first, with the extreme prices at its heads |
| TriArbitrage.Cycle1Reported | crates/strategy/src/tri_arbitrage.rs:46-101 | cycle 1 is reported exactly when 10000 times the kept fraction times bid_bc exceeds (10000 + threshold) times ask_ab times ask_ac |
| TriArbitrage.Cycle2Reported | crates/strategy/src/tri_arbitrage.rs:111-166 | cycle 2 is reported exactly when 10000 times the kept fraction times bid_ab times bid_ac exceeds (10000 + threshold) times ask_bc |
| TriArbitrage.Cycle1Says | crates/strategy/src/tri_arbitrage.rs:46-101 | every reported cycle 1 buys on AB, buys on AC and sells on BC at those books' quotes, from 10000, each leg sized by what the taker fee leaves of the one before; implied price times ask_ab times ask_ac is bid_bc, and 10000 plus the profit is 10000 times the kept fraction times the implied price |
| TriArbitrage.Cycle2Says | crates/strategy/src/tri_arbitrage.rs:111-166 | likewise for cycle 2: buys on BC, sells on AC and on AB; implied price times ask_bc is bid_ab times bid_ac |
| TriArbitrage.BothInOrder | crates/strategy/src/tri_arbitrage.rs:27-168 | when both cycles are reported, cycle 1 comes first |
| TriArbitrage.NeverBothDirections | crates/strategy/src/tri_arbitrage.rs:46-168 | with positive uncrossed quotes and a threshold that covers the fees, at most one opportunity is returned |
| TriArbitrage.NoPhantomArbitrage | crates/strategy/src/tri_arbitrage.rs:53-139 | quotes consistent with one valuation of the assets return no opportunity when the threshold covers the fees |
| TriArbitrage.UnitFeesAreCovered | crates/strategy/src/tri_arbitrage.rs:34-36 | fees in [0, 1] keep between nothing and the whole, which every non-negative threshold covers |
| TriArbitrage.SoundIffThresholdCovers | crates/strategy/src/config.rs:155-185 | for every configuration: no consistent view is ever reported on, and no uncrossed view in both directions, if and only if 0 <= 10000 + threshold and 10000 times the kept fraction is at most 10000 + threshold |
| TriArbitrage.FlatPricesQuiet | crates/strategy/src/tri_arbitrage.rs:46-168 | at every threshold, flat unit prices return nothing if and only if 10000 times the kept fraction is at most 10000 + threshold, and both directions otherwise |
| TriArbitrage.ValidConfigurationsInventProfit | crates/strategy/src/config.rs:171-176 | two configurations that pass validation and report both directions on flat prices |
| TriArbitrage.SelfFinancingIff | crates/strategy/src/tri_arbitrage.rs:75-163 | at any fees, replaying a reported opportunity's legs along its cycle's route on exactly 10000 USDT ends at 10000 plus the estimated profit with both intermediate assets empty, and never overdraws if and only if the first fee is at most 1, the first two fees together keep no negative part and the end is not a debt |
| TriArbitrage.SelfFinancing | crates/strategy/src/tri_arbitrage.rs:75-163 | with fees in [0, 1] every reported opportunity finances itself |
| TriArbitrage.ReportedCycleOverdraws | crates/strategy/src/config.rs:171-176 | a configuration that passes validation and whose reported cycle owes 20000 BTC after its first leg |
| Planner.RoundingBounds | crates/strategy/src/planner.rs:6-13 | rounding stays within [0, qty], on the step grid, less than one step below |
| Planner.RoundingIsGreatest | crates/strategy/src/planner.rs:10-12 | no grid point up to the quantity is larger |
| Planner.RoundingIdempotent | crates/strategy/src/planner.rs:6-13 | rounding a rounded quantity changes nothing |
| Planner.PlannedQtyBounds | crates/strategy/src/planner.rs:25-34 | a planned quantity exceeds the estimate if and only if a positive minimum size does, and is never a whole step below it |
| Planner.BuildLeg | crates/strategy/src/planner.rs:20-62 | one leg: the code's branches in the code's order, proved to be `PlanLeg`, whose quantity and refusals `PlansAreLotSized` and `LegRefusedIff` state |
| Planner.BuildTradePlan | crates/strategy/src/planner.rs:16-73 | the planned legs in order, or the first failing leg's error |
| Planner.PlansAreLotSized | crates/strategy/src/planner.rs:25-34 | every leg of every built plan orders, with a positive step, the floor of its estimate on the step grid, or exactly a positive minimum size that is above every grid point the estimate reaches; without a step the larger of estimate and minimum size; without a rule the estimate |
| Planner.LotSizedIsUnique | crates/strategy/src/planner.rs:25-34 | no other quantity meets that description |
| Planner.LegRefusedIff | crates/strategy/src/planner.rs:35-51 | a leg is refused if and only if its lot-sized quantity misses a positive minimum notional, which is looked at first, or is not positive, with that error and those amounts |
| Planner.RefusedAtFirst | crates/strategy/src/planner.rs:20-51 | a plan is refused if and only if some leg is, with the first such leg's error |
| Planner.PlanPanicsIff | crates/strategy/src/planner.rs:69 | planning divides by zero if and only if no leg is refused and first-leg quantity times implied price is 0 |
| Planner.PlansCarryProfit | crates/strategy/src/planner.rs:65-72 | a plan carries the opportunity's currency and profit, and its percentage times first-leg quantity times implied price is that profit |
| Planner.PlansAreWellFormed | crates/strategy/src/planner.rs:49-62 | every built plan has one positive-quantity leg per estimate, same symbol, side and price, indexed modulo 256, taker exactly when aggressive |
| Planner.FirstErrorSticks | crates/strategy/src/planner.rs:20-51 | once a prefix of legs is refused the plan is refused with that same error |
| Planner.DetectedAreChained | crates/strategy/src/tri_arbitrage.rs:53-163 | at any fees, each leg of a detected opportunity spends exactly what the one before delivers, and the cycle nets its estimated profit |
| Planner.OverdrawWithinOneStep | crates/strategy/src/planner.rs:20-34 | for any chain of legs, a rounded leg that its minimum size does not oversize overdraws the one before by at most one step of it, through its rate and fee, if and only if that fee is at most 1 |
| Planner.NetAfterRounding | crates/strategy/src/planner.rs:20-34 | unless the first leg is oversized or the last fee is above 1, rounding lowers a chain's net by at most one step of its last leg |
| Planner.RoundedCycle | crates/strategy/src/planner.rs:16-73 | both bounds for every plan built from a detected opportunity, leg by leg: net at least estimated profit minus one last-leg step at its price after fee |
| Planner.ChecksOnDetected | crates/strategy/src/engine.rs:267-284 | on detected opportunities the checks never panic and reduce to profit >= pct * basis |
| Planner.ChecksDecide | crates/strategy/src/engine.rs:267-284 | on any opportunity, without divisions: exactly when the checks panic, and what they decide for a positive and a negative basis |
| Planner.Cycle1Passes | crates/strategy/src/engine.rs:267-284 | on every reported cycle 1 the decision in quotes and fees alone: (kept * bid_bc - ask_ab * ask_ac) * ask_ab >= pct * bid_bc |
| Planner.Cycle2Passes | crates/strategy/src/engine.rs:267-284 | likewise for cycle 2: (kept * bid_ab * bid_ac - ask_bc) * ask_bc >= pct * bid_ab * bid_ac |
| Planner.ChecksJudgeByStartIff | crates/strategy/src/engine.rs:271-281 | the checks compare profit with the percentage of the 10000 start amount at every positive percentage if and only if the profit is not positive or the implied price equals the first leg's price |
| Planner.FiftyPercentThresholdPasses | crates/strategy/src/engine.rs:271-281 | quotes at which a 3.3% profit passes a 50% threshold |
| Engine.StrategyEngine.OnOpportunity | crates/strategy/src/engine.rs:202-261 | one opportunity is counted once; it enters the map exactly when there is capacity, the checks pass, it plans and the send succeeds |
| Engine.StrategyEngine.OnView | crates/strategy/src/engine.rs:174-262 | one view keeps the bound and all existing plans; exactly the opportunities that are accepted, sent and find room after the ones before them enter, each as planned; every other one is counted as rejected; positive quotes never panic |
| Engine.StrategyEngine.Submit | crates/strategy/src/engine.rs:238-260 | registers before sending, with nothing filled, the present time and the configured timeout, and counts a success; undoes and rejects a failed send |
| Engine.StrategyEngine.RemoveInflight | crates/strategy/src/engine.rs:295-300 | removes the plan and counts it executed exactly if it was there |
| Engine.StrategyEngine.HandleExecReport | crates/strategy/src/engine.rs:374-413 | credits the report's leg alone; removes and counts the plan exactly on a cancelled, rejected or partial report or on the fill that covers every leg; the cancel requests grow by exactly the plan's id if it is in flight and the status is rejected or partially filled, and by nothing otherwise |
| Engine.StrategyEngine.CollectOverdue | crates/strategy/src/engine.rs:304-314 | lists exactly the plans whose time since submission exceeds their timeout, each once |
| Engine.StrategyEngine.ScanTimeouts | crates/strategy/src/engine.rs:303-323 | an undisturbed scan leaves exactly the plans whose time since submission is at most their timeout, and sends each of the others one cancel request and counts it once |
| Refinement.OpportunityRefines | crates/strategy/src/engine.rs:202-261 | whatever `OnOpportunity` does without panicking is what a run of consecutive detector steps does |
| Refinement.ReportRefines | crates/strategy/src/engine.rs:374-413 | so is `HandleExecReport`, as a run of monitor steps |
| Refinement.ScanRefines | crates/strategy/src/engine.rs:303-323 | so is every outcome `ScanTimeouts` allows, in whatever order the map lists the overdue plans |
| Refinement.CallerRefines | crates/strategy/src/engine.rs:295-300 | so is `RemoveInflight` |
| Refinement.ExecContinues | crates/strategy/src/engine.rs:148-164 | such steps from a reachable state are the rest of a run, so the protocol's theorems cover the object |
| Protocol.ConcurrencyBound | crates/strategy/src/engine.rs:204-247 | in every reachable state of every interleaving the map holds at most max_concurrent_plans |
| Protocol.Conservation | crates/strategy/src/engine.rs:202-261 | over every interleaving, submitted plus in-window plus lost rollbacks equals in flight plus executed plus cancelled plus being counted, and taken equals rejected plus submitted plus in progress; no failed send means no lost rollback |
| Protocol.FailedSendCanTimeOut | crates/strategy/src/engine.rs:254-259 | for every plan, a run in which its failed send is counted both as rejected and as cancelled, so the lost-rollback term is needed |
| Rollbacks.LostRollbacksAreTimeouts | crates/strategy/src/engine.rs:238-260 | over every run without callers and with reports only on sent plans, a plan is a lost rollback if and only if its send failed, the detector is done with it and it timed out; the lost-rollback term is at most the cancelled counter, and executed plans never exceed submitted ones and the one in progress |
| Protocol.ExactlyOnce | crates/strategy/src/engine.rs:295-323 | every registered plan is in flight or removed, never both, never removed twice |
| Protocol.RemovedForGood | crates/strategy/src/engine.rs:295-323 | over every continuation of a run a removed plan stays out of the map |
| Protocol.RemovalsCountedOnce | crates/strategy/src/engine.rs:295-413 | cancelled counts exactly the timeout removals, executed exactly those by reports and callers |
| Protocol.RemovedIsUntouchable | crates/strategy/src/engine.rs:295-413 | over every run, a report, scan or caller that touches a plan after its removal changes neither map nor counters nor record |
| Protocol.ScanLeavesNothingOverdue | crates/strategy/src/engine.rs:303-323 | however the scan is interleaved, when it ends no plan is in the map whose time since submission exceeded its timeout at the scan's start |
| Protocol.CancelBeforeRemoval | crates/strategy/src/engine.rs:317-400 | every plan removed by timeout, or by a report whose status is rejected or partially filled, has been sent a cancel request |
| Timeouts.EntriesAreTimed | crates/strategy/src/engine.rs:238-247 | over every run, an entry in flight carries the configured timeout, and its submission time is t if and only if the run registered that plan when the clock stood at t |
| Timeouts.TimeoutsAreLate | crates/strategy/src/engine.rs:303-323 | over every run, a plan removed by timeout was registered at some clock that the start of some scan exceeds by more than the configured timeout |
| Timeouts.LateAreRemoved | crates/strategy/src/engine.rs:303-323 | over every run, when a scan ends, every plan registered by its collection whose registration the scan's start exceeds by more than the configured timeout is out of the map |
| Timeouts.RequestsExactly | crates/strategy/src/engine.rs:317-400 | over every run, each plan has been sent exactly one cancel request for every rejected or partially filled report handled in flight and one for every time a scan reached it |
| FillLedger.LedgerIsExact | crates/strategy/src/engine.rs:376-388 | in every reachable state each leg's filled quantity is the sum reported for it, and a plan that left through Filled has every leg covered |
| FillLedger.FullFillsCompleteAtLast | crates/strategy/src/engine.rs:383-388 | full fills of distinct legs, in any order and interleaving, keep the plan in flight exactly until the last one |
| MockExecution.MockExecutor.HandleCancel | crates/execution/src/mock.rs:39-53 | takes the plan's sender out of the map and signals it, touching no other plan |
| MockExecution.MockExecutor.ExecutePlan | crates/execution/src/mock.rs:61-134 | for a taker plan, one report per leg in order, cancelled exactly at the first leg whose check sees a request, and the plan's map entry gone at the end |
| MockExecution.ReportsAccountForLegs | crates/execution/src/mock.rs:71-98 | each leg is reported once, either wholly filled or cancelled with nothing filled |
| MockExecution.CancelStopsRemainingLegsIffLast | crates/execution/src/mock.rs:24-84 | all remaining legs are cancelled if and only if the signal is noticed at the last leg |
| MockExecution.CancelBeforeFirstStillFillsSecond | crates/execution/src/mock.rs:73-98 | a concrete plan cancelled before its first leg whose second leg fills |
| MockExecution.PlanCompletesOnLastLeg | crates/strategy/src/engine.rs:374-413 | a plan whose handled reports are a mock execution's fills, and which only reports remove, leaves exactly on its last leg's report |
| MockExecution.CancelledPlanLeavesAtCancel | crates/execution/src/mock.rs:71-98 | were the signal noticed at leg k with no timeout, the engine would remove the plan on that report and never handle the later fills |
| Joint.EngineRunIsOrderly | crates/demo/src/mock_execution_demo.rs:197-227 | over every run of engine and executor together the engine's steps are an orderly protocol run, and the composed invariants hold |
| Joint.HandledIsMock | crates/execution/src/mock.rs:71-98 | over every run, what the engine has handled of a sent plan is a prefix of that plan's own mock execution, fills in leg order around at most one cancellation |
| Joint.InFlightUntilLastReport | crates/strategy/src/engine.rs:303-413 | over every run, a sent plan is in flight exactly until it times out or its last leg's report is handled |
| Joint.ReportsRemoveOnlyFilled | crates/strategy/src/engine.rs:382-413 | over every run, a report removes a plan only if it is a fill that leaves every leg covered, so `plans_executed` counts exactly the filled plans |
| Joint.DrainedLeavesNothing | crates/execution/src/mock.rs:130-134 | once the executor is done and its reports are handled, no sent plan is left in flight |
| Joint.LateReportsChangeNothing | crates/strategy/src/engine.rs:374-376 | over every continuation, fills and cancellations reported for a plan that has left neither bring it back nor are credited |
| Pipeline.BooksNeverBothDirections | crates/strategy/src/tri_arbitrage.rs:46-168 | three uncrossed positive-price books, viewed at any depth, never show both directions |
| Pipeline.BooksNoPhantomArbitrage | crates/strategy/src/tri_arbitrage.rs:46-168 | three books consistent with one valuation show no opportunity |
| Pipeline.DetectedPlanIsExecutable | crates/strategy/src/planner.rs:16-73 | a detected opportunity's plan has three positive legs, all taker exactly when aggressive |
| Pipeline.EstimateIsUpperBound | crates/orderbook/src/orderbook.rs:175-211 | for legs sized as detection sizes them, walking the books never leaves a leg more than the next one spends; with a last fee of at most 1 it never nets more than the estimated profit, and exactly that if and only if the first leg fits its best level and the last does too or keeps nothing; with a larger last fee and a fitting first leg it nets no more if and only if the last leg fits |
| Pipeline.DetectedEstimateIsUpperBound | crates/strategy/src/tri_arbitrage.rs:53-163 | every opportunity reported on three books' views is sized and quoted so, and on books deep enough walks to at most its estimated profit if the threshold is at least -10000 or the fees are in [0, 1] |
| Pipeline.DetectedPlanCompletes | crates/strategy/src/engine.rs:374-413 | over every run of engine and executor, a detected, planned and sent opportunity is in flight exactly until it times out or its third report is handled |

## Left out

- Decimal rounding, overflow and saturation: arithmetic is exact, so a quotient times its divisor is the dividend; `saturating_add` in the ledger is plain addition.
- LedgerIsExact: does not model the saturation of `saturating_add`, for the same reason.
- WebSocket and REST clients, JSON and decimal parsing, reconnect backoff: a feed is an arbitrary message sequence and a fetch an arbitrary outcome.
- PostgreSQL persistence: it matters only as a point where other steps interleave, which `Protocol` allows.
- Wall-clock values: `last_update_ts` and snapshot ages are not part of the book; the engine's clock is any non-decreasing integer.
- ScanTimeouts: states an uninterrupted scan; interleaved scans are `Protocol`'s.
- Submit: states an uninterrupted rollback; one that finds its plan already removed is `Protocol`'s and `Rollbacks`'s.
- Counter wrap-around at 2^64 and `plans_created`, which nothing updates.
- Concurrent creation of one symbol's worker: the model starts from one running worker.
- ExecutePlan: covers taker legs only; what a passive leg does after the one-shot signal is consumed depends on polling a completed receiver. A request handled before the worker registers its plan has no effect and is not in the schedule. The signals of other plans that the schedule also cancels are `HandleCancel`'s to state.
- TriView polling, back-pressure, logging, TOML loading and the demo binary.
- `max_notional`, `depth_fill_factor` and the risk channels: nothing acts on them. Detection reads prices only; `EstimateIsUpperBound` says what that means for the profit.
- More than one detector: `start` consumes the engine, so the protocol has exactly one.
- PlanCompletesOnLastLeg: takes the handled reports as given; that engine and executor together only ever produce such reports is `Joint`'s.
- CancelledPlanLeavesAtCancel: likewise; in the composed system a noticed cancel always belongs to a plan that has timed out.
- `Joint` starts no plan with a passive leg, as a configuration with aggressive execution never does, and has no callers of `remove_inflight`, which cannot be reached once `start` has consumed the engine. A failed send is possible at any time, whether or not the executor is still listening.
