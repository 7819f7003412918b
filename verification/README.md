# Models and proofs for the backtester

A Dafny model of the parts of the backtester whose correctness is easy to state and hard to see: the
bar-loop simulator and its three execution shapes, the job protocol with its two stores, the data-structure
refinements around the engine, and two arithmetic cores. Everything is proved for all inputs and, where the
system runs, for all runs. Check it with `dafny verify dfyconfig.toml`.

**The simulator.** `TradingEngine.dfy` is the contract of the portfolio the runner drives: which call creates,
keeps or clears a position and a waiting order; prices, sizing and fees are arbitrary functions. `BarLoop.dfy`
describes one symbol's pass bar by bar; `SymbolRun.dfy` is the runner in its own imperative form, proved to end
where lockstep ends however it batches; `BarMajor.dfy` does the same for the interleaved and the three-phase
loops. `MarketView.dfy` models a strategy as a hook that may look at the market only by asking, so
`NoLookahead.dfy` can say that no strategy sees the future. `BarRules.dfy` says what happens at a bar phase by phase,
in terms of prices, cash, positions and records rather than of the stages' own functions, with `Overlays.dfy` for the
overlay chain; `Prices.dfy` draws from it at which price and on whose authority every fill of a run is made. `Bookkeeping.dfy` and `BarRecords.dfy` account for
every order, fill, trade and record of a run, `JoinedRuns.dfy` and `SymbolMajor.dfy` for runs sharing their lists,
`OrderNames.dfy` for the text of order ids. `CandleData.dfy`, `Indicators.dfy`, `MovingAverage.dfy` and
`IndicatorCatalog.dfy` are the data and indicator accessors with their memory; `AccessorLaws.dfy` and `IndicatorLaws.dfy` say what they answer.

**The job protocol.** `JobTable.dfy` holds rows and the effect of each store call; `JobStores.dfy` is the
in-memory store, `PgJobStore.dfy` the statements of the Postgres store and the ordered bulk updates of its reaper. `JobProtocol.dfy` lets
submitters, workers, reapers, the wake step and cancels take turns, one store call at a time; a step that is
not enabled does nothing, so every sequence of labels is a run; `JobRefinement.dfy` makes each step's call on the
in-memory store. `JobLaws.dfy` and `JobEffects.dfy` say what calls and
steps do to the columns of a row and to the events, with clocks compared as integers; `JobSafety.dfy`, `JobRetries.dfy`
and `JobDeadlines.dfy` prove what holds of all runs.

**Around the engine.** `FundingColumn.dfy` (sparse change points), `Merge.dfy` and `Aggregation.dfy` (per-symbol
lists into one result), `TapeColumns.dfy` (columns and bits), `Paging.dfy` with `PagingLaws.dfy` and `Decimal.dfy` (paged reading),
`Coverage.dfy` (promotion completeness) and `WalkForward.dfy` (fold windows and accounting).

Where the code and its documentation differ the code is followed. The completeness check says it parses the
grid step from the request's timeframe, but uses the dataset's; it takes the step as a parameter here. An order id
is looked up as if it named one order, which it does exactly when no two runs place an order under the same symbol,
bar and tag: a request that repeats a symbol, which submission accepts, can break it.

## Model

| member | source | states |
|---|---|---|
| SymbolRunner.SymbolRun.RunSymbol | apps/backtester/src/engine/runner.ts:688-755 | the batched run of a symbol ends with the module state, portfolio and every list of pure lockstep, for any batch size, any window hint, any stopping choice the executor contract allows and any strategy |
| SymbolRunner.SymbolRun.RunBatch | apps/backtester/src/engine/runner.ts:717-746 | one batched stretch from a flat portfolio equals the same number of lockstep bars |
| SymbolRunner.ExecuteHookBatch | apps/backtester/src/engine/module-executor.ts:59-70 | the batch contract: a stop inside the window, empty answers before it, and the answer and module state of the bar it stopped at |
| SymbolRunner.FlatStretch | apps/backtester/src/engine/runner.ts:718-741 | on a flat stretch with empty answers lockstep never touches the portfolio and reaches the batched module state, so contexts built ahead are the right ones |
| SymbolRunner.QuietStep | apps/backtester/src/engine/runner.ts:425-448 | a lockstep bar that is flat, order-free and unanswered changes nothing but the module state and adds one idle record and one equity point |
| SymbolRunner.StepAfterPreBar | apps/backtester/src/engine/runner.ts:741-741 | repeating settlement and protection on a quiet portfolio changes nothing |
| SymbolRunner.SymbolRun.StepBar | apps/backtester/src/engine/runner.ts:748-751 | one bar outside a batch is one lockstep step |
| SymbolRunner.SymbolRun.Settle | apps/backtester/src/engine/runner.ts:278-354 | settling fills the waiting order, updates the portfolio and marks the order filled, per intent |
| SymbolRunner.SymbolRun.Protect | apps/backtester/src/engine/runner.ts:363-423 | a protection hit records a filled order, its fill and its trade, and closes the whole position |
| SymbolRunner.SymbolRun.ApplyEntryDecision | apps/backtester/src/engine/runner.ts:478-505 | an entry decision is risked on a flat, order-free portfolio only, and places a pending open unless rejected |
| SymbolRunner.SymbolRun.ApplyPositionDecision | apps/backtester/src/engine/runner.ts:538-576 | an exit, an addition or a protection change on an open position without a waiting order |
| SymbolRunner.SymbolRun.Process | apps/backtester/src/engine/runner.ts:450-627 | entry, position, same-bar settlement, funding and equity stages, in that order |
| SymbolRunner.SymbolRun.FinalizeSymbol | apps/backtester/src/engine/runner.ts:666-685 | a waiting order expires, an open position is force-closed, the module is disposed of |
| BarLoop.Steps | apps/backtester/src/engine/runner.ts:425-627 | after every number of bars at most one order waits, for the very next bar; a waiting open means flat, a waiting close or add means a position; nothing waits under same-bar close |
| BarLoop.StepsSplit | apps/backtester/src/engine/runner.ts:705-752 | a run over consecutive bars is the composition of its parts |
| BarRules.StepPasses | apps/backtester/src/engine/runner.ts:425-627 | every lockstep bar is seven things in this order, each said of cash, position, prices and records: a waiting order filled at the open; protection at the level reached; the bar-close decision, its overlays and risk; the position decision; under same-bar close a fill at the close; funding at the close; the equity at the close |
| BarRules.RunPasses | apps/backtester/src/engine/runner.ts:630-755 | every complete run begins with the strategy initialized on the first bar, passes through every bar so, and ends with the open position closed at the last close and the strategy disposed of |
| BarRules.SettlementFills | apps/backtester/src/engine/runner.ts:278-354 | what a fill at a given price is: quote, size and kind per intent, the cash, position and trade it books, and no other change but the status of orders |
| BarRules.GuardingRule | apps/backtester/src/engine/runner.ts:363-423 | protection acts exactly when there is a stop or target and the bar reaches it; it then closes the whole position at the level reached |
| BarRules.EntryRiskRule | apps/backtester/src/engine/runner.ts:474-506 | an entry decision is put to the risk stage on a flat portfolio only, with the equity at the close; what each verdict leads to |
| BarRules.PositionRiskRule | apps/backtester/src/engine/runner.ts:536-576 | the same for exits, additions and protection changes on an open position while no order waits |
| BarRules.ChargingRule | apps/backtester/src/engine/runner.ts:593-622 | an open position is charged once, at the close, with the rate read at the bar within one cadence, or marked uncovered |
| BarRules.FinalizeEnds | apps/backtester/src/engine/runner.ts:666-685 | the forced close is booked at the last closing price and dated at the last bar |
| Overlays.ComposeLaw | apps/backtester/src/engine/overlay.ts:72-127 | overlays are asked in order, each with what the one before left, up to the first veto or failed patch, which leaves no decision; the effects are those of the overlays that answered, in order |
| Prices.RunPriced | apps/backtester/src/engine/runner.ts:278-627 | every fill of a complete run: an ordinary one is quoted at the open of the bar after its decision, under same-bar close at the close of the decision bar, for the side decided and the notional of the risk verdict recorded with that decision; a protection fill at the level its bar reached |
| Prices.BarSound | apps/backtester/src/engine/runner.ts:425-627 | every bar keeps this, and what waits is what was decided and authorized |
| BarMajor.RunBarMajor | apps/backtester/src/engine/runner.ts:840-950 | with hook and overlay state of its own per symbol, interleaved or in three phases, every symbol ends with exactly the state of its own solo lockstep run on a fresh portfolio, and every bar of every symbol is consumed once |
| BarMajor.Interleave | apps/backtester/src/engine/runner.ts:931-941 | the symbols due at one time each take one lockstep step and advance their cursor; the others stay |
| BarMajor.ThreePhase | apps/backtester/src/engine/runner.ts:907-930 | collecting contexts, one batched hook call and processing afterwards is the same as stepping each due symbol on its own |
| BarMajor.ExecuteHookBarMajor | apps/backtester/src/engine/module-executor.ts:147-155 | the batched hook asks every symbol its own module and context and gives back its first decision |
| BarMajor.UnionTimeline | apps/backtester/src/engine/runner.ts:895-904 | the union timeline is strictly increasing and holds every bar time; the index lists, for each time, exactly the symbols with a bar there, once and in order |
| BarMajor.AlongTimeline | apps/backtester/src/engine/runner.ts:905-942 | after the whole timeline every symbol has passed all of its bars |
| BarMajor.LiveLaw | apps/backtester/src/engine/runner.ts:848-872 | the symbols that run are exactly those with bars, in request order |
| NoLookahead.RunsAgreeThrough | apps/backtester/src/engine/runner.ts:705-755 | two complete runs over data agreeing through bar t share the decision records, fills, risk decisions, equity points and funding charges made through bar t; all that follows belongs to later bars |
| NoLookahead.SameStateThrough | apps/backtester/src/engine/runner.ts:705-752 | through bar t the two runs have the same module state, portfolio and lists |
| NoLookahead.StepLocal | apps/backtester/src/engine/runner.ts:425-627 | one bar depends on the state before it and on data up to that bar only |
| NoLookahead.RunContinues | apps/backtester/src/engine/runner.ts:705-755 | later bars and finalization only append, and what they append is dated later |
| MarketView.AnswerIsLocal | apps/backtester/src/engine/context.ts:127-158 | no accessor of a hook context reveals anything after the bar it is asked from |
| MarketView.MarketAnswerIsLocal | apps/backtester/src/engine/market-access.ts:48-166 | as-of and window accessors of open interest, liquidations, funding and taker flow are point-in-time |
| AccessorLaws.WindowLaw | apps/backtester/src/engine/market-access.ts:48-52 | a window has min(lookback, idx + 1) minutes, the last of them the current one; none for a bar off the grid or a lookback below one |
| AccessorLaws.OpenInterestLaw | apps/backtester/src/engine/market-access.ts:151-158 | the as-of point is the bar minute's own, slot i of a window is the point at its minute, and presence is a non-empty window of one |
| AccessorLaws.LiquidationsLaw | apps/backtester/src/engine/market-access.ts:151-162 | the same for liquidations |
| AccessorLaws.TakerLaw | apps/backtester/src/engine/market-access.ts:111-145 | the same for taker flow, which is not offered when the tape does not carry it |
| AccessorLaws.WindowEndsAsOf | apps/backtester/src/engine/market-access.ts:48-52 | the last slot of a window is the as-of answer |
| AccessorLaws.FundingLaw | apps/backtester/src/engine/market-access.ts:100-131 | the funding reading of the bar and the slots of a funding window, absent exactly where the reading is missing; the last slot is the point of the reading |
| AccessorLaws.FundingReadingLaw | apps/backtester/src/engine/market-tape.ts:55-80 | present with the minute's own rate; stale with the held rate only one bar after coverage and within the cadence if one is given; else missing |
| AccessorLaws.OfferedLaw | apps/backtester/src/engine/context.ts:115-158 | market data is offered exactly when there is a tape that carries some kind of it |
| MarketView.HookIsLocal | apps/backtester/src/engine/context.ts:127-158 | a hook that chooses its questions from earlier answers cannot tell apart two tapes that agree through its bar |
| CandleData.DataApi.ClosedCandles | apps/backtester/src/engine/dataset.ts:115-138 | whatever was asked before, the memoized window holds the bars strictly before t |
| CandleData.SmaAsOf | apps/backtester/src/engine/dataset.ts:95-103 | the loop computes the mean of the last closes, absent when the period is not positive or too long |
| MarketView.RunLive | apps/backtester/src/engine/context.ts:82-158 | a hook that asks the live objects, the engine and the memo that outlive its questions, does what it would do on a fresh look at the data |
| Indicators.IndicatorEngine.QueryAt | apps/backtester/src/engine/indicators/engine.ts:85-124 | whatever was asked before, at whatever bars, and whatever was evicted, the answer at bar t is that of an instance fed the candles up to t |
| Indicators.IndicatorEngine.ValueOfKey | apps/backtester/src/engine/indicators/engine.ts:88-123 | cache, forward feeding and replay agree; every kept instance has been fed exactly the candles it says, and no bucket exceeds its limit |
| Indicators.IndicatorEngine.ValueAt | apps/backtester/src/engine/indicators/engine.ts:127-142 | the legacy scalar: positional arguments, absent on refusal or a compound value |
| Indicators.IndicatorsAreLocal | apps/backtester/src/engine/indicators/engine.ts:85-124 | for any backend, no indicator answer at bar t depends on a later candle |
| Indicators.VerdictByKey | apps/backtester/src/engine/indicators/engine.ts:52-82 | requests with the same canonical key get the same verdict, so remembering verdicts by key is sound |
| IndicatorLaws.AcceptsLaw | apps/backtester/src/engine/indicators/validation.ts:39-121 | accepted exactly when the source is offered, given parameters are known and obey their limits, none without a default is left out, and the completed parameters are consistent |
| IndicatorLaws.KeyLaw | apps/backtester/src/engine/indicators/engine.ts:65-67 | the key: defaults under what is given, and the given source or the first offered |
| IndicatorLaws.PositionalLaw | apps/backtester/src/engine/indicators/engine.ts:130-135 | positional argument i goes to parameter name i |
| IndicatorLaws.QueryLaw | apps/backtester/src/engine/indicators/engine.ts:56-124 | unsupported, invalid, or the value of an instance created for the key and given the candles up to and including bar t, one by one |
| IndicatorLaws.LegacyLaw | apps/backtester/src/engine/indicators/engine.ts:127-142 | a number exactly when the query by positional arguments answers one |
| IndicatorLaws.SourceLaw | apps/backtester/src/engine/indicators/backend/platform-native.ts:24-41 | derived sources are the means of their prices |
| IndicatorCatalog.CatalogIsSound | apps/backtester/src/engine/indicators/catalog.ts:16-92 | the committed catalog offers a source for every indicator and its defaults obey its own limits |
| MovingAverage.RingWindow.Push | apps/backtester/src/engine/indicators/formulas/ring.ts:31-39 | the window is the old one with the new element behind it, less the oldest when full |
| MovingAverage.RingWindow.Mean | apps/backtester/src/engine/indicators/formulas/sma.ts:16-27 | absent until the window is full, then the sum from oldest to newest over the period |
| MovingAverage.StreamingEqualsDirect | apps/backtester/src/engine/indicators/formulas/sma.ts:1-6 | the streaming moving average equals the direct one, at every bar and for every period |
| Bookkeeping.RunBooks | apps/backtester/src/engine/runner.ts:278-685 | after every complete run ids are unique and the index agrees with the list; each order has exactly one fill, on time, or is expired with none; trades are the close and protection fills plus at most one forced close |
| SymbolMajor.AllSymbolsBook | apps/backtester/src/engine/runner.ts:789-820 | over all requested symbols, repeated or not, sharing one portfolio and one set of lists: the book is settled if and only if no two runs place an order under the same symbol, bar and tag; trades are then counted with at most one forced close per symbol |
| SymbolMajor.DistinctSymbolsShareNothing | apps/backtester/src/engine/runner.ts:794-819 | requested symbols that are pairwise distinct are enough |
| SymbolMajor.RepeatedSymbolFails | apps/backtester/src/engine/runner.ts:794-819 | a request naming one symbol twice, with a strategy that enters at once, ends with a book that is not settled |
| JoinedRuns.RunAppends | apps/backtester/src/engine/runner.ts:705-755 | a run writes behind whatever is in the lists exactly what it writes into empty ones |
| Bookkeeping.StepKept | apps/backtester/src/engine/runner.ts:278-627 | every bar keeps the ledger: index, waiting order, ids, fills one bar after the decision (same bar under same-bar close or protection) and the trade count |
| Bookkeeping.FinalizeSettles | apps/backtester/src/engine/runner.ts:666-682 | the end of the data leaves nothing waiting and accounts for the forced trade |
| Bookkeeping.FindIsScan | apps/backtester/src/engine/runner.ts:207-223 | in every state of every run, finding an order by the id index is finding it by scanning the list |
| OrderNames.NamesDiffer | apps/backtester/src/engine/runner.ts:225-227 | different symbol, bar or tag gives a different order id text, even for symbols containing dashes or digits |
| OrderNames.NameAtBar12 | apps/backtester/src/engine/runner.ts:225-227 | an instance of the text form |
| BarRecords.StepAdds | apps/backtester/src/engine/runner.ts:425-627 | a bar appends only records dated at that bar, and exactly one equity point |
| BarRecords.RunDated | apps/backtester/src/engine/runner.ts:705-755 | every list of a run is in bar order and stamped with its bars' times, with one equity point per bar |
| FundingColumn.SparseEqualsDense | apps/backtester/src/engine/market-tape.ts:161-208 | at every covered minute the sparse column answers with the dense rate of that minute |
| FundingColumn.HeldRate | apps/backtester/src/engine/market-tape.ts:161-208 | at any minute the change points hold the dense rate of the latest covered minute |
| AccessorLaws.HeldIsLatest | apps/backtester/src/engine/market-tape.ts:161-208 | what the column holds at a minute is a snapshot with the rate of the latest covered minute; after it no minute up to the asked one is covered |
| FundingColumn.BuildFundingColumn | apps/backtester/src/engine/market-tape.ts:161-186 | the single pass with its two running variables yields the change points, strictly ascending |
| FundingColumn.FundingAt | apps/backtester/src/engine/market-tape.ts:187-202 | the binary search returns the last change point at or before the minute |
| FundingColumn.EndStateIsReadingState | apps/backtester/src/engine/market-tape.ts:239-255 | the coverage state at the end is the state of the cadence-free reading at the last bar |
| FundingColumn.ColumnIsLocal | apps/backtester/src/engine/market-tape.ts:55-80 | what the column answers depends on no later funding or bar minute |
| Merge.MergeByKey | apps/backtester/src/engine/bar-major-aggregate.ts:52-91 | for any lists, sorted or not, the result reads off every item once in the order of key, list index, position |
| Merge.MergedUnique | apps/backtester/src/engine/bar-major-aggregate.ts:33-51 | there is only one such list, so the pointer merge and the full sort agree |
| Merge.MergeSorted | apps/backtester/src/engine/bar-major-aggregate.ts:72-90 | the N-pointer merge of presorted lists |
| Aggregation.AggregateEquityCurve | apps/backtester/src/engine/bar-major-aggregate.ts:10-31 | one point per distinct time, strictly increasing; each the sum of the latest equities at or before it, the initial equity before a first bar; the last the sum of final equities |
| Aggregation.HeldIsLatest | apps/backtester/src/engine/bar-major-aggregate.ts:20-27 | on a curve in time order the pointer holds the latest equity at or before the time |
| Aggregation.SumIsFinal | apps/backtester/src/engine/bar-major-aggregate.ts:17-30 | at or after all bars the sum is that of the final equities, for curves in any order |
| Aggregation.LatestLaw | apps/backtester/src/engine/bar-major-aggregate.ts:20-27 | the latest equity is that of the last point not later than the time, and the initial equity where there is none |
| Aggregation.SumLaw | apps/backtester/src/engine/bar-major-aggregate.ts:17-30 | a curve adds what it holds, wherever in the list it stands |
| Aggregation.MergeAccumulators | apps/backtester/src/engine/bar-major-aggregate.ts:112-123 | each list merged by its own key and shown to ascend in its field: orders in decisionBar, risk records in barIndex, trades in exitTs, decisions in barTs, fills and funding in ts, equal values in symbol order and then list order; issues symbol by symbol; the equity curve aggregated |
| Aggregation.MergeUnique | apps/backtester/src/engine/bar-major-aggregate.ts:112-123 | the merge is a function of the symbols' lists alone |
| Aggregation.RunListsPresorted | apps/backtester/src/engine/bar-major-aggregate.ts:100-123 | when bar times increase, every list a run feeds to the merge is already sorted by its merge key and its equity curve ascends |
| Aggregation.BarMajorBacktest | apps/backtester/src/engine/runner.ts:840-963 | the merged artifacts of a bar-major backtest are the merge of the solo runs, ascending in the same fields, whichever execution shape is chosen |
| JobStores.InMemoryJobStore.InsertOrGet | apps/backtester/src/jobs/job-store.ts:192-209 | a known key re-attaches and changes nothing; otherwise a fresh accepted row is added under its run id and key |
| JobStores.InMemoryJobStore.TransitionTo | apps/backtester/src/jobs/job-store.ts:233-270 | compare-and-set on status, allowed edge and lease holder; only then is the row changed, as the patch says |
| JobStores.InMemoryJobStore.ClaimNextQueued | apps/backtester/src/jobs/job-store.ts:272-300 | the claimed row is the head of the queue: no queued row has a smaller queue time (acceptance time where it was never queued), nor at equality a smaller run id text; it is started under the lease; none only if nothing is queued |
| JobTable.HeadUnique | apps/backtester/src/jobs/job-store.ts:277-284 | the queue has a single head |
| JobLaws.HeadByColumns | apps/backtester/src/jobs/job-store.ts:277-284 | the head comes no later than any queued job, by the columns and by code units |
| JobLaws.TextLessMeans | apps/backtester/src/jobs/job-store.ts:282-282 | run ids compare by the first code unit that differs |
| JobLaws.ClaimLaw | apps/backtester/src/jobs/job-store.ts:286-299 | a claim starts the run clock and, with a lease, charges the attempt unless coalescing defers it |
| JobLaws.PatchLaw | apps/backtester/src/jobs/job-store.ts:240-268 | a transition changes exactly the columns its patch names, the status, and the timeline by at most one public entry |
| JobLaws.FreshLaw | apps/backtester/src/jobs/job-store.ts:199-208 | a submitted job is accepted, not yet queued, unleased and uncharged, with its own deadlines |
| JobLaws.Lifecycle | apps/backtester/src/jobs/lifecycle.ts:19-39 | a status is terminal exactly when nothing leads out of it; which statuses each may follow |
| PgJobStores.PgJobStore.TransitionTo | apps/backtester/src/jobs/pg-job-store.ts:213-282 | the guarded update hits one row or none, exactly when the in-memory compare-and-set succeeds, and leaves the same table |
| PgJobStores.StatementApplies | apps/backtester/src/jobs/pg-job-store.ts:229-252 | the coalescing assignments of the update are the in-memory patch |
| PgJobStores.PgJobStore.ClaimNextQueued | apps/backtester/src/jobs/pg-job-store.ts:284-312 | the selected row is claimed with its deadline, lease and attempts, and no other row changes |
| PgJobStores.ClaimsAgree | apps/backtester/src/jobs/pg-job-store.ts:298-308 | the claim statement leaves the row of the in-memory claim exactly when a lease is taken or there was no lease to clear |
| PgJobStores.SameHead | apps/backtester/src/jobs/pg-job-store.ts:291-297 | without locks it selects the in-memory head, provided the database orders the run ids of equally old jobs as code units do |
| PgJobStores.SelectedByColumns | apps/backtester/src/jobs/pg-job-store.ts:291-297 | a row is selected if and only if it is queued and unlocked, and no unlocked queued row was queued, or accepted if never queued, earlier, or at the same time sorts before it |
| JobStores.InMemoryJobStore.RenewLease | apps/backtester/src/jobs/job-store.ts:302-306 | renewal moves the expiry of the worker's running rows and nothing else |
| JobLaws.RenewLaw | apps/backtester/src/jobs/job-store.ts:302-306 | a renewed lease holds until the new expiry and no longer |
| JobStores.InMemoryJobStore.ReapDeadlines | apps/backtester/src/jobs/job-store.ts:342-428 | every row ends as the per-row verdict says; exactly the ended rows are returned, once each, in final form |
| JobStores.InMemoryJobStore.ReapOne | apps/backtester/src/jobs/job-store.ts:352-425 | the decision tree for one row |
| JobStores.InMemoryJobStore.ReleaseAllComputeWaiters | apps/backtester/src/jobs/job-store.ts:434-452 | exactly the waiters of the identity are queued, keeping their queue time, and counted |
| JobStores.InMemoryJobStore.ElectOneComputeWaiter | apps/backtester/src/jobs/job-store.ts:454-473 | one waiter of the identity is queued, none of them having a smaller queue time or at equality a smaller run id; none only if there is no waiter |
| JobStores.InMemoryJobStore.PoisonComputeWaiter | apps/backtester/src/jobs/job-store.ts:475-484 | a row is returned exactly when the compare-and-set on the waiting status succeeded |
| JobTable.ReapsMeansEnds | apps/backtester/src/jobs/job-store.ts:342-428 | a row is reaped exactly when this reap takes it from a live to a terminal status; terminal rows are untouched |
| JobLaws.NothingDue | apps/backtester/src/jobs/job-store.ts:342-428 | a reap at a time at which no deadline of the row and no lease has passed changes nothing |
| JobLaws.QueueDeadlineLaw | apps/backtester/src/jobs/job-store.ts:353-362 | a job that has not started expires if and only if its queue deadline has passed |
| JobLaws.LeaseLaw | apps/backtester/src/jobs/job-store.ts:363-408 | a running job whose lease has passed fails when its count of waits or attempts is used up, and goes back to the queue without its lease otherwise |
| JobLaws.RunDeadlineLaw | apps/backtester/src/jobs/job-store.ts:409-425 | a job with a good lease, or a parked one, times out if and only if its run deadline has passed |
| JobLaws.WakeLaw | apps/backtester/src/jobs/job-store.ts:434-473 | a woken waiter keeps its queue time and counters, and its next attempt is uncharged |
| PgJobStores.PgJobStore.ReapDeadlines | apps/backtester/src/jobs/pg-job-store.ts:395-488 | the ordered bulk updates change every row exactly as the per-row decision tree does and return the same set of ended rows |
| PgJobStores.PassesAddUp | apps/backtester/src/jobs/pg-job-store.ts:402-484 | the six passes over a row add up to its single verdict, for every flag and cap |
| PgJobStores.ReturnedOnce | apps/backtester/src/jobs/pg-job-store.ts:402-487 | exactly one returning statement answers with an ended row, in its final form |
| PgJobStores.ReapBoth | apps/backtester/src/jobs/pg-job-store.ts:395-488 | started on the same jobs, both stores end with the same jobs and report the same rows |
| JobProtocol.RowsStep | apps/backtester/src/jobs/lifecycle.ts:19-39 | every step of every participant moves each row along an allowed edge or not at all, never touches a terminal row, and extends the timeline by at most the public form of the new status |
| JobRefinement.Perform | apps/backtester/src/jobs/job-store.ts:192-484 | each step's store call, made on the in-memory store, performs that step, on the job the store chooses for a claim or an election, and leaves exactly the table the protocol says |
| JobEffects.ChargeLaw | apps/backtester/src/jobs/worker.ts:1063-1071 | charging counts one attempt more than the worker saw, only while the job runs under its lease |
| JobEffects.DeferLaw | apps/backtester/src/jobs/worker.ts:1113-1128 | a parked follower waits for its identity with one compute wait more, uncharged, still running to the outside |
| JobEffects.EnqueueLaw | apps/backtester/src/jobs/submit.ts:325-325 | an accepted job, and no other, enters the queue with its queue time |
| JobEffects.CancelLaw | apps/backtester/src/api/server.ts:183-189 | a cancel closes a live job that is still in the status the caller saw |
| JobEffects.PoisonLaw | apps/backtester/src/jobs/job-store.ts:475-484 | poisoning fails a parked follower and owes its notice, or does nothing |
| JobEffects.ResumeLaw | apps/backtester/src/jobs/job-store.ts:193-198 | submissions with the same resume token are one job; without tokens the run ids decide |
| JobEffects.CommitPublishes | apps/backtester/src/jobs/worker.ts:1428-1513 | a worker whose terminal write goes through publishes exactly the event of its run with the status it wrote; one that is refused publishes nothing |
| JobEffects.ReapPublishes | apps/backtester/src/jobs/completion.ts:115-120 | a reap that publishes what it returned adds one event for every job it ended, with the status it gave it, and no other |
| JobSafety.TerminalIsFinal | apps/backtester/src/jobs/job-store.ts:233-270 | once terminal, a row never changes again in any continuation: status, result and code |
| JobSafety.EndsOnce | apps/backtester/src/jobs/job-store.ts:233-270 | over any run exactly one terminal transition of a job succeeds if it is terminal, and none otherwise |
| JobSafety.TerminalWriteNeedsLease | apps/backtester/src/jobs/worker.ts:1428-1471 | a worker's terminal write changes a row exactly when it is the worker's own, running, and (for a leased worker) leased to it |
| JobSafety.ReachableRows | apps/backtester/src/jobs/lifecycle.ts:46-53 | in every reachable state each row's last timeline entry is the public form of its status, the waiting status never appears, and the deadlines the reaper needs are set |
| JobSafety.OneEventPerRun | apps/backtester/src/jobs/completion.ts:84-120 | under any interleaving of worker, reaper and wake publishers at most one completion event per run is published, and it tells the status the run keeps forever |
| JobSafety.NextEventsOk | apps/backtester/src/jobs/worker.ts:1512-1513 | each step keeps notices true, owed by at most one publisher, and published at most once |
| JobSafety.ReapEnds | apps/backtester/src/jobs/completion.ts:115-120 | a reaper owes notices only for rows its own reap ended |
| JobSafety.PoisonEnds | apps/backtester/src/jobs/job-store.ts:475-484 | the wake step owes a notice only for a row its own poisoning ended |
| JobRetries.ClaimsAreBounded | apps/backtester/src/jobs/job-store.ts:272-300 | with leases, no coalescing and every attempts cap at most M, no job is claimed more than max(1, M) times |
| JobRetries.RequeuesAreBounded | apps/backtester/src/jobs/job-store.ts:363-408 | with coalescing, wait cap W and attempts cap M, and no worker re-claiming a job its own earlier claim still works on, the reaper sends a job back at most 1 + W + M times |
| JobRetries.AllowanceStep | apps/backtester/src/jobs/worker.ts:1063-1071 | no step adds to the measure over attempts, compute waits and the three-valued charge flag, and every requeue takes from it |
| JobRetries.OrderlyStep | apps/backtester/src/jobs/worker.ts:1063-1128 | while an uncharged claim stands, the counters are the ones the worker saw |
| JobRetries.TallyStep | apps/backtester/src/jobs/job-store.ts:233-428 | what each step does to the retry counters of a row |
| JobDeadlines.NoJobStranded | apps/backtester/src/jobs/job-store.ts:342-428 | from every reachable state, two reaps past a job's deadlines with no claim in between leave it terminal, whatever the flag, the caps and the other steps |
| JobDeadlines.ReapSettles | apps/backtester/src/jobs/job-store.ts:342-428 | the first such reap leaves a job terminal or back in the queue |
| JobDeadlines.NoEarlyReap | apps/backtester/src/jobs/job-store.ts:342-428 | in any state a reap changes a job only if by its clock the queue deadline, the run deadline or the lease of the job has passed |
| Paging.PagingRefinesDirectReading | apps/backtester/src/data/http-data-port.ts:155-198 | client and reference server together yield exactly the rows of a direct query, in order, if and only if the caps have room; otherwise an overflow after a prefix; a cycle is never reported |
| Paging.WholeReadIsBounded | apps/backtester/src/data/http-data-port.ts:155-198 | against any server at most maxPages + 1 page requests and at most maxRows rows |
| Paging.QueryRange | apps/backtester/src/data/http-data-port.ts:155-198 | the paging loop is the recursion over requests, with its caps, cursor and seen set |
| PagingLaws.ReadingLaw | apps/backtester/src/data/http-data-port.ts:155-198 | against any server and deadline: the read goes past pages asked for with the cursor of the page before, within the caps and never with a used cursor, and ends too late, refused, over a cap, at the last page, or at a page naming a used cursor, handing over the rows of every accepted page that has any |
| PagingLaws.PageSizeLaw | apps/backtester/src/data/data-api-server.ts:64-70 | the page size asked for, a thousand if none was, at least one and at most the cap |
| Paging.ServePage | apps/backtester/src/data/data-api-server.ts:53-85 | the handler answers with the page of the concatenated batches, whatever the batch boundaries, and a cursor exactly when more rows follow |
| Paging.NoProgressIsReported | apps/backtester/src/data/http-data-port.ts:188-195 | a server whose page cap is below one is reported as a cycle at the second page, without a row |
| Paging.PagesNeeded | apps/backtester/src/data/data-api-server.ts:64-84 | the number of pages is the least that holds all rows |
| Paging.ResilientRequest | apps/backtester/src/data/http-data-port.ts:92-145 | at most maxAttempts attempts; ends with a body, a permanent refusal, the deadline, or the last cause |
| Paging.OneOutcome | apps/backtester/src/data/http-data-port.ts:92-145 | those cases fix the result and the number of attempts |
| PagingLaws.RetryLaw | apps/backtester/src/data/http-data-port.ts:119-141 | what is retried, exactly, and the cause each refusal is reported under |
| Paging.QueryRangeOverWire | apps/backtester/src/data/http-data-port.ts:92-198 | a whole read with its retries makes at most (maxPages + 1) * maxAttempts fetches and is the read of the retried answers |
| Decimal.RoundTrip | apps/backtester/src/data/data-api-server.ts:64-84 | a cursor rendered as text parses to the offset it stands for |
| TapeColumns.ThroughColumns | apps/backtester/src/engine/tape-columns.ts:128-293 | decode after encode gives back the rows, field by field, exactly when there are at most 65536 distinct symbols |
| TapeColumns.EncodeTapeColumns | apps/backtester/src/engine/tape-columns.ts:128-256 | an error exactly when there are more distinct symbols; else columns that stand for the rows, with an optional block present exactly when some row carries the kind |
| TapeColumns.DecodesBack | apps/backtester/src/engine/tape-columns.ts:259-293 | columns of rows decode to those rows, flags that disagree with values, one-sided pairs and present zeros included |
| TapeColumns.DecodeTapeColumns | apps/backtester/src/engine/tape-columns.ts:259-293 | the rows read cell by cell, or the first row whose symbol id is not in the dictionary |
| TapeColumns.FlagsTell | apps/backtester/src/engine/tape-columns.ts:39-50 | the ten presence bits can be told apart in every combination |
| TapeColumns.ColumnsLaw | apps/backtester/src/engine/tape-columns.ts:39-256 | which field of a row each column holds, and which bit of the flags tells what |
| TapeColumns.NamesLaw | apps/backtester/src/engine/tape-columns.ts:135-171 | the dictionary holds every symbol once, in the order of first appearance |
| Coverage.SymbolCoversWindow | apps/backtester/src/evidence/promotion-gate.ts:14-36 | true exactly when some bar contains the left edge and the in-window bars are, as a multiset, the grid from the latest such bar |
| Coverage.CoversLaw | apps/backtester/src/evidence/promotion-gate.ts:14-36 | covered if and only if, from the latest bar that contains the left edge, every time of the window occurs among the bars once if it is on the grid and never otherwise |
| Coverage.CoveredMeansComplete | apps/backtester/src/evidence/promotion-gate.ts:9-13 | then every instant of the window lies in some bar, and no bar in the window occurs twice |
| Coverage.ExactlyTheGrid | apps/backtester/src/evidence/promotion-gate.ts:24-35 | every slot present and equal counts force equality with the grid |
| WalkForward.SplitWalkForward | apps/backtester/src/engine/walk-forward.ts:29-62 | a configuration error in the order of the checks, or test windows that tile the span up to the period end without overlap, train ending where test starts, each start the exact fraction of the period to the nearest millisecond, lengths within a millisecond of each other |
| WalkForward.SegmentLength | apps/backtester/src/engine/walk-forward.ts:45-48 | neighbouring rounded boundaries are the segment length apart, or one more |
| WalkForward.RunWalkForward | apps/backtester/src/engine/walk-forward-exec.ts:35-86 | refused, broken by an evaluation, or every fold index in exactly one of completed, failed and insufficient, under what became of it, with the status read off the lists |
| WalkForward.ListedOnce | apps/backtester/src/engine/walk-forward-exec.ts:48-72 | each fold index occurs once over the three lists |
| WalkForward.CutFoldsAreReported | apps/backtester/src/engine/walk-forward-exec.ts:51-58 | from the first budget cut on every fold is reported as budget exhausted |
| WalkForward.VerdictLaw | apps/backtester/src/engine/walk-forward-exec.ts:50-72 | a fold completes with two points or more and is insufficient with fewer, if it was run in time; it fails under its own code if it threw |

## Left out

- The internals of `@trdlabs/engine` and `@trdlabs/sdk`: fills, risk sizing, funding cost and timeframe parsing
  are arbitrary functions; no property depends on them or on float rounding.
- Indicator formulas other than the moving average are arbitrary instances behind the backend contract. The
  canonical key is a structure, not its text, and of a validation only the verdict is kept, not its reasons.
- Orders are slots of a list reached through the id index; the source's shared order objects are not aliased.
- Exceptions thrown by hooks, by init or dispose, and by the fail-closed notional check: a run here does not throw.
- An answer for which a hook has no continuation ends it with a fallback result; randomness is part of the
  module state.
- The event-driven actor branch, sandbox executors, threads and containers.
- BarMajor.RunBarMajor: gives every symbol overlay state of its own; the source splits the overlays once and shares
  an overlay module across symbols, so an overlay that keeps state between bars is outside the theorem.
- BarMajor.RunBarMajor: takes strictly increasing bar times per symbol, because with a repeated time the cursor
  check of the loop stops that symbol for good.
- The cancel handler as a publisher: it ignores the result of its own compare-and-set and then publishes, so
  with it a run can have two events; its transition is a step of the protocol, its event is not.
- Reuse of a run id under a new resume token, where the in-memory store overwrites the row: a submission in the
  protocol has a fresh run id. JobStores.InMemoryJobStore.InsertOrGet does model the overwriting.
- A claim in the protocol may take any queued job, which includes what `SKIP LOCKED` may do; the in-memory
  store's choice of the head is proved of its own method. The sub-select of the Postgres claim is a premise about
  the row it picked, under any database text order.
- A worker in the protocol remembers the counters of its claim as a Postgres worker does; an in-memory worker
  shares the row object instead, which gives the same charge as long as its claim stands.
- Columns no decision reads are grouped (times, results, reasons), and the wait deadline, which nothing reads,
  is dropped.
- The wake, poison and renewal statements of the Postgres store.
- Delivery of events by webhook and the outbox; listing, counting and lookup of jobs.
- The compute lock and the result cache: winning the lock is a choice of the worker, waking is the store calls.
- Typed arrays in TapeColumns are sequences updated at an index; the source never shares them. Column values are
  reals, so not-a-number and negative zero are not told apart. The dataset reference, timeframe and venue, which
  pass through unchanged, are not modelled.
- Cursor texts other than decimal digits are read as the start, which leaves out the further spellings of
  numbers the server would accept; a client of this server never sends them.
- The sort of the merge fallback and of queues is modelled by insertion or by search; only its result matters.
- `computeGaps` and `kindCoverage`, tape building from raw sources, and composition of coverage reports.
- Boundaries of walk-forward folds are rounded exactly; the source divides in floating point. Fold counts that
  are not integers and the formatting of dates are not modelled.
- Hashing, signing, authorization, schema validation, configuration, routing and file stores.
- Statistics over folds and equity (Sharpe, drawdown, novelty, aggregation of metrics).
