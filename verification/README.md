# Verified model of SuiviBourse's core

SuiviBourse derives a portfolio's figures from a dated ledger and a store of market prices. This project models the
parts of it that carry real state or real arithmetic, and proves what they are relied on for. `dafny verify
dfyconfig.toml` checks all of it.

Conventions: money, quantities, rates and throttle times are `real`; dates are integer days and instants integer
seconds in UTC; a nullable value is `Option`; a refusal or an exception is a `Result`, an `Option` or a `bool` of the
outcome. A mapping walked in no promised order is walked through `Basics.Pick`, so nothing proved depends on the order.
Code that changes state step by step is a class or a method with loops, proved against a function of its inputs or of
its old state; the properties are lemmas about those functions. What runs concurrently is a state machine over its
atomic steps, and its theorems hold in every interleaving.

| module | what it models |
|---|---|
| `Basics` | optional values, sums over calendar days, small facts of arithmetic |
| `Counterfactual` | the replay of the owner's money in one reference fund, day by day |
| `BenchmarkView` | the merged replay of every account, and why the head is the sum of the rows |
| `SplitAdjustment` | closes put back in the share of their day, and the replay that meets them with the splits |
| `JobHistory`, `JobStore`, `JobCounts` | the in-memory job history, its write-behind flush, its failure path and the reload at boot; what its slots count |
| `Retention`, `PriceStore`, `RetentionLadder`, `LatestQuote`, `StoreLaws` | the price series, its lossy ageing, the latest-quote mirror beside it, and what each write stores |
| `OldestMemo`, `Backfill` | the generation-stamped memo that readers and writers race; the two backfill passes and their anchors |
| `Horizon`, `Xirr`, `PerformanceSeries`, `PortfolioTotal`, `PerformanceLaws` | the writable days of an account, the bisection of its rate, its daily series, the portfolio's, their seeded continuation, and how their figures hold together |
| `Throttle`, `AuthGate`, `AuthSessions` | the attempt throttle of the code, the gate's snapshot, commits and cookies, and the life of a session |
| `Ledger`, `Aggregator`, `Entries`, `Statements` | the ledger's order and spellings, the replay of its shares, the dry run against the write, and the reconciliation of a statement |
| `Taxation`, `TaxProjection`, `Simulation` | what makes a tax model acceptable, the projected tax, and a simulated sale |

## Where the code parts from what is said of it

Each of these is proved in the project; the model follows the code.

- `auth_rules.Throttle.succeeded` is documented as taking back its own attempt. It takes back the newest failure, which
  may be another address's (`Throttle.RightCodeMayPopAnothers`). It is its own exactly when every attempt admitted since
  was given back and the window has not left it behind (`Throttle.RightCodeTakesItsOwnIff`). The bounds hold all the same.
- Reconciling a statement a second time drafts nothing, except after a partial sale down to a quantity the statement
  counts (at least a millionth of a share) but the ledger takes for dust (at most a billionth of what was ever acquired):
  the aggregator then empties the position and the gap comes back. `Statements.LostToDust` is the exact condition.
- The re-denomination of closes and splits is exact if and only if no covered day finds splits met since the last close,
  at a product other than one, while something is held before it or after
  (`SplitAdjustment.RedenominationKeepsMeaningIff`); so always when every split falls on a quoted day. What such a day
  does, under any flow, is `SplitAdjustment.UnquotedSplitIsOff`; `SplitAdjustment.UnquotedSplitExample` is one.
- A symbol bought today with nothing stored reads as finished, and no longer does tomorrow
  (`Backfill.AcquiredTodayResumes`); `Backfill.StaysTerminalIff` says exactly when finished is for good. The "window
  too small" outcome of the backward pass never happens with a chunk of a day or more (`Backfill.BackwardWindowFits`).
- Ageing may drop the newest price of a symbol for an unpriced point (`Backfill.AgeingMayUncover`). It leaves a price on
  or after a day exactly when a priced point from that day on has no better one at its place
  (`Backfill.AgeKeepsPriceIff`).
- Nothing moves the latest-quote mirror when a pass drops the point it shows, which happens to an unconverted newest
  point with a converted one at its place (`LatestQuote.AgeingMayBreakTheMirror`). The mirror stands through writes and
  passes exactly as long as no pass drops a newest point (`LatestQuote.MirrorHolds`).
- A revoked session id is purged as one whose cookie has expired anyway. A cookie signed in the very second of its
  logout has one second left when another logout purges it thirty days later to the second
  (`AuthSessions.LoggedOutForAllButASecond`); no other comes back (`AuthSessions.LoggedOutStaysOut`).
- The portfolio's contribution moves by the day's flow, except on a day an account's series opens after money had
  already come in: `PerformanceLaws.PortfolioTells` says by how much.
- The bisection's fall-through after 200 turns is never reached: 38 turns always suffice, and may be needed
  (`Xirr.RateAnswers`, `Xirr.BoundIsTight`).

## Model

| member | source | states |
|---|---|---|
| `Counterfactual.RunReplay` | packages/core/src/application/counterfactual.py:114-211 | the day loop returns the replay the day-by-day holding defines: its period, its ending and every snapshot |
| `Counterfactual.FindSeed` | packages/core/src/application/counterfactual.py:137-143 | the money goes in on the first quoted day, unless an unconverted day or the end comes first |
| `Counterfactual.SumFlows` | packages/core/src/application/counterfactual.py:146-148 | what flowed between the window's first day and the seed day is summed day by day |
| `Counterfactual.Follow` | packages/core/src/application/counterfactual.py:159-211 | from the day after the seed, the loop stops where the holding first does not get through, with that ending and that last day |
| `Counterfactual.TakeTurn` | packages/core/src/application/counterfactual.py:161-196 | split, then price, then flow; a missing rate or a close at or below zero refuses the day, a withdrawal past the value exhausts it |
| `Counterfactual.Trade` | packages/core/src/application/counterfactual.py:182-196 | a purchase adds units and basis; a withdrawal above the value is refused; otherwise units and basis shrink in the same proportion |
| `Counterfactual.WithdrawalKeepsUnitCost` | packages/core/src/application/counterfactual.py:187-196 | a withdrawal leaves the basis per unit where it was, and empties basis and units together |
| `Counterfactual.PotKeeps` | packages/core/src/application/counterfactual.py:153-199 | on every day of every run: units and basis non-negative and zero together, a positive price, contributed equal to the opening plus every flow since the seed |
| `Counterfactual.PotBefore` | packages/core/src/application/counterfactual.py:160-199 | a replay that stands on a day stood on every day before it: once stopped it never resumes |
| `Counterfactual.SnapshotAt` | packages/core/src/application/counterfactual.py:157-198 | the snapshot of a day is the holding of that day |
| `Counterfactual.ThroughKeeps` | packages/core/src/application/counterfactual.py:159-211 | every snapshot of a run, the exhausting one included, is on its calendar day and counts exactly the flows settled by then |
| `Counterfactual.ReplayKeepsState` | packages/core/src/application/counterfactual.py:114-211 | in all three endings, a non-empty series has one snapshot per calendar day from first to last day, each sound and accounted for |
| `Counterfactual.ReplayTells` | packages/core/src/application/counterfactual.py:114-211 | every replay that opened, told evening by evening without the trade it takes: the opening, then units times the day's split plus the flow at the last close, contributions moved by the flow, the cost raised by a flow paid in and shared by one taken out; on an exhausting day the split and the price alone; and the day without a rate that ended it |
| `Counterfactual.UnopenedReplay` | packages/core/src/application/counterfactual.py:137-151 | one with no series met a close without a rate before any with one, or no close at all, or opened on a price or a sum not above zero |
| `Counterfactual.BasisIsContributed` | packages/core/src/application/counterfactual.py:182-198 | until money is first withdrawn, the cost of every evening is what was put in |
| `BenchmarkView.FindEntry` | packages/app/src/application/benchmark_view.py:515-521 | an account enters on the first quoted day at or after its seed day, or not at all by the end |
| `BenchmarkView.SumItems` | packages/app/src/application/benchmark_view.py:523-524 | what flowed after the seed day up to the entry day, in whatever order the mapping yields it, is the sum over those days |
| `BenchmarkView.AddAccount` | packages/app/src/application/benchmark_view.py:522-527 | the merged flows gain the account's opening on its entry day and each of its later flows on its own day, and nothing else |
| `BenchmarkView.Merge` | packages/app/src/application/benchmark_view.py:493-537 | the one replay of all the money, from the earliest entry to the earliest end |
| `BenchmarkView.EntryIsSeedDay` | packages/app/src/application/benchmark_view.py:515-521 | the day the merge enters an account is the day its own replay is seeded on, when that falls by the end |
| `BenchmarkView.NeverEnters` | packages/app/src/application/benchmark_view.py:515-521 | an account whose own replay is never quoted never enters the merge |
| `BenchmarkView.OwnRuns` | packages/app/src/application/benchmark_view.py:437-445 | an account that runs past the end has a sound holding on every day from its entry to the end, and that is its row |
| `BenchmarkView.MergedAddsShare` | packages/app/src/application/benchmark_view.py:508-527 | the merged flow of a day is the sum of the accounts' shares of it |
| `BenchmarkView.TradeIsLinear` | packages/core/src/application/counterfactual.py:166-196 | one trade, when it is funded, moves units, value and contributions linearly in the flow |
| `BenchmarkView.RowsCarry` | packages/app/src/application/benchmark_view.py:493-537 | one day takes the sum of the rows to the sum of the rows, at the price every row agrees on and the merged flow of the day |
| `BenchmarkView.PotIsSumOfRows` | packages/app/src/application/benchmark_view.py:493-537 | on every day from the first entry to the end the merged holding exists and its units, value and contributions are the sum of the rows |
| `BenchmarkView.HeadIsSumOfRows` | packages/app/src/application/benchmark_view.py:493-537 | when no account's own replay stops by the merged end, the merged replay does not stop either and every snapshot of it is the sum of the accounts that have entered |
| `SplitAdjustment.AsPrinted` | packages/core/src/application/market_info.py:117-155 | in place, each priced point becomes its close times every positive ratio of a later day; the others are untouched |
| `SplitAdjustment.ProductAfter` | packages/core/src/application/market_info.py:151-154 | the product over the splits strictly after a day, in whatever order the mapping yields them, is the product along the calendar |
| `SplitAdjustment.ClosesOfPrinted` | packages/core/src/application/market_info.py:144-155 | correcting the points and then reading the daily closes is reading the closes and then correcting them |
| `SplitAdjustment.ClosesTell` | packages/core/src/application/market_info.py:144-155 | a day closes on its last priced point, and has no close without one |
| `SplitAdjustment.TurnSameMoney` | packages/core/src/application/counterfactual.py:161-196 | one day of the printed replay and of the adjusted one keep the same holding, the printed price off by the ratios met since the last close, when there are none or nothing is held before it nor after |
| `SplitAdjustment.PotsSameMoney` | packages/core/src/application/counterfactual.py:159-199 | on every day, those before it being such, both replays stand or neither does: equal contributions and basis, units apart by the product of the later ratios, the price off by the ratios met since the last close |
| `SplitAdjustment.HarmIsSeen` | packages/core/src/application/counterfactual.py:159-211 | the first other day tells the two replays apart: by their ending, by the day's value, or by the units bought |
| `SplitAdjustment.RedenominationKeepsMeaningIff` | packages/core/src/application/counterfactual.py:114-211 | the replay of the printed closes with the splits and that of the adjusted closes with none have the same first day, last day, ending and daily figures, units apart exactly by the later ratios, if and only if no covered day finds the splits met since the last close at a product other than one while something is held before it or after |
| `SplitAdjustment.UnquotedSplitExample` | packages/core/src/application/counterfactual.py:114-211 | one close, then a two-for-one split on a day nobody quotes: the adjusted reading ends the day at 1, the printed one at 2 |
| `SplitAdjustment.RedenominationKeepsMeaning` | packages/core/src/application/counterfactual.py:114-211 | in particular when every split covered past the seed falls on a quoted day, or is one for one |
| `SplitAdjustment.UnquotedSplitIsOff` | packages/core/src/application/counterfactual.py:161-199 | on a day reached with the readings still the same, whatever the splits met since the last close and the flow: each reading is exhausted by it on its own worth; funded, the evenings differ by the product of those ratios less one times the worth before the flow; both exhausted, by the product; and they agree if and only if the product is one or nothing is held |
| `JobHistory.Memory.Record` | packages/app/src/application/job_history.py:183-202 | one outcome lands in its hourly slot and its track, marks the slot dirty, queues the pass, and drops the slots older than a day |
| `JobHistory.Memory.Arm` | packages/app/src/application/job_history.py:204-208 | the next run of a key is kept to be stored |
| `JobHistory.Memory.Forget` | packages/app/src/application/job_history.py:210-213 | every key of the symbol is dropped and the symbol awaits deletion |
| `JobHistory.Memory.Retain` | packages/app/src/application/job_history.py:215-220 | every key of a symbol outside the kept ones is dropped and its symbol awaits deletion |
| `JobHistory.Memory.Drop` | packages/app/src/application/job_history.py:222-229 | a key leaves with its track, its dirty slots, its queued passes and its arming, and its symbol joins the departed |
| `JobHistory.Memory.Drain` | packages/app/src/application/job_history.py:231-242 | everything pending is handed over, each dirty slot with its present value, and nothing stays pending |
| `JobHistory.Memory.Undrain` | packages/app/src/application/job_history.py:244-261 | what was handed over comes back: departures and armings merged, dirty marks and passes of the keys still tracked, newest passes first to stay |
| `JobHistory.Memory.Load` | packages/app/src/application/job_history.py:263-278 | the tracks are rebuilt from the stored slots, one per key, with nothing pending |
| `JobStore.RowRoundTrip` | packages/app/src/application/job_store.py:38-43 | a slot's place and its row name determine each other, the symbol-less jobs included |
| `JobStore.Store.Upsert` | packages/app/src/application/job_store.py:46-53 | each handed slot replaces or becomes its row, the others stay |
| `JobStore.Store.Apply` | packages/app/src/application/job_store.py:63-98 | one transaction: the departed symbols' rows go, the handed slots land, the rows older than a day go |
| `JobStore.Store.Flush` | packages/app/src/application/job_store.py:56-98 | a flush either commits the whole batch or gives it back and leaves the rows alone |
| `JobStore.Store.Restore` | packages/app/src/application/job_store.py:101-126 | boot loads the history with the stored slots of the last 24 hours |
| `JobStore.BootIsConsistent` | packages/app/src/application/job_store.py:101-126 | a process started on whatever an earlier one stored is consistent |
| `JobStore.RecordKeeps` | packages/app/src/application/job_history.py:183-202 | a record made at any moment of a flush keeps every slot backed |
| `JobStore.DropKeeps` | packages/app/src/application/job_history.py:210-229 | a forget or a retain made at any moment of a flush keeps every slot backed and every row accounted for |
| `JobStore.DrainKeeps` | packages/app/src/application/job_store.py:63-66 | a drain moves what was dirty to the batch in flight |
| `JobStore.CommitKeeps` | packages/app/src/application/job_store.py:67-98 | a commit backs every slot of the batch by its row, unless it was touched or its symbol left meanwhile |
| `JobStore.FailKeeps` | packages/app/src/application/job_store.py:56-98 | a refused flush makes what it took dirty again, without resurrecting a forgotten key |
| `JobStore.EveryRunIsConsistent` | packages/app/src/application/job_history.py:183-278 | over every interleaving of record, forget, retain, drain, commit or failure: each live slot is dirty, in the batch in flight, or stored as it stands; each stored one is live, awaits deletion, or is older than a day |
| `JobStore.CalmKeepsSettled` | packages/app/src/application/job_store.py:56-98 | once nothing is dirty, in the hands of a flush or leaving, further flushes, landed or refused, keep it so |
| `JobStore.SettledIsRestored` | packages/app/src/application/job_store.py:101-126 | then boot reads back exactly the slots of the last 24 hours |
| `JobStore.RowsFromBeforeAForget` | packages/app/src/application/job_history.py:210-261 | over every interleaving, a stored row drained before its symbol's last forget implies that the symbol awaits deletion, even when the slot was recorded again since |
| `JobStore.FlushThenRestore` | packages/app/src/application/job_store.py:56-126 | after a flush that lands, with nothing recorded or forgotten since its drain, and whatever flushes follow it, a new process holds exactly the slots of its last 24 hours |
| `JobStore.RefusedFlushGivesBack` | packages/app/src/application/job_history.py:244-261 | a flush refused with nothing in between gives back every arming, departure and dirty slot, and the newest passes up to the cap |
| `JobCounts.RecordTells` | packages/app/src/application/job_history.py:183-202 | a pass recorded on a clock that does not go back adds one to its hour, its outcome and its time to the counts it has, and stands among the last twenty; older hours leave |
| `JobCounts.SlotsCountThePasses` | packages/app/src/application/job_history.py:183-278 | from any stored rows, over every interleaving of records, forgets and flushes: each live slot counts the passes of its hour recorded since its key was last dropped, in all and of each outcome, their time, and the last failure, on top of what was stored |
| `JobCounts.RestoredCounts` | packages/app/src/application/job_store.py:56-126 | and a process started after a landed flush counts them all, for its last 24 hours |
| `JobCounts.NoPassIsLost` | packages/app/src/application/job_history.py:183-261 | over every interleaving, what a key has queued is the passes recorded for it that no landed flush took and no forget dropped, in order, its oldest missing only once the cap cut some |
| `JobCounts.ArmingIsLatest` | packages/app/src/application/job_history.py:204-261 | over every interleaving, the arming a key has to be stored is the latest noted, one a refused flush gives back only where none came since |
| `JobCounts.LandedRows` | packages/app/src/application/job_store.py:63-98 | a landed flush leaves no row of 24 hours before its drain, every slot it carried, and otherwise only what was there and had not left |
| `Retention.SameHourSameDay` | packages/store/src/application/quotes.py:225-229 | an hour bucket never straddles two UTC days |
| `RetentionLadder.BandsAreRungs` | packages/core/src/application/retention.py:16-28 | the two bands the walls cut are exactly the points whose age is on the hourly and the daily rung |
| `RetentionLadder.KeptIffBest` | packages/store/src/application/quotes.py:222-248 | a pass keeps a point if and only if no better point shares its place: its hour in the hourly band, its day in the daily one |
| `RetentionLadder.CollapseIsIdempotent` | packages/store/src/application/quotes.py:222-248 | ageing twice at one instant is ageing once |
| `RetentionLadder.DailyReadSurvives` | packages/store/src/application/quotes.py:536-548 | no pass, at any instant, changes the daily closes of any symbol, with distinct instants per symbol |
| `RetentionLadder.OldDayHasOneOutcome` | packages/store/src/application/quotes.py:222-248 | a UTC day wholly behind the daily wall comes down to one point, the same whatever passes ran before |
| `StoreLaws.ObservationTells` | packages/store/src/application/quotes.py:56-88 | an observation is stored as it was made, and nothing stored before it moves |
| `StoreLaws.ChunkTells` | packages/store/src/application/quotes.py:110-143 | a chunk stores every priced row as it was fetched, and loses of the symbol only what lies between two of them |
| `StoreLaws.NewestIsLast` | packages/store/src/application/quotes.py:133-139 | the row a chunk offers the mirror is the last fetched of the newest instant |
| `StoreLaws.RepairTells` | packages/store/src/application/quotes.py:278-321 | a repair turns each priced unconverted point of a known day into its price times the day's factor, and moves no other point, quote or anchor |
| `StoreLaws.AnchorsTell` | packages/store/src/application/quotes.py:324-384 | each anchor moves outwards alone, by its own write, and no point or mirror with it |
| `StoreLaws.SurvivorTells` | packages/store/src/application/quotes.py:222-248 | a pass keeps a point unless one of its hour between one and two years old, or of its day past two, is converted where it is not, or as converted and later, or as late and written after |
| `PriceStore.Store.AdvanceLatest` | packages/store/src/application/quotes.py:35-46 | the mirror takes a point at or after the last one, and only of a symbol that has a row |
| `PriceStore.Store.EnsureRow` | packages/store/src/application/quotes.py:49-53 | a symbol without a row gets a blank one, the others stay |
| `PriceStore.Store.RecordQuote` | packages/store/src/application/quotes.py:56-88 | one observation is appended and offered to the mirror |
| `PriceStore.Store.RecordHistory` | packages/store/src/application/quotes.py:110-143 | the span a chunk covers is deleted, its priced points are written, the last row of its newest instant is offered to the mirror; nothing priced writes nothing |
| `PriceStore.Store.RepairConversions` | packages/store/src/application/quotes.py:278-321 | every priced unconverted point of a known day is converted, and the newest of them is offered to the mirror as it now stands |
| `PriceStore.Store.RecordWindowTried` | packages/store/src/application/quotes.py:324-337 | the backward anchor only goes back, and the last failure is no longer the news |
| `PriceStore.Store.RecordBackwardFailure` | packages/store/src/application/quotes.py:340-351 | the failure is remembered, and no anchor moves |
| `PriceStore.Store.RecordForwardWindowTried` | packages/store/src/application/quotes.py:370-384 | the forward anchor only comes up |
| `PriceStore.Store.CollapseToLadder` | packages/store/src/application/quotes.py:222-251 | the hourly band first, then the daily one; the count is that of the rows gone |
| `PriceStore.NewestIn` | packages/store/src/application/quotes.py:133-139 | the last row of the newest instant of a chunk |
| `LatestQuote.AddedPointMirrors` | packages/store/src/application/quotes.py:35-46 | the maintenance rule takes the newest point to the newest point when one is added |
| `LatestQuote.ObserveMirrors` | packages/store/src/application/quotes.py:56-88 | an observation keeps every symbol's mirror on its newest point |
| `LatestQuote.FetchMirrors` | packages/store/src/application/quotes.py:110-143 | a chunk, which deletes a range before it writes, keeps every symbol's mirror on its newest point |
| `LatestQuote.RepairMirrors` | packages/store/src/application/quotes.py:278-321 | a repair, which offers its newest hit only, keeps every symbol's mirror on its newest point, conversion included |
| `LatestQuote.WriteMirrors` | packages/store/src/application/quotes.py:35-143 | every write keeps the mirror, given distinct instants |
| `LatestQuote.AgeKeepsMirrorIff` | packages/store/src/application/quotes.py:222-251 | a retention pass leaves every mirror on its newest point if and only if every symbol's newest point has no better one at its place |
| `LatestQuote.ConvertedNewestIsSpared` | packages/store/src/application/quotes.py:222-251 | so always, at any instant, when every symbol's newest point is converted |
| `LatestQuote.AgeingMayBreakTheMirror` | packages/store/src/application/quotes.py:222-251 | an unconverted newest point with a converted one of its old day: the pass leaves the mirror on a point no row holds |
| `LatestQuote.MirrorHolds` | packages/store/src/application/quotes.py:35-251 | under every sequence of writes and retention passes, of any symbols, the last columns equal the newest stored point of each at every moment up to one if and only if no pass until then dropped a newest point |
| `OldestMemo.Memo.Peek` | packages/store/src/application/quotes.py:421-425 | under the lock: the generation, and the held answer when it is this file's and current |
| `OldestMemo.Memo.Remember` | packages/store/src/application/quotes.py:442-447 | a scan is published only while its generation is current |
| `OldestMemo.Memo.Forget` | packages/store/src/application/quotes.py:450-454 | the generation moves on |
| `OldestMemo.OneAnswer` | packages/store/src/application/quotes.py:427-432 | a table has one answer: the smallest instant of each symbol that has a point |
| `OldestMemo.RepairKeepsOldest` | packages/store/src/application/quotes.py:278-321 | a repair moves no instant, so the memo it leaves alone stays right |
| `OldestMemo.CommitSound` | packages/store/src/application/quotes.py:395-454 | a commit landing at any moment of any read keeps every scan and the slot truthful |
| `OldestMemo.BumpSound` | packages/store/src/application/quotes.py:450-454 | a bump retires every answer that does not reflect it |
| `OldestMemo.PublishSound` | packages/store/src/application/quotes.py:442-447 | a scan published late is never taken for the table that replaced its own |
| `OldestMemo.AnswersAreFresh` | packages/store/src/application/quotes.py:399-447 | in every interleaving of readers and writers over every file, an answer is that of a committed table no older than any write forgotten about before its read was called |
| `OldestMemo.QuietReadIsExact` | packages/store/src/application/quotes.py:399-447 | with no write between its commit and its bump, and none landing during the read, the answer is the table's own |
| `OldestMemo.PublishedIsTaken` | packages/store/src/application/quotes.py:399-447 | a scan published in its own generation answers every later look at its file without a scan, until a bump or another publication |
| `Backfill.ForwardWindowFits` | packages/core/src/application/scheduling.py:160-174 | a forward window exists unless the anchor is under a day from now; it is at least a day wide, at most the chunk, ends by now, a daily one never crosses the hourly ceiling, and it stops short of nothing else |
| `Backfill.BackwardWindowFits` | packages/core/src/application/scheduling.py:149-157 | until the target is reached a backward window always exists, at least a day wide, inside the holding and the chunk, a daily one past the ceiling by less than a day |
| `Backfill.TerminalIff` | packages/core/src/application/carrying.py:61-104 | a symbol is finished if and only if a stored point or a tried window reached its acquisition, or its holding has no day behind it |
| `Backfill.StaysTerminalIff` | packages/core/src/application/carrying.py:61-104 | and it stays finished at every later instant if and only if it was reached, or left before it was acquired |
| `Backfill.AcquiredTodayResumes` | packages/core/src/application/carrying.py:61-104 | a symbol acquired today over an empty store is finished now, and asks again at any instant of a later day |
| `Backfill.AnchorDay` | packages/core/src/application/carrying.py:72-81 | the backward anchor's day is the earliest of the ceiling, the series and the windows tried |
| `Backfill.AnchorIsEarliest` | packages/core/src/application/carrying.py:72-99 | the backward anchor is the earliest of the three instants, the forward one the later of the two |
| `Backfill.IntervalTells` | packages/core/src/application/scheduling.py:144-157 | history is asked by the hour within 730 days, and a window is cut at 729 |
| `Backfill.PassStores` | packages/app/src/application/jobs/backfill.py:280-470 | an answered pass stores every priced row it was answered and loses nothing outside their span |
| `Backfill.ForwardAnchorDay` | packages/core/src/application/carrying.py:84-99 | the forward anchor's day is the latest of the priced series and the windows tried |
| `Backfill.WriteKeeps` | packages/store/src/application/quotes.py:56-143 | no write takes back a day the series or a window reached |
| `Backfill.AgeLeavesTheDay` | packages/store/src/application/quotes.py:222-248 | a point ageing removes leaves one of its own symbol and UTC day behind |
| `Backfill.AgeKeepsPriceIff` | packages/store/src/application/quotes.py:222-251 | ageing leaves a price on or after a day if and only if a priced point from that day on has no better one at its place |
| `Backfill.NoBlankKeepsPrice` | packages/store/src/application/quotes.py:222-251 | in particular where the symbol, whatever the others hold, has no unpriced point from that day on |
| `Backfill.AgeKeeps` | packages/store/src/application/quotes.py:222-251 | nor does ageing; a day covered stays covered if and only if a tried window or such a price covers it |
| `Backfill.AgeingMayUncover` | packages/store/src/application/quotes.py:222-248 | a series where it does not: an unpriced point takes the place of the newest price |
| `Backfill.BackwardAdvances` | packages/app/src/application/jobs/backfill.py:280-371 | one answered backward pass goes back at least a day, whatever it stored, and never past the acquisition |
| `Backfill.ForwardAdvances` | packages/app/src/application/jobs/backfill.py:411-470 | one answered forward pass brings the window tried at least a day past where the symbol was covered to, even when nothing was stored |
| `Backfill.BackwardEnds` | packages/app/src/application/jobs/backfill.py:280-371 | answered backward passes, among any other writes, are no more than the days between the last ceiling and the acquisition |
| `Backfill.LeadsKeeps` | packages/store/src/application/quotes.py:222-384 | nothing that happens to the store, ageing included, takes back a day reached or a window tried |
| `Backfill.ForwardEnds` | packages/app/src/application/jobs/backfill.py:411-470 | from any answered forward pass on, among any other gestures, ageing included, answered passes are no more than the days between where it resumed and the last now |
| `Backfill.ReachedStaysTerminal` | packages/store/src/application/quotes.py:457-478 | once the acquisition is reached the symbol is finished under every later write, ageing included, at any instant |
| `Backfill.BackwardPass` | packages/app/src/application/jobs/backfill.py:300-357 | an answered pass writes what came and remembers its window's first day, a failed one remembers the failure, and a pass that asks nothing changes nothing |
| `Backfill.ForwardPass` | packages/app/src/application/jobs/backfill.py:425-463 | a pass writes what came and remembers its window's last day, or changes nothing |
| `Backfill.TerminalSymbols` | packages/store/src/application/quotes.py:457-478 | the finished symbols are exactly those whose acquisition was reached or whose holding has no day behind it |
| `Backfill.OldestOf` | packages/store/src/application/quotes.py:514-518 | the smallest stored instant of a symbol |
| `Backfill.NewestOf` | packages/store/src/application/quotes.py:521-526 | the newest price-bearing instant of a symbol |
| `Horizon.HoleOf` | packages/core/src/application/performance.py:68-80 | the interval kept for a symbol covers exactly the days it was held, past its first quote, with no price by then |
| `Horizon.BlockedOf` | packages/core/src/application/performance.py:66-80 | the intervals block exactly the days some symbol makes a hole of |
| `Horizon.LastFree` | packages/core/src/application/performance.py:85-92 | the fixpoint ends, on the greatest day up to the ceiling outside every interval |
| `Horizon.AccountHorizon` | packages/core/src/application/performance.py:45-97 | the returned span is the horizon of the inputs |
| `Horizon.OneHorizon` | packages/core/src/application/performance.py:45-97 | the inputs decide the horizon |
| `Horizon.HorizonIsExact` | packages/core/src/application/performance.py:45-97 | no writable day is a hole, the run cannot be extended on either side, and first is past the ceiling if and only if all of [start, ceiling] is blocked |
| `Horizon.BlockedTells` | packages/core/src/application/performance.py:66-80 | a day is blocked when a symbol not settled was held on it, past where it is carried from, with no price up to then |
| `Xirr.TurnKeepsBracket` | packages/core/src/application/performance.py:157-163 | one turn keeps a bracket of opposite signs, half as wide |
| `Xirr.BisectionAnswers` | packages/core/src/application/performance.py:156-163 | a bracket narrower than the tolerance times 2^n is answered within n + 1 turns, inside it, by a near-zero value or a narrow sign change |
| `Xirr.RateAnswers` | packages/core/src/application/performance.py:149-167 | for any value function: no rate if and only if the ends have one sign; a rate lies in [-0.9999, 1000], answers by a near-zero value or a narrow sign change, and comes by the 38th turn, under any cap that allows it |
| `Xirr.BoundIsTight` | packages/core/src/application/performance.py:156-163 | a value function that jumps over zero takes exactly the 38 turns |
| `Xirr.Solve` | packages/core/src/application/performance.py:149-167 | the loop returns that rate, and its fall-through is never reached |
| `Xirr.InternalRate` | packages/core/src/application/performance.py:133-167 | no rate for no flow nor for a single day, else that of the flows valued from their first day |
| `PerformanceSeries.HoldingsValue` | packages/core/src/application/performance.py:192-215 | each held quantity at its price, the carrying price when the market has none and never quoted it |
| `PerformanceSeries.FlowsByDate` | packages/core/src/application/performance.py:273-280 | the flows by date hold exactly the dates there are, each with its net flow |
| `PerformanceSeries.RunningContribution.constructor` | packages/core/src/application/performance.py:297-300 | a cursor over the sorted flow days, before all of them |
| `PerformanceSeries.RunningContribution.Contributed` | packages/core/src/application/performance.py:302-309 | everything contributed on or before the latest day asked about |
| `PerformanceSeries.FillTwr` | packages/core/src/application/performance.py:170-189 | in place, every point gets the index chained from the point before it, or from the seed |
| `PerformanceSeries.FillingContinues` | packages/core/src/application/performance.py:170-189 | filling in two runs, the second from the last point of the first, is filling once |
| `PerformanceSeries.IndexIsGrowth` | packages/core/src/application/performance.py:170-189 | over days that keep a value, the index is 100 times the product of the daily growths with the flows taken out |
| `PerformanceSeries.XirrCashflows` | packages/core/src/application/performance.py:283-294 | contributions paid in, worthless grants left out, the last value taken out |
| `PerformanceSeries.PointsContinue` | packages/core/src/application/performance.py:338-365 | the raw points over two stretches are those over the whole, the second taken as started when the first has any |
| `PerformanceSeries.StaysStarted` | packages/core/src/application/performance.py:338-365 | a series that already runs has a point every day |
| `PerformanceSeries.DailyPoints` | packages/core/src/application/performance.py:332-365 | the day loop gives a point from the first active day on, each read from the ledger and the prices alone |
| `PerformanceSeries.ComputeAccount` | packages/core/src/application/performance.py:319-379 | an account's series, index and rate |
| `PerformanceSeries.AccountContinues` | packages/core/src/application/performance.py:319-379 | an account's series over [start, today] is that to any day, then that from its last point on, with the same rate and flags |
| `PortfolioTotal.AggregateByDate` | packages/core/src/application/performance.py:395-409 | each day of the span holds the sum of the accounts' points of that day |
| `PortfolioTotal.TotalDaily` | packages/core/src/application/performance.py:395-411 | and the days come out in order |
| `PortfolioTotal.ComputePortfolioTotal` | packages/core/src/application/performance.py:382-431 | the total's series, index and rate |
| `PortfolioTotal.TotalContinues` | packages/core/src/application/performance.py:382-431 | of any accounts whose series are cut at a day, the total continued from its last point is the whole total at the same rate |
| `PortfolioTotal.PortfolioContinues` | packages/core/src/application/performance.py:319-431 | per account and for the total, a series in two runs is the series whole: contribution, gain, index, rate and flags |
| `PerformanceLaws.WorthTells` | packages/core/src/application/performance.py:192-215 | a held position is worth its quantity at the market's price; carried and not yet quoted, what it cost; else nothing |
| `PerformanceLaws.HoldingsAdd` | packages/core/src/application/performance.py:192-215 | holdings add up over the symbols |
| `PerformanceLaws.AccountTells` | packages/core/src/application/performance.py:319-379 | one point a day from the first active one; each point's total is cash plus holdings, its contribution the cash and priced grants by its day, its gain the difference; from one to the next, what the day's flow does not explain is gain, and the index grows by it |
| `PerformanceLaws.AccountRate` | packages/core/src/application/performance.py:367-379 | an account's rate answers the balance of its last value against all it was brought, each flow discounted from the first; and is absent exactly when that balance has one sign or there is one single day |
| `PerformanceLaws.PortfolioTells` | packages/core/src/application/performance.py:382-431 | the portfolio has one point a day, each figure the sum of the accounts', and its totals, contributions, gains and index hold together as theirs do, what an account had been brought before its series opens apart |
| `PerformanceLaws.PortfolioRate` | packages/core/src/application/performance.py:412-431 | the portfolio's rate answers the balance of all the accounts' money; its flags are those of the accounts that have a series |
| `PerformanceLaws.AllCashCounts` | packages/core/src/application/performance.py:412-416 | the portfolio's cash flows are those of every account |
| `Throttle.SecondsIsLeast` | packages/core/src/application/auth_rules.py:171-174 | the stated wait is the least whole number of seconds that is long enough, never negative |
| `Throttle.Throttle.Enter` | packages/core/src/application/auth_rules.py:137-157 | an attempt is refused for its address, then for everyone, else counted, with the waits it opens |
| `Throttle.Throttle.DropOld` | packages/core/src/application/auth_rules.py:144-145 | failures an hour old leave the queue's head |
| `Throttle.Throttle.Wait` | packages/core/src/application/auth_rules.py:159-162 | so many whole seconds on, and no fewer, the address is no longer refused for its own wait; refused for it now, it would be told as much |
| `Throttle.Throttle.Succeeded` | packages/core/src/application/auth_rules.py:164-168 | the address starts over and the newest failure leaves |
| `Throttle.AddressTracks` | packages/core/src/application/auth_rules.py:137-168 | an address counts its admitted attempts since its last right code, which starts it over: five come freely, each later one has waited out the one before |
| `Throttle.AttemptsAreBounded` | packages/core/src/application/auth_rules.py:122-157 | the n-th attempt (n at least 10) admitted from an address since its last right code comes no earlier than 930 + 900 (n - 10) seconds after the fifth |
| `Throttle.EnterKeepsQueue` | packages/core/src/application/auth_rules.py:144-154 | one attempt keeps the queue in order, a minute apart past the sixtieth, and at most 120 long |
| `Throttle.QueueIsBounded` | packages/core/src/application/auth_rules.py:122-168 | over every run on a clock that never goes back, right codes included, the queue is in order and holds at most 120 failures |
| `Throttle.BoundIsReached` | packages/core/src/application/auth_rules.py:122-157 | and some run reaches 120 |
| `Throttle.AboveIsPlace` | packages/core/src/application/auth_rules.py:137-168 | along any run, the count kept of what was admitted and given back since an attempt is its failure's place in the queue, or says that it left |
| `Throttle.RightCodeTakesItsOwnIff` | packages/core/src/application/auth_rules.py:164-168 | a right code takes off its own address's last attempt if and only if every attempt admitted since, from anyone, was given back, and the attempt itself was neither given back nor left behind by the window |
| `Throttle.BeforeAnyOtherSuccess` | packages/core/src/application/auth_rules.py:164-168 | with no right code since the attempt: if and only if no attempt was admitted since |
| `Throttle.RightCodeMayPopAnothers` | packages/core/src/application/auth_rules.py:164-168 | a run where it takes another address's |
| `Throttle.OthersMayComeAndGo` | packages/core/src/application/auth_rules.py:164-168 | a run where an attempt came in between, was given back, and it takes its own again |
| `Throttle.SessionSeconds` | packages/core/src/application/auth_rules.py:68-73 | a stored lifetime means itself up to thirty days, and thirty days otherwise |
| `AuthGate.RowRoundTrip` | packages/app/src/application/auth_gate.py:88-113 | a state read back after it was written is itself exactly when the code is on or nothing is held |
| `AuthGate.Gate.Commit` | packages/app/src/application/auth_gate.py:249-258 | store first, then the snapshot; a refused write or a refused change leaves both |
| `AuthGate.AppliedRooted` | packages/app/src/application/auth_gate.py:349-455 | the next state of every change holds only a secret drawn for its own code |
| `AuthGate.ArriveSound` | packages/app/src/application/auth_gate.py:223-236 | a request that arrives holds a session only if its cookie descends from the snapshot's own code |
| `AuthGate.SignInSound` | packages/app/src/application/auth_gate.py:321-343 | a sign-in signs with the state its code was checked against |
| `AuthGate.SwapSound` | packages/app/src/application/auth_gate.py:249-258 | the snapshot follows the row, and a code just set is proven by its request |
| `AuthGate.RespondSound` | packages/app/src/application/auth_gate.py:372-461 | an answer signs a fresh session for a code just set, or renews a session under the secret it was found with |
| `AuthGate.RestartSound` | packages/app/src/application/auth_gate.py:145-155 | a restart at any moment of a commit starts on a snapshot rooted like the one before, the issued cookies still descending from their codes |
| `AuthGate.StepSound` | packages/app/src/application/auth_gate.py:219-461 | every step of every route, and a restart, keeps all of it |
| `AuthGate.OneSecretOneCode` | packages/app/src/application/auth_gate.py:321-461 | at any two moments of any interleaving, one session secret goes with one code's hash |
| `AuthGate.SnapshotIsRow` | packages/app/src/application/auth_gate.py:88-113 | outside a commit, and until its write lands, the snapshot is the stored row, and a restart reads it back whole |
| `AuthGate.HoldsTheLock` | packages/app/src/application/auth_gate.py:249-258 | from its beginning to its verdict a commit keeps the lock: whatever else runs, the snapshot stays, and the row until its own write lands |
| `AuthGate.RefusedWriteChangesNothing` | packages/app/src/application/auth_gate.py:249-258 | over every run, a refused write leaves the snapshot and the row as its commit found them, and every cookie signed meanwhile was signed by a step of another request |
| `AuthGate.ProofsAreReal` | packages/app/src/application/auth_gate.py:321-399 | every proof recorded is a sign-in with the right code or a code that was set, at an earlier step |
| `AuthGate.AcceptedCookieDescends` | packages/app/src/application/auth_gate.py:219-240 | every cookie accepted, signed before a restart or after, descends from such a step, for the very code in force |
| `AuthGate.OldCookiesDie` | packages/app/src/application/auth_gate.py:223-236 | under another code, a cookie once accepted is not, however late |
| `AuthSessions.LoggedOutStaysOut` | packages/app/src/application/auth_gate.py:223-258 | once a logout has swapped, no cookie of its session signed before it under the secret then in force is accepted at any later world and instant, across other logouts and their purges, lifetimes, codes and restarts; one signed in its very second is refused but for the second thirty days on |
| `AuthSessions.LoggedOutForAllButASecond` | packages/core/src/application/auth_rules.py:93-101 | and that second exists: signed and logged out in one second, purged by another logout thirty days later to the second |
| `AuthSessions.SessionLastsItsLifetime` | packages/app/src/application/auth_gate.py:223-236 | a session neither logged out nor left behind by a code is accepted exactly for its lifetime, whatever else the gate does |
| `AuthSessions.SwapTells` | packages/app/src/application/auth_gate.py:249-258 | over every run, a commit that lands turns the state it finds into what its change says: the code that opens, the secret, the token, the lifetime, the revoked sessions; and the row with it |
| `AuthSessions.AnswerSignsIn` | packages/app/src/application/auth_gate.py:372-461 | who set a code or renewed a session is answered a cookie the gate accepts, while that state stands |
| `AuthSessions.GuardedByASession` | packages/app/src/application/auth_gate.py:286-461 | nobody changes the code, turns it off, renews the token, logs out or sets a lifetime without having arrived with a cookie then accepted, of the very session where one is named |
| `Ledger.CanonicalIsIdempotent` | packages/core/src/application/events/schemas.py:33-58 | the one spelling of a symbol is its own spelling |
| `Ledger.CanonicalSpells` | packages/core/src/application/events/schemas.py:33-58 | a symbol is spelled without the blanks around it and in capitals; a blank one is none |
| `Ledger.AccountSpells` | packages/app/src/application/entries.py:371-373 | an account is written without the blanks around it, and is the default one when nothing is left |
| `Ledger.AccountIsSettled` | packages/app/src/application/entries.py:371-373 | the account of a stored event is already settled |
| `Ledger.OneReadOrder` | packages/app/src/application/ledger.py:32-36 | a table is read back in one way, by date and then by key |
| `Aggregator.NeverShort` | packages/core/src/application/events/aggregator.py:164-200 | no position is ever short, nor more than was acquired |
| `Aggregator.SharesAreConserved` | packages/core/src/application/events/aggregator.py:164-200 | the shares held are those bought and granted less those sold, within a billionth of what was acquired for each sale; exactly, with none |
| `Aggregator.SaleTells` | packages/core/src/application/events/aggregator.py:171-194 | a sale is refused exactly past what is held and that dust; one that goes through takes what it asks, or all there is, and leaves none or more than the dust |
| `Aggregator.Replay` | packages/core/src/application/events/aggregator.py:45-104 | every position of the ledger at once, or a refusal when one sale is past what is held |
| `Aggregator.KeysDoNotCount` | packages/core/src/application/events/aggregator.py:45-104 | the keys of the events do not count |
| `Entries.SettleAll` | packages/app/src/application/entries.py:323-332 | each draft settled on the names known by then |
| `Entries.SettledTells` | packages/app/src/application/entries.py:323-390 | a settled line is its draft, trimmed and spelled, called what it says, else what the last line before it called its symbol, else what the ledger does |
| `Entries.StoredIsSame` | packages/app/src/application/entries.py:231-242 | settling and storing a line keeps it the same line |
| `Entries.SortIsStable` | packages/app/src/application/entries.py:318-320 | the dry run's sort is by date and keeps the order of each date |
| `Entries.WriteIsSorted` | packages/app/src/application/entries.py:115-172 | what is read back after a write is the stable date sort of what was read before and the rows written |
| `Entries.DryRunReadsTheWrite` | packages/app/src/application/entries.py:295-320 | the dry run replays, keys aside, exactly what is read back after the write |
| `Entries.DryRunAgrees` | packages/app/src/application/entries.py:295-320 | so both replay or neither does |
| `Entries.Store.ReadEvents` | packages/app/src/application/ledger.py:32-36 | the rows by date, then by key |
| `Entries.Store.RecordMany` | packages/app/src/application/entries.py:115-172 | the settled block lands whole under new keys, or nothing does: refused on an issue or on a ledger that no longer replays |
| `Entries.Store.Judge` | packages/app/src/application/entries.py:295-320 | the dry run accepts exactly the drafts the write accepts |
| `Entries.Store.SplitDuplicates` | packages/app/src/application/entries.py:231-292 | field by field: a skipped line says what the row or the first earlier line beside it says, on date, kind, account, symbol, quantity, price, fee and amount; a line is skipped exactly when a row or an earlier one says the same and the answer does not keep it; the others are written in their order; and an answer that names no repeated line is refused |
| `Entries.SplitAgainIsEmpty` | packages/app/src/application/entries.py:252-292 | once the fresh lines are recorded, the same batch holds nothing fresh, and no answer about repeats may name anything |
| `Statements.WantedIsStated` | packages/app/src/application/statements.py:296-305 | a title is wanted when a line names it, for the sum of its lines |
| `Statements.Held` | packages/app/src/application/statements.py:340-347 | the shares the account's ledger holds at the close of the day, dust apart |
| `Statements.ClosingTells` | packages/app/src/application/statements.py:340-347 | the day closes on the account's events up to it, in the ledger's order |
| `Statements.DraftGaps` | packages/app/src/application/statements.py:313-333 | one event for each gap that is not dust, at the owner's, the statement's or the close's price |
| `Statements.DraftsArePriced` | packages/app/src/application/statements.py:294-327 | a drafted event carries the owner's price, else the statement's first positive one of its title, else a close that is one |
| `Statements.Positions` | packages/app/src/application/statements.py:285-361 | a reading where there is one, else the refusal there is a reason for: no date, a broken ledger, a price not above zero, or the prices of titles with no gap |
| `Statements.Reconcile` | packages/app/src/application/statements.py:240-282 | a line number that does not wait or a text that spells no ticker is refused; else the chosen tickers land on their lines and the answer is that of those lines |
| `Statements.NoAbsentSold` | packages/app/src/application/statements.py:306-308 | while a line waits for its title, no absent title is sold |
| `Statements.GapCloses` | packages/core/src/application/events/aggregator.py:164-194 | a title's gap is never refused, and closes it for good, if and only if what was to be left is not lost to dust |
| `Statements.LostToDustExample` | packages/core/src/application/events/aggregator.py:191-194 | a million shares sold down to 0.0005: the ledger empties the position and the gap comes back |
| `Statements.RecordedCloses` | packages/app/src/application/statements.py:285-337 | recorded on the statement's day, the drafted events come after everything the day held |
| `Statements.EveryGapCloses` | packages/app/src/application/statements.py:285-337 | with every title known, each position of the day moves to its stated shares, absent titles to none |
| `Statements.DraftedIsSpelled` | packages/app/src/application/statements.py:266-332 | with canonical lines and rows, every drafted event is the gap bought or sold at its price, of the account and the day, under a canonical ticker |
| `Statements.WrittenStanding` | packages/app/src/application/entries.py:115-172 | once the drafted events are settled, stored and read back with the rest, the day closes on the same shares as on the drafts themselves |
| `Statements.RecordingReachesTheStatement` | packages/app/src/application/statements.py:285-337 | read back from the table the write leaves, each title is within dust of its stated shares, exactly those lost to dust excepted |
| `Statements.ReconcilingAgainDraftsNothing` | packages/app/src/application/statements.py:240-337 | reconciled again over the table the write leaves, the statement drafts nothing if and only if nothing was lost to dust, and then admits no price |
| `Taxation.CheckLadder` | packages/core/src/application/taxation.py:203-248 | the loop reads the rungs, each after the ceiling below it, or refuses |
| `Taxation.LadderRoundTrip` | packages/core/src/application/taxation.py:203-248 | what a ladder is read as climbs with an open top; and a ladder is read back as itself if and only if it does |
| `Taxation.Validate` | packages/core/src/application/taxation.py:114-149 | the parameters checked and normalised, or a refusal |
| `Taxation.AcceptedIsModel` | packages/core/src/application/taxation.py:114-165 | what is accepted is a model; a record is accepted as itself if and only if it is one |
| `Taxation.ValidatedTells` | packages/core/src/application/taxation.py:114-265 | exactly which bodies are accepted and as what: a known kind, no other parameter than its own, each needed one there, each value stored as the number, ladder or word it reads as, and no rate past the gain with its levy |
| `Taxation.ValidateIsIdempotent` | packages/core/src/application/taxation.py:114-165 | checking what was checked changes nothing |
| `TaxProjection.AnniversaryIsADay` | packages/core/src/application/taxation_projection.py:155-164 | an anniversary is a day of the calendar, moved only off a 29 February, and absent only past year 9999 |
| `TaxProjection.RungsCover` | packages/core/src/application/taxation_projection.py:211-235 | the rungs cover a gain from zero up, without gap or overlap |
| `TaxProjection.Bracketed` | packages/core/src/application/taxation_projection.py:211-235 | the walk owes the sum over rungs of the rate times what of the gain falls inside |
| `TaxProjection.LadderTax` | packages/core/src/application/taxation_projection.py:211-235 | the tax of a ladder lies in [0, max(gain, 0)] and rises with the gain, by at most as much |
| `TaxProjection.Project` | packages/core/src/application/taxation_projection.py:83-105 | the projection, absent for an unreadable record, an unknown gain or a wrapper with no date |
| `TaxProjection.RecordIsSound` | packages/core/src/application/taxation.py:152-248 | an accepted record's rates with the levy are fractions, its ladder climbs, its threshold is within two centuries |
| `TaxProjection.TaxIsBounded` | packages/core/src/application/taxation_projection.py:83-105 | of any accepted model: between nothing and the gain, non-decreasing, with slope at most one |
| `TaxProjection.FlatFigure` | packages/core/src/application/taxation_projection.py:198-208 | a flat record owes, on what is gained and nothing on a loss, its rate plus its levy, whatever the day |
| `TaxProjection.AgedFigure` | packages/core/src/application/taxation_projection.py:108-208 | an aged one owes its rate before its start's anniversary, or the one from that day on, plus its levy; and nothing is stated without a start or past the calendar |
| `TaxProjection.MarginalRate` | packages/core/src/application/taxation_projection.py:211-235 | inside a rung, more gain owes the rung's own rate on it; nothing is owed on nothing |
| `TaxProjection.LadderFigure` | packages/core/src/application/taxation_projection.py:205-272 | a ladder's record owes by the ladder it stores and names its rates |
| `TaxProjection.FigureIsTheNamedRate` | packages/core/src/application/taxation_projection.py:244-272 | there is a figure exactly when there are named rates, and a flat or aged one is the named rate on the gain |
| `TaxProjection.RateTurnsOnItsDay` | packages/core/src/application/taxation_projection.py:275-295 | until the day named the rate is today's; from that day on it is the one after the threshold; with no day named it never changes |
| `Simulation.ProrataTax` | packages/core/src/application/simulation.py:136-149 | the prorata loop: unknown with an unvalued line, nothing without value, else the tax of the lot's part of the latent gain |
| `Simulation.WithdrawalFigure` | packages/core/src/application/simulation.py:136-155 | money taken out of an aged wrapper is taxed as its part of worth less cost over the held lines; nothing is stated with an unpriced line or without worth |
| `Simulation.TaxLot` | packages/core/src/application/simulation.py:116-133 | the tax now, the tax on the way out and the reason, by kind: a flat or bracketed sale owes between nothing and its gain, a flat one its rate and levy on the gain |
| `Simulation.SimulateSale` | packages/core/src/application/simulation.py:51-107 | each refusal exactly when there is its reason; else the quantity sold, the money split into basis removed and gain, the position left at the line's own unit cost, the tax by kind, and what is left of the money |
| `Simulation.UnitCostStays` | packages/core/src/application/simulation.py:77-84 | a partial sale leaves the unit cost where it was |
| `Simulation.PartOfTax` | packages/core/src/application/simulation.py:136-149 | on an aged wrapper the tax of a part of the latent gain is that part of the tax |
| `Simulation.SellingOutOwesTheWhole` | packages/core/src/application/simulation.py:136-155 | on an aged wrapper the taxes on the way out of selling every line whole add up to the projected tax of the plan's latent gain |

## Left out

- Floating point: amounts are exact reals, so rounding, NaN and infinity filtering, `%.16g` keys and decimal reprs are not modelled.
- HTTP, ASGI and MCP plumbing, problem bodies, logging, the model that reads a statement's text, and every foreign call: their answers are inputs.
- Benchmark page around the merge (`_aggregate`, `_rows`, `_portfolio_at`, `readiness`): presentation of replays the model already describes.
- Latent gain of a snapshot (value less basis): a difference read off figures the model already describes, and not additive over accounts.
- JobStore.Store.Apply: writes the slot table alone; `job_pass` and `job_schedule`, and the log lines of a pass, are left out, the crash-recovery theorems being about slots.
- JobStore.Store.Flush: commits or gives back the whole batch, of which the rows written are the slots, as above.
- JobStore.Store.Restore: reloads the slots, not the passes nor the scrape's armings.
- JobCounts.SlotsCountThePasses: the hours of the passes recorded do not go back, as on one clock.
- Job page reads (`read`) and the `started` instant: presentation.
- JobHistory.Memory.Load: loads slots only, not the recent passes; a slot is a value replaced in its track rather than an object updated in place, so aliasing between a handed-over slot and a live one is not captured.
- JobStore.EveryRunIsConsistent: keys are well formed (a scrape has a non-empty symbol and no other job has one), flushes are serialized as their lock makes them, and the clock does not go back.
- PriceStore.Store.RecordQuote: the attribute columns it refreshes (name, currency, sector, fetch time) are left out; no point, mirror or anchor depends on them.
- Splits and their marks in the store, and `forget_symbol`: they move no point the theorems speak of, or end the symbol's history altogether.
- LatestQuote.MirrorHolds: assumes that a write brings no second point of a symbol at one instant.
- PriceStore.Store.RepairConversions: the SQL statements are set comprehensions over the table; a tie at one instant is broken by row number, as the statement's ordering does.
- Backfill.BackwardPass: the retry delay after a failure, the give-up count and the published record are not modelled; a failed request or write is an absent answer.
- Backfill.ForwardPass: the retry delay and the published record are not modelled; a failed request or write is an absent answer that changes nothing.
- Xirr.Solve: the value function is any function of the reals, so the exception a float overflow raises, answered with no rate, has no counterpart; fractional powers are the parameter `discount`.
- PerformanceSeries.ComputeAccount: the timeline is given as functions of the day, the same in both runs of a continuation; `writable_fields` and the rows a pass writes or prunes are not modelled.
- PortfolioTotal.TotalContinues: the total's cash-ledger flag is compared only where every account is continued, since the pass that continues a total restores that flag itself.
- Scrypt, HMAC and signatures: a hash is its salt and code, a cookie is its session id, secret and signing time and is only ever one that was issued, and secrets, tokens and session ids never repeat.
- AuthGate.Gate.Commit: the class runs one commit at a time with nothing beside it; the routes and what races them are the steps of `AuthGate.Takes`, where the slow work inside the lock is one step.
- AuthGate.AcceptedCookieDescends: the history opens before any cookie is signed; restarts are steps of it.
- AuthSessions.LoggedOutStaysOut: the gate's clock does not go back.
- Gate routing (open paths, bearer checks, the status route, `reset`) and the throttle's part in the routes: branching on text that touches neither the snapshot nor a cookie.
- Ledger.CanonicalIsIdempotent: over ASCII text; Unicode normalisation and invisible characters are not modelled.
- Aggregator.Replay: follows the shares, which decide every refusal; cash, cost basis and realised gain are left out.
- Entries.Store.RecordMany: the validator is any predicate of the settled events, the same for the dry run; account and currency declarations and the single-event gestures are left out.
- Entries.Store.Judge: the accounts a file would declare, or leaves pending, are left out.
- Statements.Positions: titles' names, the marks and the order of the drafted events are not modelled, and a ledger's symbols are taken as already canonical.
- Statements.Reconcile: positions statements only; `operations`, `resolve`, `statement_key` and `total_check` are left out.
- Statements.RecordingReachesTheStatement: speaks of a write that landed; a later event of the ledger may still have it refused (`Entries.Store.RecordMany` says when). The account is trimmed, and the lines' and rows' tickers are canonical, as they are stored.
- Taxation.Validate: a refusal carries no message, and how a text is read as a number is the parameter `parse`.
- Simulation.SimulateSale: quantities and prices are finite by construction, and the list of what is not modelled is three flags.
