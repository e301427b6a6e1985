# Verified models of a one-lot scalping engine

This project models the stateful engines of an intraday trading back end and proves what they promise
over whole runs: the tick-to-candle engine and its cache, the backtest loop with its risk governor and
portfolio ledger, the notification outbox and its dispatcher, the quote guard, and the option-contract
search; and four smaller pieces they lean on: the implied-volatility bisection, the CSV printer, the
drawdown and group reports, and the simulated fills.

`dafny verify dfyconfig.toml` checks everything.

## How the models are built

Where the original changes objects step by step, the model is a class with the same fields and methods,
and each method's postcondition equates the new state with a function of the old one. The properties are
then proved about those functions, over runs of any length: interleavings of ticks and timer calls
(`CandleRuns`, `CandleBatch`), insertion sequences (`CandleCaches`), sequences of reserve, cancel, activate,
mark and close (`GovernorRuns`), bars of data (`Backtest`), interleaved steps of any number of workers
(`OutboxRuns`), request traces with their clock readings (`QuoteGuard`), turns of a drain loop
(`QuoteQueues`), and calls of the recursive search (`ContractSearch`).

Beside those functions stand laws that say in plain fields and figures what each of them comes to
(`AdmissionGates`, `OutboxWrites`, `DispatchTable`, `QuoteBreaker`, `PickGates`, `ExecutionNumbers`, and the
lemmas named `...InNumbers` and `...Exact`): without the functions' own names, so that a swapped side, a
skipped write or another constant breaks one of them.

| file | engine |
|---|---|
| `Candles.dfy`, `CandleRuns.dfy`, `CandleBatch.dfy` | candle builder; lanes and timer erasure; batch form, coarsening, volume |
| `CandleCaches.dfy` | candle cache |
| `Portfolio.dfy`, `RiskGovernor.dfy`, `AdmissionGates.dfy`, `GovernorRuns.dfy`, `DailyLimit.dfy`, `Backtest.dfy`, `BacktestLimit.dfy` | ledger, sizing and admission, the gates in numbers, protocol runs, daily limit, event loop |
| `Outbox.dfy`, `OutboxWrites.dfy`, `OutboxRuns.dfy`, `Dispatcher.dfy`, `DispatchTable.dfy` | outbox documents, what each write stores, interleaved runs, drain, the ends of a job |
| `QuoteGuard.dfy`, `QuoteBreaker.dfy`, `QuoteQueue.dfy` | rate limit and retries; the breaker told from the log; single-flight queue |
| `OptionsRouter.dfy`, `PickGates.dfy`, `ContractSearch.dfy`, `Sorting.dfy` | gates, ranking and wall; the same as inequalities; recursive search; stable sort |
| `ImpliedVol.dfy`, `Csv.dfy`, `Analytics.dfy`, `Execution.dfy`, `ExecutionNumbers.dfy` | bisection, CSV, reports, simulated fills and their numbers |
| `Common.dfy` | shared vocabulary |

Conventions: times are integer milliseconds, local time has a fixed offset, prices and money are exact
reals, quantities are integers. A value the original reads as "not a finite number" is `None`. Strategy,
plan builder, dynamic exits, cost model, Telegram answers, quote answers and clock readings are arbitrary
functions or parameters, so each result holds for all of them.

## Where the code does less than one might expect

Each of these is a theorem. Where a run goes wrong there is a concrete one, and beside it the condition
under which the expected property does hold; unless said otherwise the condition is exact.

- A late tick that falls into the bucket of the last real bar after the timer has closed that bar makes
  the builder emit the bar twice (`LateTickReopens`); without such a tick, and only then, timer calls are
  invisible (`TimerErasure`).
- The open-risk check at admission ignores outstanding reservations, so two admissions in a row can open
  more risk than the limit (`OpenRiskCapNeedsCare`). Over whole runs, open and reserved risk stay within the
  limit at every moment exactly when each accepted admission finds room for its risk beside all that is
  already open and reserved, and no activation goes beyond its reservation by more than the slack
  (`OpenRiskExact`); admitting only while nothing is reserved, and opening no riskier than reserved, is one
  way to do so (`OpenRiskCap`).
- The daily trade limit counts closes, so positions in flight escape it: for every pair of limits a run
  overshoots it by the position cap minus one (`OvershootReached`), a whole backtest too
  (`BacktestOvershoots`), and none by more (`CapsOverRuns`, `CapsThroughout`). It is kept on every run exactly
  when one position at a time is allowed or the configuration can let nothing in (`DailyLimitExact`).
- A backtest ends flat exactly when the last price is positive or nothing is open (`RunBacktest`).
- With its read and its write apart, `markJobSent` can mark a job sent in a state that was never delivered
  (`InterleavedEnqueueIsLost`): exactly when it read the hash it had delivered and the last enqueue before
  its write brought another (`SplitMarkExact`). As one step it cannot, provided both hashes are present
  (`SentMeansDelivered`, `MarkSentExact`).
- A retry or failure mark compares no hashes and can bury a newer state (`FailureCanBuryNewState`). Over every
  run, a failed job holds a state its last attempt never saw exactly when another state was enqueued between
  that attempt's claim and its mark (`BuriedExact`, `AttemptBuriesExact`).
- With two workers a late delivery can replace a newer card (`TwoWorkersCanShowOldState`). Over every run of
  any number of workers, a sent job is on display in its stored state exactly when no copy of another state
  is delivered while the job is sent and every mark that ends as sent finds its own state on display
  (`ShownExact`); a single worker always meets both (`SentMeansShown`).
- Jitter, on by default, can shorten a wait exactly when its span exceeds half a millisecond
  (`JitterNeverShortens`), so the minimum interval is kept on every run exactly when its own span does not
  (`SpacingExact`); what every run keeps is the shortened interval (`SpacingHolds`).
- With a clock that moves between a send and the next check, the request budget holds on every run exactly
  when even the earliest request after a full list, sleeping as little as jitter allows, goes out after the
  oldest has expired (`BudgetExact`). That is so without jitter (`NoJitterCovers`), which takes a negative
  setting, since a zero is read as the default, and not so at the default settings (`DefaultsDoNotCover`).
  When the clock may stand still, it holds on every run exactly when the shortened interval alone enforces
  it (`WeakClockExact`).
- A claim compares times of a millisecond: the time it saw is still there exactly when everything written in
  between was written in that very millisecond (`SameStampExact`), and then it can claim a job another worker
  has put off (`SameMillisecondIsNotSeen`).
- Retries of the contract search drop the signal's market state and danger score (`RetriesForgetTheSignal`,
  `PolicyEndsOnlyTheFirstCall`).
- A CSV file without columns does not parse back; every other one does (`CsvRoundTrip`).
- A seed that is a positive multiple of 2147483647 draws the same negative number for ever; no other seed
  degenerates (`GeneratorDegeneratesExactly`).

## Model

| member | source | states |
|---|---|---|
| Candles.CandleBuilder.OnTicks | src/market/candleBuilder.js:41-152 | The in-place loops over ticks and intervals compute one `Step` of the run semantics: the new maps and every closed bar, in order. |
| Candles.CandleBuilder.FeedOneKey | src/market/candleBuilder.js:101-148 | One tick meets one lane: a fresh bar, a bar closed and replaced, or a bar extended, with a placeholder turned back into a live bar first. |
| Candles.CandleBuilder.FinalizeDue | src/market/candleBuilder.js:159-214 | A timer call closes, per lane and oldest first, at most `maxBars` overdue bars and leaves a placeholder; keys are visited in insertion order and stay as they were. |
| Candles.BucketHolds | src/market/candleBuilder.js:35-39 | The start of a tick's bar is the one time in the same hour that is a whole minute, a multiple of the interval within the hour, at or before the tick, and less than the interval before it. |
| Candles.TickShows | src/market/candleBuilder.js:41-148 | After a tick with a token and a price, the bar in progress of every interval starts in that tick's bucket, closes at its price and spans it, and its day volume is kept; any other tick changes nothing. |
| Candles.VolumeIsGrowth | src/market/candleBuilder.js:87-99 | A tick adds its last traded quantity if there is one, else what the day volume grew by, or the whole reading after a reset; never less than nothing. |
| CandleRuns.RunSplitsIntoLanes | src/market/candleBuilder.js:101-214 | In any interleaving of tick batches and timer calls, the state and output of one token and interval depend only on what that lane sees. |
| CandleRuns.TimerCloses | src/market/candleBuilder.js:159-214 | A timer call closes, starting with the bar in progress, exactly the bars whose end plus the grace has passed, up to the number allowed, the later ones flat at the last close, and leaves the next one in progress. |
| CandleRuns.LaneErasure | src/market/candleBuilder.js:125-142 | On a lane, dropping placeholders gives the bars of the tick-only run if and only if no tick falls into the bucket of the latest real bar after the timer closed it. |
| CandleRuns.TimerErasure | src/market/candleBuilder.js:101-214 | The same equivalence for the whole builder: every run, every lane, any order of ticks and timer calls. |
| CandleRuns.TimerErasureInOrder | src/market/candleBuilder.js:116-214 | When no tick's bucket is older than the bar in progress, the timer is invisible. |
| CandleRuns.LateTickReopens | src/market/candleBuilder.js:116-123 | A tick of second 45 arriving after the timer closed its minute makes the output differ from the tick-only run. |
| CandleBatch.StreamEqualsBatch | src/market/candleBuilder.js:101-148 | For any tick list, bar number i is first price, maximum, minimum, last price and summed volume of the i-th maximal run of equal-bucket ticks, and every tick of it lies within the bar's own minutes. |
| CandleBatch.ChartEqualsBatch | src/market/candleBuilder.js:41-214 | The same for the builder with its timer running, when no bar is reopened: every tick of a bar lies from its start to `interval` times 60000 ms later. |
| CandleBatch.BucketsNest | src/market/candleBuilder.js:35-39 | For m dividing n, the n-minute bucket of a time is the n-minute bucket of its m-minute bucket. |
| CandleBatch.CoarseningCommutes | src/market/candleBuilder.js:35-39 | For m dividing n, merging the m-minute bars of any tick list, ordered or not, gives its n-minute bars. |
| CandleBatch.ChartsNest | src/market/candleBuilder.js:101-214 | In one builder, with timer calls, the n-minute chart is the m-minute chart merged. |
| CandleBatch.VolumeConserved | src/market/candleBuilder.js:87-99 | Without last-traded quantities, the volume over all bars of a token is, for every interval and whatever the timer did, last day volume minus first plus the reading before each reset. |
| CandleCaches.UpsertContents | src/market/candleCache.js:28-55 | Placing a candle keeps the list strictly ascending, replaces exactly the candle of the same time, and keeps all others. |
| CandleCaches.CacheRefinesMap | src/market/candleCache.js:16-60 | After any insertions in any order the list is the newest `maxCandles` entries of the last-write-wins map, oldest first. |
| CandleCaches.NewestUnique | src/market/candleCache.js:57-59 | That description fits exactly one list. |
| CandleCaches.InsertionOrderIrrelevant | src/market/candleCache.js:16-60 | For distinct times, any two insertion orders leave the same list. |
| CandleCaches.CandleCache.AddCandle | src/market/candleCache.js:16-60 | The push, overwrite and splice branches keep every stored list equal to what its own insertions leave; dropped candles change nothing. |
| CandleCaches.CandleCache.AddCandles | src/market/candleCache.js:62-66 | The candles present in a list are inserted in its order, the others skipped. |
| CandleCaches.CandleCache.GetCandles | src/market/candleCache.js:68-75 | The result is the newest `limit` of everything ever inserted for the key, capped by the cache size. |
| Portfolio.ReserveMoves | src/backtest/portfolioState.js:95-103 | Reserving moves exactly its capital from free to reserved and leaves equity, used capital and open risk alone. |
| Portfolio.CancelUndoesReserve | src/backtest/portfolioState.js:105-109 | Cancelling a fresh reservation restores the ledger. |
| Portfolio.ActivateMoves | src/backtest/portfolioState.js:111-122 | Activation releases exactly what was reserved and adds exactly the actual capital and risk; equity stays. |
| Portfolio.ActivationTakesOver | src/backtest/portfolioState.js:111-122 | Without figures of its own a position takes over what was reserved for it; the reservation goes, every other entry of both maps stays. |
| Portfolio.CloseMoves | src/backtest/portfolioState.js:139-148 | Closing releases the position's capital and risk, and swaps its unrealized mark for the realized result. |
| Portfolio.CloseBooks | src/backtest/portfolioState.js:139-148 | A close lets only its position go, adds its result to realized profit and to its day, counts one trade, and extends the losing streak exactly when it lost money; on a new day the day's figures and flags start afresh. |
| Portfolio.MarkMoves | src/backtest/portfolioState.js:124-137 | Marking sets every position's mark and time, zero where none is given, and changes neither used or reserved capital, open risk nor realized profit. |
| Portfolio.PortfolioState.Identity | src/backtest/portfolioState.js:35-56 | In the stored fields, free + used + reserved = equity = initial + realized + unrealized, and drawdown is peak minus equity, never negative. |
| Portfolio.PortfolioState.Recalculate | src/backtest/portfolioState.js:35-56 | The totals summed in a loop are the sums over the two maps; the peak rises to the new equity. |
| Portfolio.PortfolioState.UpdateMarks | src/backtest/portfolioState.js:124-137 | The last mark named for a position counts, an unnamed position is marked zero, nothing else moves, and one snapshot is recorded. |
| Portfolio.LastMarkWins | src/backtest/portfolioState.js:124-128 | A position's mark is that of its last mention in the list, and it has none exactly when no entry names it. |
| Portfolio.PortfolioState.ClosePosition | src/backtest/portfolioState.js:139-148 | The new ledger, with day rollover, streak and daily counters, and the snapshot curve. |
| Portfolio.PortfolioState.RecordSnapshot | src/backtest/portfolioState.js:58-89 | A snapshot shows every total, count, day field and flag of the recomputed ledger, and what it was taken for; snapshots of one time replace each other, undated ones are appended. |
| Portfolio.SnapshotAddsUp | src/backtest/portfolioState.js:58-79 | In a snapshot free, used and reserved capital add up to the equity, which is initial capital plus realized and unrealized profit; drawdown is how far it lies under the peak, in money and in percent. |
| Portfolio.CurveKeeps | src/backtest/portfolioState.js:80-89 | The newest snapshot ends the curve and replaces only one of its own time; every earlier one stays. |
| RiskGovernors.SizingOptimal | src/backtest/riskGovernor.js:15-97 | The lots chosen are the largest whole number within the buffered capital budget, the free capital, the risk budget (unless capital-capped) and the intention; a request is refused exactly when not even one lot fits. |
| RiskGovernors.WorthlessNeverSizes | src/backtest/riskGovernor.js:41-44 | Without a positive capital need per lot a request is refused for capital. |
| RiskGovernors.BufferLeftFree | src/backtest/riskGovernor.js:34-36 | What an accepted size leaves free is at least the buffer share of the free capital. |
| RiskGovernors.RiskGovernor.GetHaltState | src/backtest/riskGovernor.js:145-195 | The day is rolled, the totals recomputed and both flags set; the reasons are those of the resulting ledger, in checking order. |
| RiskGovernors.RiskGovernor.PreviewPosition | src/backtest/riskGovernor.js:197-275 | A preview changes the ledger only as a look at the halt state does, and gives the verdict of that ledger. |
| AdmissionGates.SizeInNumbers | src/backtest/riskGovernor.js:15-97 | The lots sized are the largest number whose quantity, capital and risk keep the mode's limits, written out; quantity, capital and risk are that many lots' worth. |
| AdmissionGates.RefusalInNumbers | src/backtest/riskGovernor.js:41-90 | A request is refused exactly when a single lot breaks a limit, for the first one it breaks. |
| AdmissionGates.HaltsInNumbers | src/backtest/riskGovernor.js:145-195 | The halt reasons are exactly those whose limit is reached, in order, each limit written out on the ledger's fields. |
| AdmissionGates.RefusedAtFirstGate | src/backtest/riskGovernor.js:197-275 | A request is accepted exactly when none of the gates stops it, and refused with the reason of the first that does. |
| AdmissionGates.LookInNumbers | src/backtest/riskGovernor.js:145-195 | A look at the halt state opens the day of its time, raises the peak to the equity and sets the two flags; nothing else moves. |
| RiskGovernors.RiskGovernor.ReservePosition | src/backtest/riskGovernor.js:277-285 | Only an accepted preview reserves, and exactly its capital and risk. |
| GovernorRuns.AcceptedBelowCaps | src/backtest/riskGovernor.js:228-236 | An accepted preview saw fewer positions and reservations than allowed, and fewer closes today than allowed. |
| GovernorRuns.CapsOverRuns | src/backtest/riskGovernor.js:159-161 | Over every protocol run, positions plus reservations never exceed the position cap, and closes today plus both never exceed trade cap plus position cap minus one. |
| DailyLimit.OvershootReached | src/backtest/riskGovernor.js:159-236 | Unless the configuration lets nothing in at all, some legal run closes trade cap plus n minus one trades in one day, for every n up to the position cap. |
| DailyLimit.DailyLimitExact | src/backtest/riskGovernor.js:159-236 | Every legal run keeps the daily limit if and only if the position cap is one, or no capital, buffer and cutoff time would ever let an entry in. |
| GovernorRuns.RealizedIsClosed | src/backtest/portfolioState.js:139-148 | Over every run, realized profit is the sum of the closes and nothing else. |
| GovernorRuns.DayIsItsCloses | src/backtest/portfolioState.js:25-33 | Over every run whose days do not go back, the day's profit and number of trades are the sum and the count of the closes of that day. |
| GovernorRuns.StreakIsLosses | src/backtest/portfolioState.js:139-148 | Over every run, the losing streak is the number of losing closes since the last one that did not lose. |
| GovernorRuns.PeakNeverFalls | src/backtest/portfolioState.js:52-54 | Over every run the recorded peak never falls and is never below equity. |
| GovernorRuns.StoppedForever | src/backtest/riskGovernor.js:153-158 | Once flat and halted for losses in a row or for drawdown, no later operation, day change included, lets anything in. |
| GovernorRuns.DailyStopLastsTheDay | src/backtest/riskGovernor.js:145-153 | Once flat and halted for the daily loss, nothing is let in until the day changes. |
| GovernorRuns.OpenRiskCap | src/backtest/riskGovernor.js:260-268 | If admissions find nothing reserved and positions open with no more risk than reserved, open risk never exceeds its limit. |
| GovernorRuns.OpenRiskExact | src/backtest/riskGovernor.js:260-268 | Over every legal run, open plus reserved risk is within the limit at every moment exactly when every accepted admission fits beside all open and reserved risk and every activation stays within its reservation and the slack. |
| GovernorRuns.OpenRiskCapNeedsCare | src/backtest/riskGovernor.js:260-268 | Without that, two admissions in a row open 120 of risk against a limit of 100. |
| Backtest.FallbackPlanBrackets | src/backtest/runBacktest.js:125-130 | The fallback stop is on the losing side at the configured percentage of the price, but at least 0.05 away, the target on the winning side at the reward multiple of that distance. |
| Backtest.AdmittedEntryIsSized | src/backtest/runBacktest.js:699-866 | A signal that passes every gate queues one entry, due after the latency, in the largest number of lots that fits the free capital and the mode of that moment, and exactly its capital leaves the free capital; any other signal queues nothing. |
| Backtest.AdmitsInNumbers | src/backtest/runBacktest.js:311-800 | A signal is admitted exactly when strategy, confidence, cooldown, freshness, contract, candle, data and liquidity are in order and the governor accepts. |
| Backtest.FirstObstacle | src/backtest/runBacktest.js:311-333 | The reason reported for a signal is that of the first thing in its way, in the order of the source. |
| Backtest.ThroughBarKeepsAccounts | src/backtest/runBacktest.js:530-695 | Through a bar a trade gains at most one exit fill of what was left, its fills plus remainder stay the entry quantity, its money fields stay those of its fills, and it closes exactly when nothing is left. |
| Backtest.BarInNumbers | src/backtest/runBacktest.js:530-695 | What a bar does to a trade, field by field: the price noted, the exit put `latency` bars ahead, and on its bar a fill at the offered price of what is offered and left, whose gain is gross and whose cost is the cost model's for that quantity at the middle of entry and exit price; net is gross less cost. |
| Backtest.SaleInNumbers | src/backtest/runBacktest.js:874-895 | At the close-out a trade is sold whole at the last price and charged the cost of that very sale. |
| Backtest.RunKeepsNet | src/backtest/runBacktest.js:640-905 | Every closed trade of a run has as net result the gains of its fills less what the cost model charges for each of them, fills of the close-out included. |
| Backtest.Engine.ProcessDueEntries | src/backtest/runBacktest.js:382-527 | Every due entry, in order, becomes a trade or loses its reservation, on its own bar; the others wait; reservations and positions stay exactly pending entries and open trades. |
| Backtest.Engine.ResolveFirst | src/backtest/runBacktest.js:383-521 | An entry opens exactly one trade, with the filled quantity and price, when its fill has both; otherwise its reservation is dropped. |
| Backtest.EntryInNumbers | src/backtest/runBacktest.js:383-521 | A due entry with a quantity and a positive price becomes one trade as filled, and a position of its cost times the margin and of its quantity times the distance to the stop; any other loses its reservation. |
| Backtest.Engine.ManageOpenTrades | src/backtest/runBacktest.js:529-696 | Every open trade goes through the bar in order; finished ones are booked with their whole net result and, when losing, put their strategy on hold; the others stay, in order. |
| Backtest.Engine.ManageTrade | src/backtest/runBacktest.js:530-695 | The in-place updates of one trade are one `ThroughBar`, and only a finished trade touches ledger, closed trades and cooldowns. |
| Backtest.Engine.MarkToMarket | src/backtest/runBacktest.js:697 | After marking, equity is initial capital plus results of the closed trades plus the open quantities at their last prices. |
| Backtest.OpenPnlInNumbers | src/backtest/runBacktest.js:697 | Open profit is, trade by trade, last price against entry price for what is left of it. |
| Backtest.Engine.ConsiderSignal | src/backtest/runBacktest.js:699-866 | A signal reserves and queues one entry, sized as the governor accepted it and due `latency` bars later, exactly when every gate passes. |
| Backtest.Engine.Bar | src/backtest/runBacktest.js:375-867 | One bar is due entries, open trades, marks and signal, in this order; at its end ledger and lists agree and equity is marked to market. |
| Backtest.Engine.CloseOut | src/backtest/runBacktest.js:869-920 | Every remaining reservation is dropped and, at a positive last price, every open trade is sold whole; equity is then initial capital plus results. |
| Backtest.BarsTraded | src/backtest/runBacktest.js:382-696 | After any number of bars, open and closed trades together are the filled entries one for one: numbered in order, each with its entry's side and strategy and the bar, price and quantity of its fill. |
| Backtest.CooldownHolds | src/backtest/runBacktest.js:684-781 | Over any bars: after a losing close on bar b no entry of its strategy is admitted from bar b to b plus the cooldown, whatever closes in between. |
| Backtest.HoldExact | src/backtest/runBacktest.js:684-781 | After any number of bars a strategy is on hold exactly when one of its trades closed at a loss no more than the cooldown ago. |
| Backtest.RunBacktest | src/backtest/runBacktest.js:335-931 | Whole runs: the operations are a legal protocol run whose ledger the report shows; the admitted entries are those its accepted admissions granted, in order and quantity; each is resolved once, at signal bar + max(1, latency), or the data ends first; it opens a trade exactly when filled, and the trades of the report are the filled entries one for one; every trade's fills and remainder add up to its entry quantity, with nothing left of a closed one, whose net result is the gains of its fills less their costs; equity is initial capital plus net results; the run is flat exactly when the last price is positive or nothing was open. |
| Backtest.CapsThroughout | src/backtest/riskGovernor.js:228-236 | At every moment of a backtest the position cap and the bound on closes per day hold. |
| BacktestLimit.BacktestOvershoots | src/backtest/runBacktest.js:375-867 | On any stretch of one day before the cutoff there are data for which the loop closes trade cap plus n minus one trades, for every n up to the position cap, so the bound of `CapsThroughout` is reached. |
| BacktestLimit.ReportOvershoots | src/backtest/runBacktest.js:869-931 | Every report of such a backtest shows that many closed trades. |
| Outbox.DelayGrowsToCap | src/alerts/notificationOutbox.js:11-22 | The delay before jitter never shrinks with the retry count, is at least 250 ms, at least what the transport asked for, and at most 120 s unless it asked for more. |
| Outbox.OutboxCollection.EnqueueOutboxJob | src/alerts/notificationOutbox.js:70-125 | A trade card overwrites its waiting job and starts its retries afresh; any other key is insert-only. |
| Outbox.OutboxCollection.FindDue | src/alerts/notificationOutbox.js:131-138 | The due jobs first by due time, then last change, then creation; no due job left out that comes before one taken, as many as the limit allows. |
| Outbox.OutboxCollection.ClaimDueJobs | src/alerts/notificationOutbox.js:127-162 | With any writes of others before each compare-and-set, and a database fault at any call, the claims and the collection are those of `ClaimRound` over the due jobs. |
| Outbox.RoundClaimsUntouched | src/alerts/notificationOutbox.js:140-158 | Whatever others write, as long as each write carries a later time, a round claims exactly the due jobs nobody touched before their turn, each in the form in which it was found. |
| Outbox.UndisturbedRound | src/alerts/notificationOutbox.js:140-158 | With nobody else writing, every job found is claimed and no other document changes. |
| OutboxWrites.RoundWrites | src/alerts/notificationOutbox.js:140-158 | Every claim of a round is the job as it was found, but processing since now; `processingAt` and `updatedAt` are the time of the claim, all other fields as found. |
| OutboxWrites.TurnExact | src/alerts/notificationOutbox.js:140-158 | Whatever others write, a compare-and-set claims exactly when the job is there with the status and time of change that were found. |
| OutboxWrites.AbandonedClaimReturns | src/alerts/notificationOutbox.js:140-328 | A job claimed at time t and written by nobody since goes back to retry at a stale requeue exactly when t is at least the stale time ago, 60 s by default and never under 1 s; until then it stays as claimed. |
| OutboxWrites.EnqueueWrites | src/alerts/notificationOutbox.js:70-125 | What an enqueue stores, field by field; what a card keeps of its old job is its creation time and last delivery. |
| OutboxWrites.SentWrites | src/alerts/notificationOutbox.js:169-223 | What a sent mark stores, field by field: back to pending at once when both hashes are there and differ, else sent. |
| OutboxWrites.RetryWrites | src/alerts/notificationOutbox.js:225-278 | What a retry mark stores, field by field: failed once the retries exceed the limit, and a forced send only before that. |
| OutboxWrites.FailWrites | src/alerts/notificationOutbox.js:280-304 | What a failure mark stores, field by field. |
| OutboxWrites.DueInOrder | src/alerts/notificationOutbox.js:131-138 | The jobs found are pending or in retry and due, by due time, then last change, then creation, and a due job is left out only when the limit is used up by jobs due no later. |
| OutboxWrites.DelayDoubles | src/alerts/notificationOutbox.js:11-22 | The first retry waits the base delay, 1500 ms by default and at least 250; each later one twice the last, up to 120 s. |
| Outbox.OutboxCollection.MarkJobSent | src/alerts/notificationOutbox.js:169-223 | The outcome is superseded exactly when the job is pending again, delivered exactly when it is sent. |
| Outbox.OutboxCollection.RequeueStaleProcessingJobs | src/alerts/notificationOutbox.js:306-328 | Exactly the jobs processing since before the cutoff go back to retry, and their number is returned. |
| OutboxRuns.NoLostSupersession | src/alerts/notificationOutbox.js:169-223 | With read and write as one step, no interleaving of any number of workers marks a job sent whose delivered state is not the stored one. |
| OutboxRuns.SentMeansDelivered | src/alerts/notificationOutbox.js:169-223 | From an empty outbox with hashes on every job: sent means the stored state is the delivered one. |
| OutboxRuns.MarkSentExact | src/alerts/notificationOutbox.js:175-198 | A single mark goes wrong exactly when one of the two hashes is empty and the other is not. |
| OutboxRuns.SentMeansShown | src/alerts/notificationDispatcher.js:856-857 | With the single drain worker, a sent job's stored state is also that of the latest delivery. |
| OutboxRuns.TwoWorkersCanShowOldState | src/alerts/notificationOutbox.js:80-101 | With two workers a job can be sent in one state while the display shows an older one. |
| OutboxRuns.ShownExact | src/alerts/notificationOutbox.js:80-223 | Over every run of any number of workers, sent means displayed in the stored state throughout if and only if no other state is delivered while the job is sent and each mark that ends as sent finds its state displayed. |
| OutboxRuns.SplitMarkExact | src/alerts/notificationOutbox.js:172-221 | With anything happening between read and write, the job ends as sent in an undelivered state exactly when the hash read was the delivered one and the last enqueue in between brought another. |
| OutboxRuns.InterleavedEnqueueIsLost | src/alerts/notificationOutbox.js:172-221 | An enqueue between them ends as sent without ever being delivered. |
| OutboxRuns.SameStampExact | src/alerts/notificationOutbox.js:140-158 | Over any interleaving with a clock that never runs backwards, the time a worker saw is still stored exactly when every write since was made in that millisecond. |
| OutboxRuns.SameStampSameDoc | src/alerts/notificationOutbox.js:140-158 | When writes come at different milliseconds, an unchanged time means an unchanged document, so the claim is made on the very document that was seen. |
| OutboxRuns.SameMillisecondIsNotSeen | src/alerts/notificationOutbox.js:140-158 | A job claimed and put off by another worker within one millisecond can be claimed before it is due. |
| OutboxRuns.SentIsFinal | src/alerts/notificationOutbox.js:131-135 | A sent job nobody holds stays as it is until the next enqueue. |
| OutboxRuns.AttemptsBounded | src/alerts/notificationOutbox.js:225-304 | With the single drain worker, one enqueue gets at most `maxRetries + 1` failed attempts, given-up ones included. |
| OutboxRuns.AttemptsPerEnqueue | src/alerts/notificationOutbox.js:225-328 | With any number of workers, an enqueue leads, until the next, to at most `maxRetries + 1` failed attempts, and as many again for every copy held when it came and every stale requeue since. |
| OutboxRuns.AttemptsBoundedForAll | src/alerts/notificationOutbox.js:102-122 | With any number of workers, an insert-only job fails at most (1 + stale requeues) times (`maxRetries + 1`). |
| OutboxRuns.DuplicatesBounded | src/alerts/notificationOutbox.js:102-122 | With any number of workers, an insert-only job is delivered at most 1 + stale requeues + post-send bookkeeping failures times. |
| OutboxRuns.FailureCanBuryNewState | src/alerts/notificationOutbox.js:280-304 | A state enqueued while an older one is being delivered can end as failed without one delivery. |
| OutboxRuns.AttemptBuriesExact | src/alerts/notificationOutbox.js:225-304 | One attempt among any others fails the job in a state it never saw exactly when another state was enqueued between its claim and its mark and no retry was left or the failure was permanent. |
| OutboxRuns.BuriedExact | src/alerts/notificationOutbox.js:225-304 | Over every run of any number of workers, a failed job has a last attempt, and holds a state this attempt never saw exactly when another state was enqueued between its claim and its mark. |
| Dispatcher.GoneMessageIsResent | src/alerts/notificationDispatcher.js:784-810 | A card whose message is gone is resent at once, or its next attempt is a fresh send, unless the retries are used up or the drain breaks off; the ledger no longer names the gone message. |
| Dispatcher.SentCardAgrees | src/alerts/notificationDispatcher.js:816-848 | After a card is marked sent under a message, job and ledger name that same message, and the next delivery edits it. |
| DispatchTable.EndsExactly | src/alerts/notificationDispatcher.js:762-962 | A job is marked sent exactly when it was delivered and ledger and mark went through; after an error the drain is deferred for a transient fault, stopped for another fault of the mark, and the job else retried or given up by the kind of the error, forced to send only after a failed resend. |
| DispatchTable.TurnWrites | src/alerts/notificationDispatcher.js:908-962 | The stored job after its turn in an undisturbed drain, field by field, for every end it can meet. |
| DispatchTable.LedgerExact | src/alerts/notificationDispatcher.js:784-842 | A delivered card is in the ledger under the message it was delivered as, a gone card that was not sent anew under none, and every other card is as before. |
| Dispatcher.NotificationDispatcher.ProcessOutboxJob | src/alerts/notificationDispatcher.js:762-854 | Send, edit, no-change, invalidation, resend, ledger and sent-mark answers lead to the prescribed end, card ledger and document; an error leaves the document alone. |
| Dispatcher.NotificationDispatcher.SettleJob | src/alerts/notificationDispatcher.js:908-962 | Every job of a drain ends in the one mark its route prescribes, or breaks the drain off with its document unchanged, faults of the marks themselves included. |
| Dispatcher.NotificationDispatcher.ProcessOutboxOnce | src/alerts/notificationDispatcher.js:856-980 | A drain in flight or a deferred poll changes nothing; otherwise every claimed job before the first that breaks the drain off is settled, later ones stay claimed, the card ledger shows the jobs reached, polling is deferred exactly after a transient fault, and the next drain may start. |
| QuoteGuard.GuardState.ApplyRateLimits | src/kite/quoteGuard.js:107-141 | The check is refused exactly while the breaker is open; otherwise it returns the wait decided on the pruned list. |
| QuoteGuard.GuardState.GuardedGetQuoteWithRetry | src/kite/quoteGuard.js:172-220 | At most `maxRetries + 1` attempts, all but the last retryable; it answers exactly when its last attempt was let out and succeeded, and gives up only when refused, on a fatal answer, or with no retry left; the final state is that of the trace of attempts. |
| QuoteBreaker.WaitIsLeast | src/kite/quoteGuard.js:121-141 | The wait is the least that keeps the minimum interval and, with the budget used up, lets the oldest request expire. |
| QuoteBreaker.PruneInNumbers | src/kite/quoteGuard.js:100-105 | Pruning drops the oldest requests, those more than the window ago, up to the first that is not. |
| QuoteBreaker.StreakCounts | src/kite/quoteGuard.js:172-193 | In every run the failure streak is the number of fatal or refused attempts since the last success. |
| QuoteBreaker.BreakerTimeExact | src/kite/quoteGuard.js:143-193 | In every run from the idle guard the breaker time is the end of the last attempt that failed as at least the `breakerFails`-th since the last success, plus the cooldown; zero if there was none. |
| QuoteBreaker.RefusedExact | src/kite/quoteGuard.js:107-193 | A check is refused, and nothing sent, exactly when the last attempt that opened the breaker is less than the cooldown ago. |
| QuoteBreaker.SleepDoubles | src/kite/quoteGuard.js:213-216 | The first retry waits the base, each further one twice as long, none longer than the cap. |
| QuoteBreaker.JitterInNumbers | src/kite/quoteGuard.js:14-20 | A drawn sleep lies within the jitter span around the wait, up to rounding; the middle draw leaves it as it is. |
| QuoteGuard.BackoffGrows | src/kite/quoteGuard.js:213-217 | The backoff before jitter never shrinks and is capped. |
| QuoteGuard.JitterNeverShortens | src/kite/quoteGuard.js:14-20 | Jitter never shortens a wait exactly when its span is at most half a millisecond. |
| QuoteGuard.NoDrawSleepsLess | src/kite/quoteGuard.js:14-20 | The least sleep the traces allow is the least over all draws, and one draw reaches it. |
| QuoteGuard.ChunkKeys | src/kite/quoteGuard.js:53-58 | The cutting loop gives the chunks of `ChunksCover`, with a size below one read as one. |
| QuoteGuard.ChunksCover | src/kite/quoteGuard.js:53-58 | The chunks put together are the keys in order, all full except possibly the last. |
| QuoteGuard.BudgetHolds | src/kite/quoteGuard.js:107-170 | When the settings cover the budget: on every trace, retries and shortened sleeps included, with the clock moved between send and next check, any half-open budget window holds at most `budgetMax` requests. |
| QuoteGuard.BudgetExact | src/kite/quoteGuard.js:107-170 | The budget holds on all such traces if and only if the settings cover it, for every jitter share. |
| QuoteGuard.NoJitterCovers | src/kite/quoteGuard.js:130-140 | Without jitter all settings cover the budget. |
| QuoteGuard.DefaultsDoNotCover | src/config.js:251-257 | The default settings do not. |
| QuoteGuard.SpacingHolds | src/kite/quoteGuard.js:123-140 | On every trace, whatever the clock and the budget, requests are in order and neighbours at least the shortened minimum interval apart, which is more than (1 - jitter) times the interval minus half a millisecond. |
| QuoteGuard.SpacingExact | src/kite/quoteGuard.js:123-140 | The whole minimum interval is kept on all traces if and only if its jitter span is at most half a millisecond. |
| QuoteGuard.BreakerHolds | src/kite/quoteGuard.js:115-157 | Once the breaker is open until u, no later request of the run is sent before u, and u never moves back. |
| QuoteGuard.WeakClockExact | src/kite/quoteGuard.js:107-140 | If the clock may stand still, the budget holds on all traces exactly when budget times shortened spacing covers the window. |
| QuoteQueues.TaskQueue.Turn | src/kite/quoteGuard.js:235-260 | One turn of the drain starts the oldest waiting task when there is room, ends the drain when none waits, and otherwise changes nothing. |
| QuoteQueues.QueueKeepsOrder | src/kite/quoteGuard.js:222-264 | In every run no task overtakes, is lost or started twice, none waits without a drain, and no more than the limit run at once. |
| QuoteQueues.SingleFlight | src/kite/quoteGuard.js:230-264 | With the limit at one, a task starts only after every earlier one has ended. |
| QuoteQueues.QueueDrains | src/kite/quoteGuard.js:235-264 | A drain whose tasks end works off the whole queue in order, and then closes. |
| OptionsRouter.BuildProductRiskAdaptation | src/fno/optionsRouter.js:95-167 | When the 1-DTE policy blocks and why; the tier fixes size and expiry advice, tier and expiry the recommendation; the fragility score. |
| OptionsRouter.AnchorIsNearest | src/fno/optionsRouter.js:691-722 | The anchor is the strike of a row nearest the target delta, in-band rows first, then nearest the fallback; without deltas the fallback. |
| OptionsRouter.BiggestWallDominates | src/fno/optionsRouter.js:626-643 | The wall candidate has the most open interest of the scanned strikes, the nearest of equals; none is found only if no scanned strike qualifies. |
| OptionsRouter.MedianIsPositive | src/fno/optionsRouter.js:617-621 | The median is positive, and missing exactly when no row has open interest. |
| OptionsRouter.ComputeOiWallContext | src/fno/optionsRouter.js:612-649 | The scan loop finds the wall of the specification. |
| OptionsRouter.PremiumBandFallback | src/fno/optionsRouter.js:1258-1275 | The fallback loop keeps the first of the best rescued rows. |
| OptionsRouter.ChoiceIsLeast | src/fno/optionsRouter.js:1228-1306 | A pick is least under (ok, score, distance) among the eligible rows; with none eligible, least among the rows that only miss the premium band, when that fallback is on; else nothing. |
| PickGates.GatesExact | src/fno/optionsRouter.js:1098-1189 | A row passes every gate but the premium band exactly when its spread is within the stage's limit, its book, pool and greeks keep their limits, written out as inequalities on its fields, and it is strictly under the wall for a call, strictly above for a put. |
| PickGates.SpreadLimit | src/fno/optionsRouter.js:992-993 | The spread limit: the setting, a quarter more from stage 1 on, cut to 88 percent under hardening. |
| PickGates.PremiumInNumbers | src/fno/optionsRouter.js:1095-1266 | The premium band with 25 more on each side from stage 2 on, the wider window of the fallback, and which gates make a row eligible. |
| PickGates.WallExact | src/fno/optionsRouter.js:612-649 | The wall stands i steps above the desired strike for a call, below for a put, within reach, at the first row of that strike, with the most (growing) open interest there, the nearest of equals, at least the multiple of the median; without a wall nothing in reach has as much. |
| PickGates.MedianInNumbers | src/fno/optionsRouter.js:603-610 | The median is the middle of the positive open interests in order, or halfway between the two middle ones. |
| PickGates.DesiredInNumbers | src/fno/optionsRouter.js:691-1079 | The desired strike is the base strike or that of the pool's row nearest the target delta: in the band first, then the smaller miss, then the nearer strike. |
| PickGates.ScopeInNumbers | src/fno/optionsRouter.js:1042-1066 | The anchor is sought among the rows of the liquidity gate, best score first; at most the top N, and no row is left out that scores higher than one taken. |
| PickGates.LiqScoreInNumbers | src/fno/optionsRouter.js:668-689 | The liquidity score is its base plus up to 45 points that fall with the spread, none from the cap on, kept from 0 to 100. |
| PickGates.ScoreInNumbers | src/fno/optionsRouter.js:1138-1168 | The score is taken at the distance to the desired strike in steps, with a penalty of 60 at or behind the wall, 10 beside one, 0 without. |
| PickGates.ChoiceInNumbers | src/fno/optionsRouter.js:1228-1306 | A pick ranks by gates passed, then lower score, then nearer strike; the fallback picks only with all its settings on and no row eligible. |
| PickGates.PickKeepsLimits | src/fno/optionsRouter.js:992-1306 | With all gates required, every pick, rescued or not, keeps the limits of its stage, and beside a wall lies strictly below it for a call, strictly above it for a put. |
| OptionsRouter.LaterStageExact | src/fno/optionsRouter.js:992-1036 | A row that passes all gates at one stage passes at every later one exactly when its spread is within that stage's cap, so always when the configured cap is not negative. |
| OptionsRouter.NoRowLostExact | src/fno/optionsRouter.js:992-1036 | No row of a chain loses a gate at a later stage exactly when the spreads of those that pass fit its cap; a cap that is not negative always fits (`CapOnlyGrows`). |
| OptionsRouter.StagesOnlyAddRows | src/fno/optionsRouter.js:992-1036 | Then every later stage accepts all that an earlier one did, picks wherever it did, and follows a pick without fallback by one that ranks at least as high at the later stage, and by score and distance too when all gates are required. |
| ContractSearch.SearchIsThePlan | src/fno/optionsRouter.js:1339-1390 | Every search is the first settling call along a plan fixed in advance, within |expiries| + 4 calls, one more for an unlisted start. |
| ContractSearch.PlanInNumbers | src/fno/optionsRouter.js:1339-1390 | The plan: the start and the other expiries in the order of the list, all unrelaxed, then stages 1 to 4 at the last of them. |
| ContractSearch.AttemptInNumbers | src/fno/optionsRouter.js:880-1306 | One call ends with the breaker, without candidates, with the 1-DTE policy, with a pick, or retries, each exactly when none of the earlier applies. |
| ContractSearch.RelaxesOnlyWhenNothingElse | src/fno/optionsRouter.js:1340-1343 | A relaxed pick means every expiry was tried unrelaxed without success, and each earlier stage too. |
| ContractSearch.PickIsLeastOfItsChain | src/fno/optionsRouter.js:992-1306 | A pick is the choice of the snapshot its own call saw, at the reported stage; when all gates are required it keeps that stage's limits, the side of the wall included. |
| ContractSearch.RetriesForgetTheSignal | src/fno/optionsRouter.js:1353-1375 | Once the first call retries, the signal's state and danger no longer matter. |
| ContractSearch.PolicyEndsOnlyTheFirstCall | src/fno/optionsRouter.js:966-990 | With a non-negative danger limit the 1-DTE policy ends a search exactly when it blocks the first call. |
| ImpliedVol.ImpliedVolBisection | src/fno/greeks.js:105-157 | A result exists exactly when a search is attempted (`SearchInNumbers` spells it out); at most 23 probes, so the cap of 60 never binds; for a nondecreasing price the result is within tolerance in price or within 1e-6 of every root in range, and a target below the whole price range is answered, within tolerance or within 1e-6 of the bottom of the volatility range. |
| ImpliedVol.RootsStayBracketed | src/fno/greeks.js:136-154 | For a nondecreasing price every root of the range stays in the bracket. |
| Csv.InferColumns | src/backtest/csvWriter.js:11-23 | The loop with its set gives the keys of all rows without repeats. |
| Csv.DedupKeepsFirsts | src/backtest/csvWriter.js:14-20 | No key is lost, none repeated, and the order is that of first appearance. |
| Csv.ToCsv | src/backtest/csvWriter.js:25-32 | The text printed is that of the table of header and cell strings. |
| Csv.CellPrints | src/backtest/csvWriter.js:3-9 | A cell prints as it is exactly when it is free of quotes, commas and line ends, else between quotes with its own quotes doubled; a missing value prints as nothing. |
| Csv.RecordsJoin | src/backtest/csvWriter.js:25-30 | Cells stand between commas. |
| Csv.TablesJoin | src/backtest/csvWriter.js:25-32 | Every record, the last one too, ends with a line feed. |
| Csv.AtInNumbers | src/backtest/csvWriter.js:29 | The cell under a column is the value of the row's key of that name, nothing where there is none. |
| Csv.PrintParsesBack | src/backtest/csvWriter.js:3-32 | A parser for section 2 of RFC 4180, with LF record ends, reads every printed table back, quotes, commas and line breaks included. |
| Csv.CsvRoundTrip | src/backtest/csvWriter.js:25-32 | A file parses back to its table exactly when it has a column. |
| Csv.PrintIsInjective | src/backtest/csvWriter.js:3-32 | Two tables print alike only if they are the same table. |
| Analytics.LongestLosingStreak | src/backtest/analytics.js:25-37 | The result is the length of some run of consecutive losses, and no run is longer. |
| Analytics.BuildClosedTradeCurves | src/backtest/analytics.js:236-257 | Each point carries the equity after its trade, the fall from the highest equity so far including the starting capital, and that fall in percent. |
| Analytics.OrderInNumbers | src/backtest/analytics.js:237 | Curves and drawdown go through the trades by time of exit, failing that of entry, failing that zero. |
| Analytics.TiesKeepOrder | src/backtest/analytics.js:237 | Trades of one time stay in the order they came. |
| Analytics.HighestDrawdownIsDeepestDrop | src/backtest/analytics.js:242-255 | The highest point of the running-peak curve is the deepest fall between any two moments, whatever the starting capital. |
| Analytics.MaxDrawdownContribution | src/backtest/analytics.js:194-201 | The one pass of the group metrics computes that deepest fall. |
| Analytics.ComputeGroupMetrics | src/backtest/analytics.js:182-222 | Wins and losses split the trades; average win and average loss are those of the winners and the losers and account for the whole net result; the profit factor is what was won over what was lost, infinite exactly when something was won and nothing lost, and exceeds one, or is infinite, exactly when the group earned money; payoff, win rate, expectancy, the deepest drop and the averages of what is known of holding times and excursions. |
| Analytics.GroupTrades | src/backtest/analytics.js:224-230 | One group per key, in order of first appearance, each with exactly its trades in their order. |
| Analytics.BuildGroupedReport | src/backtest/analytics.js:224-234 | Rows are sorted by key, one per key, each with all the metrics of its group, and their results and counts add up to the whole. |
| Analytics.GroupsPartition | src/backtest/analytics.js:224-234 | Over any list of the keys without repeats, group results and counts sum to the totals. |
| Execution.StepIsBijection | src/backtest/executionRealism.js:15-21 | A step of the generator maps 1..2147483646 one to one onto itself. |
| Execution.StepUndone | src/backtest/executionRealism.js:18 | Multiplying by 1899818559 undoes a step. |
| Execution.GeneratorDegeneratesExactly | src/backtest/executionRealism.js:15-21 | Every draw is in [0, 1) for ever, except for a seed that is a positive multiple of the modulus, which draws one negative number for ever. |
| Execution.RepeatsFromTheStart | src/backtest/executionRealism.js:15-21 | A state that comes back after n steps means the starting state comes back after n steps. |
| Execution.DrawFill | src/backtest/executionRealism.js:97-100 | The fill is `FillFor` of the two draws: between one unit and the request, at least the least share up to rounding, the whole request when no partial fill is drawn. |
| ExecutionNumbers.FillInNumbers | src/backtest/executionRealism.js:97-124 | A partial fill is the request less the undrawn part of what may stay unfilled, to the nearest unit and at least one; it happens exactly when the first draw is under the chance of one. |
| ExecutionNumbers.StepInNumbers | src/backtest/executionRealism.js:15-21 | The next state is the remainder of 48271 times the state by 2147483647, and the draw the state less one over 2147483646. |
| ExecutionNumbers.RawPriceInNumbers | src/backtest/executionRealism.js:102-121 | A buyer pays 0.65 of the spread when the high is touched first and 0.4 otherwise, a seller 0.6 and 0.35, each plus the drawn slippage. |
| ExecutionNumbers.CostsInNumbers | src/backtest/executionRealism.js:91-103 | Spread is 6 basis points of the price unless set; slippage 4, times one half plus the draw. |
| Execution.RawPriceNeverImproves | src/backtest/executionRealism.js:102-121 | Before the candle bounds it, a simulated price is never better than the intended one. |
| Execution.ApplyExecutionRealism | src/backtest/executionRealism.js:79-135 | Quantity as above, price the raw one held within the candle and no better than intended where the candle contains that price; the draws used. |
| Execution.DeriveBidAsk | src/backtest/eventBrokerSimulator.js:14-20 | Quotes never cross, never fall below 0.01, and lie half the spread from the mid. |
| Execution.SimulateOrderLifecycle | src/backtest/eventBrokerSimulator.js:22-90 | When an order is refused and why; a done one fills and cancels exactly its request, tells each event exactly when it happened, and is priced at the slipped quote held within the candle. |
| ExecutionNumbers.OffTickExact | src/backtest/eventBrokerSimulator.js:46-49 | A trigger is refused exactly when no whole number of ticks is within a millionth of a tick of it. |
| ExecutionNumbers.BrokerInNumbers | src/backtest/eventBrokerSimulator.js:14-66 | Half the spread from the mid price to either quote; slippage 3 basis points unless set, times one half plus the draw. |

## Left out

- Daylight saving, time-zone rules and calendars: local time is an integer with a fixed offset.
- Binary floating point: prices, scores and volatilities are exact reals.
- Black-Scholes formulas and logarithms: the price function and the logarithmic part of the liquidity score are arbitrary.
- Strategy, plan builder, dynamic exits and cost model: arbitrary functions of the bar and of the trade or entry they are asked about.
- Option-mode closing price: the close-out uses the last underlying candle for every trade, as the code does, so conservation is about quantities and money, not about the traded contract's price.
- Trade fields that only reports read (excursions, locks, regime tags, tags of the signal), admission and rejection logs.
- Coercion of strings, missing objects and numbers that are not finite, beyond the `None` values of the model.
- The notifications switch and the database work gate in front of a drain.
- Counters, log text, cards and report formatting, hashing of card contents.
- Connection handling, HTTP, sockets, indexes of the collection, process start and stop.
- Candles.CandleBuilder.OnTicks: reads the volume fields of a tick as already resolved, and leaves out the warning for ticks without volume.
- CandleCaches.CandleCache.AddCandle: reassigns the stored list instead of splicing an aliased array.
- Dispatcher.NotificationDispatcher.ProcessOutboxOnce: takes the writes of others during a drain as absent, which `OutboxRuns` interleaves, and a database call that fails as leaving nothing written.
- Dispatcher.NotificationDispatcher.ProcessOutboxJob: keeps the message id of the card ledger and leaves out its other fields, the dedupe ledger and the incident documents.
- QuoteGuard.BudgetHolds: is about one request at a time, as the default configuration has it.
- QuoteGuard.GuardState.GuardedGetQuoteWithRetry: takes its sleeps as differences of the clock readings it is given, and one configuration per call.
- OptionsRouter.ChoiceIsLeast: assumes rows with distinct instrument tokens; scores are arbitrary functions of row, distance and wall penalty.
- ContractSearch.SearchIsThePlan: takes the chain snapshot, with strike step and candidate strikes, as an input of each call.
- Execution.ApplyExecutionRealism: assumes a generator that has not degenerated, as does Execution.SimulateOrderLifecycle.
- The merging of the answers of several quote chunks, and the pass-through when the quote guard is disabled.
- Calibration from recent trades, the metrics built from plain averages, walk-forward folds and matrix expansion.
