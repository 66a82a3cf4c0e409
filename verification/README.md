# Dafny model of the translation worker, the revenue scripts and their companions

This project models the stateful parts of the repository and proves what they promise.

**Translation worker.** A catalog is cut into batches (`Batching`), texts returned by the model are
kept only with all their placeholders (`Placeholders`), and any number of queue consumers and HTTP
requests share one table, one cache and one queue. `TranslationStore` has every SQL statement as a
function on the table. `TranslationMachine` is the protocol: each worker has a program counter and the
snapshot it has read, every statement is one atomic step, and the environment may pass time, expire and
clean up rows, evict cache entries, deliver any message any number of times, or stop a worker for ever.
Every sequence of actions is a run. About all runs are `TranslationSafety` (what rows, caches, answers
and snapshots hold), `TranslationProgress` and `TranslationTexts` (what is stored, and when it leaves
earlier texts alone, with the run that does not in `TranslationOverwrites`), `TranslationRecovery` (every
row can be finished, by the undisturbed steps of `TranslationSteps`), and `TranslationClaims` with
`TranslationTakeovers` (when a claim keeps others out). `TranslationTrace` separates the steps of one
worker from those of the others. `TranslationService` is the program, with its statements in their order
on one table, cache and queue updated in place. At every `await` (its method `Await`) others may do
anything; each handler is shown to go through its whole program and to do nothing else, in the words of
`TranslationPrograms`.

**Revenue.** `RevenueMovements` follows a feed of Stripe events and emits classified movements;
`RevenueAccounting` says how they add up to the change of revenue, and `NewBusiness` how often a customer
counts as new; `RevenueMetrics` adds them up per day and customer; `RevenueBackfill` has the two tables and the
transaction that writes them, and `RevenueLedger` says what any sequence of transactions leaves there.
`RevenueSnapshot`, `RevenueDailyLedger` and `RevenueRows` rebuild daily snapshots from paid intervals.
`PaidIntervals` is the duration a customer has paid.

**Companions.** `EdgeFallback` and `EdgeCircuitBreaker` are the regional fallback with its circuit
breaker and caches. `UriEncoding` and `DeltaPaths` print and parse storage paths. `OrgCounts` counts
organisations per day. `Sorting` is the stable sort that several of them use, and `Common` has their shared types.

Some promises turn out to hold only under a condition. Each is stated with the exact condition, for all
inputs, beside a concrete counterexample:

- A claim keeps others from translating a batch for its lease exactly when no other worker translates the batch, is about to release a claim on it, has read an earlier claim on it, or may still delete the row (`ClaimKeepsOthersOutExactlyWhen`; `TwoWorkersMayHoldTheSameClaim`). Storing is exclusive without condition (`NoBatchIsStoredTwice`).
- Storing a batch leaves the texts of earlier batches alone exactly when the generation of the row that the worker had read holds the same texts as the one it writes to (`StoringKeepsEarlierTextsExactlyWhen`; `EarlierTextsCanBeOverwritten`).
- A request sends a live pending row again exactly when nothing is cached, the newest ready row of the language is not fresh, a minute has passed, and the row is unclaimed or its lease is over (`RequestResendsExactlyWhen`).
- The movements of a customer telescope exactly when what its events start from, less the revenue after the event before each, adds up to nothing (`MovementsTelescopeExactlyWhen`, with the gap of every kind of event in `GapOfEveryEvent`; `SecondSubscriptionBreaksTelescoping`).
- A customer is counted as new business at most once exactly when a payment from before its first event is known, or it has at most one start (`NewBusinessIsCountedOnceExactlyWhen`; `SameSecondCountsTwice`).
- A worker whose turn comes is skipped exactly when the last contact under its own host and data centre failed less than five minutes before (`SkippedExactlyWhen`); another host contacts it at once (`OtherHostsDoNotKnow`).
- A built path is parsed back exactly when the organisation is not called "delta" and the file name is not empty and does not start with a slash (`ExtractUndoesBuildExactlyWhen`; `OrganisationCalledDeltaIsNotParsed`).

Money is `real` where prices are divided by twelve and integer cents in the daily snapshots. Times are
integers: seconds in the translation worker and for Stripe events, milliseconds elsewhere; days are
counted from the epoch. Catalogs have fewer than 1,000,000,000 batches (`Manageable`) where the claim
marker needs it, and their checksum stands for the catalog.

## Model

| member | source | states |
|---|---|---|
| `Batching.BuildBatches` | cloudflare_workers/translation/index.ts:387-411 | The loop returns non-empty batches that concatenate to the catalog in its order, each within 60 items and 6000 characters or a single item, and no other such split has fewer batches |
| `Batching.BatchesAreASplit` | cloudflare_workers/translation/index.ts:383-411 | The greedy split concatenates to the catalog in order, without empty or oversized batches |
| `Batching.BatchesArePacked` | cloudflare_workers/translation/index.ts:383-411 | Every batch but the last is full: the first item of the next one would not have fitted |
| `Batching.BatchesAreOptimal` | cloudflare_workers/translation/index.ts:387-411 | Any other split into consecutive batches within the limits has at least as many batches |
| `Placeholders.BraceAndDollarMatchesAreTokens` | cloudflare_workers/translation/index.ts:17 | The scanner finds every brace or dollar placeholder that starts outside an earlier match |
| `Placeholders.KeptTextHasEveryPlaceholder` | cloudflare_workers/translation/index.ts:374-381 | Whatever the model answers, the text kept for a source contains every placeholder token of the source |
| `Placeholders.KeptTextIsAcceptable` | cloudflare_workers/translation/index.ts:374-381 | The kept text is the source itself, or a non-blank text with all of its placeholders |
| `Placeholders.KeptMessagesTranslate` | cloudflare_workers/translation/index.ts:457-465 | The map built for a batch has exactly the batch's keys, each with an acceptable text |
| `Placeholders.TranslateBatchTranslates` | cloudflare_workers/translation/index.ts:471-495 | A batch is given up exactly when none of the first three replies has a text for any of its messages; otherwise it is translated completely and acceptably |
| `Placeholders.MergedMessagesTranslate` | cloudflare_workers/translation/index.ts:1253-1256 | Merging a translated batch into the messages of the batches before it translates them all |
| `TranslationStore.MarkersAreUnambiguous` | cloudflare_workers/translation/index.ts:621-631 | A stored index decodes to the batch and to whether it is claimed, and claiming then decoding gives the batch back |
| `TranslationStore.OnlyTheFirstClaimSucceeds` | cloudflare_workers/translation/index.ts:772-788 | Of two claims of a batch in a row, however far apart, at most the first succeeds; a claim allows its batch to be stored, keeps the messages and the decoded index, and leaves all other rows alone |
| `TranslationStore.ReleaseUndoesClaim` | cloudflare_workers/translation/index.ts:790-805 | Releasing a claim leaves the row as before it but for its times, and the batch can no longer be stored under it |
| `TranslationStore.StoredBatchIsOver` | cloudflare_workers/translation/index.ts:709-729 | A batch once stored can be stored, claimed or released no more; the row has the new messages and waits for the next batch, and no other row changes |
| `TranslationStore.InsertKeepsLiveRows` | cloudflare_workers/translation/index.ts:731-758 | An insert changes no live row, makes a row whose first batch can be claimed, and a second one before it expires does nothing |
| `TranslationStore.SomeAnswerIsLatest` | cloudflare_workers/translation/index.ts:658-673 | The select of the latest ready row always has an answer, and none exactly if no row qualifies |
| `TranslationSafety.ActionKeepsSafe` | cloudflare_workers/translation/index.ts:709-815 | Each step of any request, delivery, clock, clean-up, eviction or stray message keeps the invariant of rows, cache, answers and the snapshot of every worker |
| `TranslationSafety.EveryRunIsSafe` | cloudflare_workers/translation/index.ts:1193-1268 | The invariant holds after every interleaving of inserts, reads, claims, releases, take-overs, writes, touches, deletes, expiry, crashes and duplicate or late deliveries |
| `TranslationSafety.PendingRowsHoldEarlierBatches` | cloudflare_workers/translation/index.ts:1078-1247 | A pending row at batch k holds exactly the keys of batches 0 to k-1, and so does the snapshot of every worker translating batch k, even if the row was deleted and inserted again meanwhile |
| `TranslationSafety.PublishedTranslationsAreComplete` | cloudflare_workers/translation/index.ts:919-940 | In every reachable state ready rows, cached payloads and 200 answers have exactly the keys of the catalog they name, with acceptable texts; an answer not marked stale names the current catalog |
| `TranslationProgress.ActionEvolves` | cloudflare_workers/translation/index.ts:709-805 | A step leaves a row's progress and messages alone, or stores exactly the next batch, leaving in the row the messages that were written, or starts a new generation at batch 0 with no messages |
| `TranslationProgress.EveryBatchIsStoredOnceInOrder` | cloudflare_workers/translation/index.ts:709-805 | Over any run, each generation of a row has stored batches 0, 1, 2 and so on, once each, up to where the row stands |
| `TranslationProgress.NoBatchIsStoredTwice` | cloudflare_workers/translation/index.ts:1217-1247 | Two writes to one generation of a row store different batches in increasing order, even if several workers hold the same claim marker |
| `TranslationTexts.EveryRunHoldsTexts` | cloudflare_workers/translation/index.ts:1193-1268 | In every reachable state the row of a catalog with batches holds the messages last written in its generation, or none yet, and each delivery holds those of the generation it has read, up to its batch |
| `TranslationTexts.StoringKeepsEarlierTextsExactlyWhen` | cloudflare_workers/translation/index.ts:1253-1268 | Storing a batch keeps the texts of earlier batches exactly when the generation its worker had read has them as the generation it writes to does; so always when it is the same generation |
| `TranslationOverwrites.LateWriterOverwritesEarlierTexts` | cloudflare_workers/translation/index.ts:1193-1268 | For every catalog of two batches and any two replies that differ in a text of the first: a run in which a delivery that read the first generation of a row replaces that text in the second |
| `TranslationOverwrites.EarlierTextsCanBeOverwritten` | cloudflare_workers/translation/index.ts:1193-1268 | Such replies exist whenever the first batch ends with a text without placeholders that the second does not have |
| `TranslationSteps.RequestResendsExactlyWhen` | cloudflare_workers/translation/index.ts:942-988 | An undisturbed request sends the batch of a live pending row exactly when the cache misses, the newest ready row of the language is not fresh, a minute has passed since the row changed, and the row is unclaimed or its lease is over; otherwise it sends nothing |
| `TranslationRecovery.EveryPendingRowCanBeFinished` | cloudflare_workers/translation/index.ts:942-988 | From every reachable state, and after waiting any time after which a request would send the row, one request and one delivery per missing batch by a single new worker make a pending row ready, in at most 9 steps per batch and 15 more, whatever other workers have crashed |
| `TranslationRecovery.HowLongToWait` | cloudflare_workers/translation/index.ts:13-14 | Waiting out the lease of 15 minutes is always enough; for an unclaimed row a minute is, if by then nothing is cached and no other ready row of the language is fresh |
| `TranslationRecovery.ClaimsExpireBeforeTheirRows` | cloudflare_workers/translation/index.ts:13-14 | A claim's lease ends at least 45 minutes before the claimed row expires, and from then on a delivery can take the batch over |
| `TranslationTakeovers.ClaimKeepsOthersOutExactlyWhen` | cloudflare_workers/translation/index.ts:772-805 | In every reachable state a claim just made keeps all other workers from translating the batch for its 15 minutes, unless given back, exactly when no other worker translates it, is about to release a claim on it, has read an earlier claim on it, or has inserted the row and may still delete it |
| `TranslationTakeovers.ThreatIsReal` | cloudflare_workers/translation/index.ts:790-805 | Each such worker can take the batch over before the lease is over: the schedule is constructed |
| `TranslationTakeovers.TwoWorkersMayHoldTheSameClaim` | cloudflare_workers/translation/index.ts:790-805 | Two deliveries that have read the same expired claim both come to translate the batch, the second releasing the first one's claim in the very second it was made |
| `TranslationService.Service.ReadLatestReady` | cloudflare_workers/translation/index.ts:658-673 | The scan returns a live ready row of the language that no other is newer than, or none if there is none |
| `TranslationService.Service.NextProcessableBatchIndex` | cloudflare_workers/translation/index.ts:1078-1091 | The handler makes just the steps of its program; an unclaimed row gives its own index, and a claimed one only the delivery's own batch, after a step that released the claim while it was there; no batch ends the delivery |
| `TranslationService.Service.PersistTranslatedBatch` | cloudflare_workers/translation/index.ts:1149-1191 | One step of the handler is the conditional update over the row as it is then; if the row carries the claim at that step, the message for the next batch is sent, or the finished translation is cached; the handler does the rest of its program and nothing else |
| `TranslationService.Service.ProcessTranslationQueueBatch` | cloudflare_workers/translation/index.ts:1193-1268 | The handler makes its delivery and then goes through its whole program, without crashing, failing or doing anything else, whatever others do at each wait; the invariant holds when it is done |
| `TranslationService.Service.QueueTranslationIfNeeded` | cloudflare_workers/translation/index.ts:872-900 | One step of the handler is the insert over the row as it is then; if no live row is in the way the first message is sent and the new row is the entry, or, if the queue refuses, there is none and the rest of the program (deleting the row, falling back) is done |
| `TranslationService.Service.RequeueStaleTranslation` | cloudflare_workers/translation/index.ts:942-966 | The message for the batch the row's index encodes is sent unless the queue refuses; then exactly an unclaimed row is touched in a step of the handler, and otherwise none of its steps changes the table; the answer is the one its program gives |
| `TranslationService.Service.HandleTranslationMessages` | cloudflare_workers/translation/index.ts:990-1042 | A language that is not allowed is refused with nothing done; otherwise the handler goes through its whole program, its response is exactly what its steps answered, complete for the catalog it names, and for the current one unless marked stale |
| `RevenueMovements.ClassifyAccountsForTheChange` | scripts/backfill_retention_metrics.ts:360-398 | For any prices a movement's buckets are non-negative and net to the change of revenue; there is a movement exactly if revenue changed, and new business needs an unpaid start |
| `RevenueMovements.SortIsStable` | scripts/backfill_retention_metrics.ts:228-233 | Events are followed in time order, none lost or added, and those of one second in the order they came |
| `RevenueMovements.BuildRevenueMovementEvents` | scripts/backfill_retention_metrics.ts:459-570 | The loop over the sorted feed emits the movements and skip counts of following the events one by one |
| `RevenueMovements.TrackedRevenueIsTheEvents` | scripts/backfill_retention_metrics.ts:505-554 | After an event the tracked revenue is that of the event's price under its product's plan, or none once a deleted subscription has run out; only deletions of another subscription are refused |
| `RevenueMovements.EveryEventIsSkippedOrMoves` | scripts/backfill_retention_metrics.ts:459-570 | Every event of a feed is counted once: under one skip reason, or as one movement |
| `RevenueMovements.MovementsComeFromEvents` | scripts/backfill_retention_metrics.ts:442-457 | Every movement is that of an event of the feed, with its id, day and customer, inside the range and the customer filter |
| `RevenueAccounting.RevenueIsAccountedFor` | scripts/backfill_retention_metrics.ts:459-570 | Over any feed, with any prices, a customer's movements net to the change of tracked revenue less the gaps between what events start from and what was tracked |
| `RevenueAccounting.GapOfEveryEvent` | scripts/backfill_retention_metrics.ts:505-554 | The gap of each kind of event: none for a creation, what the previous price brought (or, with no past, its own price) for an update, and the tracked price as if paid (or its own) for a deletion, less the revenue tracked before |
| `RevenueAccounting.NoGapExactlyWhen` | scripts/backfill_retention_metrics.ts:505-554 | An event leaves no gap exactly when it is not followed or starts from the tracked revenue |
| `RevenueAccounting.MovementsTelescope` | scripts/backfill_retention_metrics.ts:459-570 | With non-negative prices and a feed that is well formed in the range, a customer's movements net to revenue after the last event less revenue at the start of the range |
| `RevenueAccounting.TrackedRevenueIsOfTheFeed` | scripts/backfill_retention_metrics.ts:459-570 | The revenue tracked after any events is that of the price of the customer's last followed event, or none once that has ended a subscription |
| `RevenueAccounting.MovementsTelescopeExactlyWhen` | scripts/backfill_retention_metrics.ts:459-570 | Read off the feed alone, for any prices: a customer's movements net to the revenue after its last event less that after its last event before the range exactly when the starts of its events in the range, less the revenue after the event before each, add up to nothing; otherwise that sum is the difference |
| `RevenueAccounting.SecondSubscriptionBreaksTelescoping` | scripts/backfill_retention_metrics.ts:525-528 | Two creations for one customer count twice the revenue that is tracked in the end |
| `NewBusiness.TrackedPaidAtIsNotLater` | scripts/backfill_retention_metrics.ts:505-554 | Whatever an event leaves tracked has a payment time, no later than the event |
| `NewBusiness.KnownCustomersAreNotNew` | scripts/backfill_retention_metrics.ts:410-421 | An event of a customer known to have paid before it brings no new business |
| `NewBusiness.NewBusinessIsCountedOnceExactlyWhen` | scripts/backfill_retention_metrics.ts:374-421 | Over any feed a customer is new business never if a payment from before its first event is known, and otherwise once for each start: its first event, if that brings revenue, and creations with a price in the same second; so at most once exactly if there is at most one |
| `NewBusiness.NewBusinessIsCountedOnce` | scripts/backfill_retention_metrics.ts:374-421 | Over any feed with any other customers, a customer none of whose events share a second is new business at most once |
| `NewBusiness.KnownPayersAreNeverNewBusiness` | scripts/backfill_retention_metrics.ts:410-421 | A customer known to have paid before the feed's first event is never new business, even if events share seconds |
| `NewBusiness.CreatedIsNewBusinessExactlyWhen` | scripts/backfill_retention_metrics.ts:374-379 | A creation is new business exactly when it brings revenue and no payment before it is known |
| `NewBusiness.SameSecondCountsTwice` | scripts/backfill_retention_metrics.ts:410-421 | Two creations in one second both count as new business |
| `RevenueMetrics.AggregateRevenueMovementEvents` | scripts/backfill_retention_metrics.ts:572-617 | The loop and the sort return one row per day and customer, those of the aggregate, ordered by day and then customer under any collation |
| `RevenueMetrics.AggregateIsExact` | scripts/backfill_retention_metrics.ts:572-617 | A key has a row exactly if a movement has it; the row opens with its first movement, and each of the twelve sums, the eight plan columns included, adds up its own movements |
| `RevenueMetrics.AggregateOfConcat` | scripts/backfill_retention_metrics.ts:572-617 | Aggregating two lists at once is aggregating each and adding the rows of common keys, the first list's opening kept |
| `RevenueMetrics.IncrementalEqualsOneShot` | scripts/backfill_retention_metrics.ts:638-664 | Merging the rows of a second list with stored rows of a first gives, for every key of the second, the row of aggregating both at once |
| `RevenueMetrics.TotalsAreKept` | scripts/backfill_retention_metrics.ts:572-617 | Column by column, the rows in any order together hold exactly what the movements hold together |
| `RevenueMetrics.KeyTextIsUnambiguous` | scripts/backfill_retention_metrics.ts:576 | A date without a colon, a colon and a customer id determine both, whatever the id holds |
| `RevenueBackfill.DedupeRevenueMovementEvents` | apps/dashboard/scripts/backfill_retention_metrics.ts:917-929 | The loop keeps the first movement of every id |
| `RevenueBackfill.DedupedKeepsEachIdOnce` | apps/dashboard/scripts/backfill_retention_metrics.ts:917-929 | Deduplication keeps every event id, once each, and invents no movement |
| `RevenueBackfill.FindMissingResetSnapshotEventIds` | apps/dashboard/scripts/backfill_retention_metrics.ts:931-947 | The sample is the first missing ids up to its size, so it is empty exactly if none is missing; below size one it looks at one id only |
| `RevenueBackfill.UpsertedIsMerged` | apps/dashboard/scripts/backfill_retention_metrics.ts:1131-1215 | Writing the rows of an aggregate row by row, in any order, adds to or replaces the rows of its keys and leaves all others |
| `RevenueBackfill.BackfillDatabase.ClaimProcessedEvents` | apps/dashboard/scripts/backfill_retention_metrics.ts:1217-1248 | Chunk by chunk, the claimed movements are the first of each id that was not processed before, and exactly the ids are registered |
| `RevenueLedger.WithoutScopeIsBacked` | apps/dashboard/scripts/backfill_retention_metrics.ts:1119-1129 | Deleting the range from both tables leaves the tables of the log without the movements of the range |
| `RevenueBackfill.BackfillDatabase.AssertResetSnapshotIsCurrent` | apps/dashboard/scripts/backfill_retention_metrics.ts:1260-1288 | The snapshot is current exactly if it has every id processed in the range |
| `RevenueBackfill.BackfillDatabase.UpsertDailyRevenueMetrics` | apps/dashboard/scripts/backfill_retention_metrics.ts:1131-1215 | Upserting in chunks is upserting all rows |
| `RevenueBackfill.BackfillDatabase.ApplyBackfillTransaction` | apps/dashboard/scripts/backfill_retention_metrics.ts:1359-1380 | A transaction commits all of its work or leaves both tables as they were; without a database failure it commits exactly unless a reset's snapshot is stale |
| `RevenueLedger.AdditiveKeepsBacked` | apps/dashboard/scripts/backfill_retention_metrics.ts:1359-1380 | An additive transaction extends the log behind the tables with the first movement of every id not in it |
| `RevenueLedger.EveryMovementCountsOnce` | apps/dashboard/scripts/backfill_retention_metrics.ts:1217-1248 | After any additive transactions, repeated and overlapping ones included, the metrics are one aggregation of the first movement of every id, and the processed ids are those ids |
| `RevenueLedger.WholeSnapshotIsClaimed` | apps/dashboard/scripts/backfill_retention_metrics.ts:1359-1372 | A reset counts its whole snapshot exactly when no id of it is processed outside the range |
| `RevenueLedger.ResetIsExact` | apps/dashboard/scripts/backfill_retention_metrics.ts:1359-1372 | A committed reset leaves in its range the aggregate of the snapshot, changes nothing outside, and every id processed before is processed still |
| `RevenueLedger.EveryRunIsBacked` | apps/dashboard/scripts/backfill_retention_metrics.ts:1359-1380 | After any mix of additive transactions, resets and refused resets, metrics and processed ids are those of a log with each id once, if an event id fixes its day and customer and resets stay in their range |
| `RevenueLedger.BackfillsStayInScope` | apps/dashboard/scripts/backfill_retention_metrics.ts:747-862 | The movements built for a range and customer lie in the range and customer a reset deletes |
| `RevenueLedger.BackfillsCountEventsOnce` | apps/dashboard/scripts/backfill_retention_metrics.ts:1473-1536 | From feeds to tables: whatever feeds the script is run on, with or without resets, the tables hold exactly the aggregate and the ids of a log with each event once, if events never change their time or customer |
| `PaidIntervals.MergeElapsedIntervals` | apps/dashboard/scripts/stripe_paid_invoice_export_utils.ts:224-245 | The sweep returns intervals in order and more than a day apart that cover exactly the paid milliseconds: inside an elapsed interval, or in a gap of at most a day after one and before another |
| `PaidIntervals.MergedIsUnique` | apps/dashboard/scripts/stripe_paid_invoice_export_utils.ts:224-245 | There is only one such list of intervals, so the merge does not depend on the order of its input |
| `PaidIntervals.GetPaidDurationMs` | apps/dashboard/scripts/stripe_paid_invoice_export_utils.ts:247-250 | The duration is the number of paid milliseconds |
| `PaidIntervals.DurationIgnoresOrder` | apps/dashboard/scripts/stripe_paid_invoice_export_utils.ts:224-250 | Permuting the intervals changes nothing |
| `PaidIntervals.DurationGrowsWithIntervals` | apps/dashboard/scripts/stripe_paid_invoice_export_utils.ts:224-250 | Adding intervals never lowers the duration |
| `PaidIntervals.DurationGrowsWithTime` | apps/dashboard/scripts/stripe_paid_invoice_export_utils.ts:224-250 | The passing of time never lowers the duration |
| `RevenueSnapshot.CollectedAreTheFirst` | apps/dashboard/scripts/fix_stripe_admin_revenue_dashboard_metrics.ts:519-528 | Under each key the first interval that is not empty and not negative is collected, if there is one, and nothing else |
| `RevenueSnapshot.GetStateForDate` | apps/dashboard/scripts/fix_stripe_admin_revenue_dashboard_metrics.ts:724-744 | The loop returns for every subscription the state of the interval chosen at the end of the day |
| `RevenueSnapshot.ChosenIsLatest` | apps/dashboard/scripts/fix_stripe_admin_revenue_dashboard_metrics.ts:724-737 | A subscription is present exactly if one of its intervals is active at day end; the chosen one is the latest by start and end, and the first among equals |
| `RevenueSnapshot.SumIgnoresOrder` | apps/dashboard/scripts/fix_stripe_admin_revenue_dashboard_metrics.ts:795-803 | Summing over a map does not depend on the order of its entries |
| `RevenueDailyLedger.OneDayBalances` | apps/dashboard/scripts/fix_stripe_admin_revenue_dashboard_metrics.ts:746-793 | From one day to the next revenue grows by what subscriptions gain and shrinks by what is counted as churn |
| `RevenueDailyLedger.RecordDailyTransitions` | apps/dashboard/scripts/fix_stripe_admin_revenue_dashboard_metrics.ts:746-793 | New customers are those not seen before, cancelled ones those with an ended subscription, upgraded ones and churn, whole and by plan, as the two days' states say |
| `RevenueDailyLedger.ChurnByPlanAddsUp` | apps/dashboard/scripts/fix_stripe_admin_revenue_dashboard_metrics.ts:757-785 | Churn by plan adds up to all churn but that of subscriptions without a plan, so to all of it if every subscription has one |
| `RevenueRows.SummarizeRevenueSnapshot` | apps/dashboard/scripts/fix_stripe_admin_revenue_dashboard_metrics.ts:795-867 | Revenue, customers and the counts by plan and billing are those of the states, and the day's transitions are carried over |
| `RevenueRows.PlansAddUp` | apps/dashboard/scripts/fix_stripe_admin_revenue_dashboard_metrics.ts:795-867 | Subscriptions with a plan are counted under it once, and yearly revenue is that of the plans and of subscriptions without one |
| `RevenueRows.BuildStripeInvoiceRevenueBackfillRows` | apps/dashboard/scripts/fix_stripe_admin_revenue_dashboard_metrics.ts:877-909 | One row per day of the range, each from that day's state, the state of the day before, and the customers seen since the day before the range, with the last stored row of its day, if any, and whether any column differs from it |
| `RevenueRows.LedgerBalances` | apps/dashboard/scripts/fix_stripe_admin_revenue_dashboard_metrics.ts:877-909 | Over any range, final revenue is revenue on the day before it, plus all gains of subscriptions, less the churn of all rows |
| `RevenueRows.NewPayingCustomersCountOnce` | apps/dashboard/scripts/fix_stripe_admin_revenue_dashboard_metrics.ts:877-909 | New paying customers over a range add up to the number of customers paying at the end of some day in it but not at the end of the day before it |
| `EdgeFallback.EdgeCache.Fetch` | cloudflare_workers/snippet/index.js:274-792 | The handler, cache look-ups, fallback loop and final decision together, does to the breaker and the caches what trying the workers in turn does; the routing tables between are a parameter |
| `EdgeFallback.RepliesAreOfTheFirstUsableWorker` | cloudflare_workers/snippet/index.js:688-787 | A request not served from a cache gets the answer of the first worker that neither failed nor answered on-prem, every worker before it contacted or found with an open breaker at its turn; it is answered on-prem or by the origin only if all workers had their turn |
| `EdgeFallback.OnPremMeansUnanimous` | cloudflare_workers/snippet/index.js:683-790 | A request is answered on-prem exactly if it is cacheable, has workers, and every one of them was contacted and answered on-prem; only then is anything stored, and it is the last answer |
| `EdgeFallback.CachedOnPremIsUnanimous` | cloudflare_workers/snippet/index.js:136-158 | Every cached on-prem answer, after any requests, was given in one request by every worker of its list |
| `EdgeCircuitBreaker.FailedWorkersAreLeftAlone` | cloudflare_workers/snippet/index.js:34-79 | Over any requests that do not overlap, a worker that failed for a host is not contacted for it again before five minutes have passed |
| `EdgeCircuitBreaker.SkippedExactlyWhen` | cloudflare_workers/snippet/index.js:34-79 | After any requests, overlapping or not, a worker whose turn comes is skipped exactly when the last contact under its own host, data centre and name failed less than five minutes before; otherwise it is contacted |
| `EdgeCircuitBreaker.ContactedAgainOnlyElsewhere` | cloudflare_workers/snippet/index.js:34-79 | Within five minutes of a failure the worker is contacted again only for another host or data centre |
| `EdgeCircuitBreaker.OtherHostsDoNotKnow` | cloudflare_workers/snippet/index.js:19-21 | The breaker is kept per host: a worker that failed for one is contacted at once for another |
| `UriEncoding.EscapesReadBack` | apps/dashboard/scripts/audit_manifest_filename_encoding.ts:88-90 | The escapes of a character's UTF-8 bytes read back as that character, whatever follows |
| `UriEncoding.ComponentRoundTrip` | packages/cli/src/partial.ts:5 | Decoding a component undoes its encoding |
| `UriEncoding.EncodedTextIsPlain` | packages/cli/src/partial.ts:5 | An encoding holds only unreserved characters and escapes with upper-case digits |
| `UriEncoding.PathEncodingKeepsSlashes` | apps/dashboard/scripts/audit_manifest_filename_encoding.ts:88-90 | Encoding segment by segment is encoding every character but the slashes |
| `UriEncoding.PathRoundTrip` | apps/dashboard/scripts/audit_manifest_filename_encoding.ts:88-99 | Decoding a path undoes the encoding of its segments, for every file name |
| `UriEncoding.CanonicalNamesAreEncodings` | apps/dashboard/scripts/audit_manifest_filename_encoding.ts:227-233 | The canonical check accepts exactly the names that are encodings of some path |
| `DeltaPaths.ExtractUndoesBuildExactlyWhen` | apps/dashboard/scripts/audit_manifest_filename_encoding.ts:112-134 | Extracting from a built path gives the encoded file name back exactly if the organisation is not called "delta" and the file name is not empty and does not start with a slash |
| `DeltaPaths.OrganisationCalledDeltaIsNotParsed` | packages/cli/src/partial.ts:3-7 | A file of an organisation called "delta" is not found by the parser |
| `DeltaPaths.FileNameRoundTrip` | packages/cli/src/partial.ts:3-7 | Building, extracting and decoding give the file name back |
| `DeltaPaths.AuditRestoresOriginalNames` | apps/dashboard/scripts/audit_manifest_filename_encoding.ts:215-241 | For a row uploaded under its encoding, a new name is proposed exactly if the original is a safe path with something to encode and the organisation is not called "delta", and it is the original |
| `OrgCounts.BuildOrgCountsByDateId` | apps/dashboard/scripts/backfill_org_conversion_rate_trend.ts:135-151 | The single pass with two pointers gives every date of any list the naive count, unreadable times included |

## Left out

- HTTP parsing, CORS, logging, SHA-256, the AI call and the D1, Postgres, Stripe, S3 and cache clients: the AI replies are arbitrary maps or failures, the checksum is a name of its catalog, and each statement is one atomic step.
- Parsing of the AI's reply (`extractAiText`, `parseTranslationObject`): any map of texts may come out of it.
- Normalisation of queue bodies (language, model, `normalizeBatchIndex`): messages arrive normalised. A message may name any batch.
- `Date.now` and the database's `unixepoch()`: one clock that never goes back.
- The daily creation and clean-up of the translation table: clean-up of expired rows may happen at any time.
- `TranslationRecovery.EveryPendingRowCanBeFinished`: shows that a finishing schedule exists; that the queue and the clients follow one is a matter of fairness outside the model.
- `TranslationService.Service.HandleTranslationMessages`: covers the request that fails at the queue; a statement that fails elsewhere ends the handler, which the machine allows at every step.
- `TranslationService.Service.ProcessTranslationQueueBatch`: covers a delivery whose statements do not fail; one that fails ends the delivery, which the machine allows at every step.
- The collation of `localeCompare`: a parameter that orders customer ids.
- Floating point: `real` or cents, so display rounding (`toFixed`), NRR and conversion percentages are not part of this model.
- `RevenueLedger.EveryRunIsBacked`: asks that an event id fixes its day and customer and that a reset's movements lie in its range; `BackfillsCountEventsOnce` has both from events that never change and from the script's own filters.
- `RevenueLedger.BackfillsCountEventsOnce`: starts from empty tables, and its feeds are given; fetching and truncating them is not part of this model.
- `refreshGlobalRetentionMetricsPg`: appears only as a statement that may fail and roll back the transaction.
- The webhook that also writes `processed_stripe_events`: it is kept out by the table lock during a reset, and its rows are not followed.
- `buildPaidCustomerSummaries`: filters and sorts by the duration proved here; it would add an easy member.
- How invoice lines and subscriptions become intervals: intervals are arbitrary, with integer cents.
- The routing table from data centre to workers: the list of workers is a parameter of a request, of any length and with repetitions.
- `EdgeCircuitBreaker.FailedWorkersAreLeftAlone`: assumes that the edge cache neither loses breaker entries early nor fails, and that requests of one data centre do not overlap.
- `getCacheTtlSeconds`: its result is part of an answer.
- Lone surrogates: texts are sequences of Unicode characters, for which `encodeURIComponent` never throws.
- The audit's storage and archive checks: they come after the checks modelled in `DeltaPaths.Audit`.
- `scripts/fix_stripe_admin_revenue_dashboard_metrics.ts`: a simpler variant of the daily ledger.
