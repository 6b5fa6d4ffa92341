# Dianchi, modelled and proved in Dafny

Dianchi coordinates the intake, inspection, dismantling, material recovery and
certification of retired lithium batteries. This project models its stateful
cores and proves what holds over whole runs of them.

| files | what they model |
|---|---|
| `Common`, `Words`, `Runs`, `Sequences`, `Sorting` | errors and principals; 64-bit arithmetic; runs of a step relation; sums and images of sequences; stable sorting and string order |
| `Battery`, `Tables`, `Lifecycle`, `LifecycleRuns`, `LifecycleTheorems`, `LifecycleProgress`, `LifecycleEffects`, `LifecycleOrigins`, `LifecycleStore` | the six lot operations over eight transactional tables |
| `Outbox` | claim, publish and mark, with any number of workers |
| `WaitQueue`, `Scheduler` | the blocking queue and the job scheduler |
| `Reconciliation`, `Review`, `ReviewRuns`, `Digest` | mass reconciliation reports, their review service run serially and interleaved, and the digested text |
| `Material` | material inventory: reserving, pruning, balances |
| `Trace`, `Dispatch`, `Notification`, `Backoff` | reachability, the route planner, notification claims, doubling delays and retries |

**Lot lifecycle.** A call is a read step (`Lifecycle.Prepare`: guards and
lookups) followed by a write step (`Lifecycle.Apply`: the statements of one
transaction). The interleaved system puts any other steps between the two, lets
secondary lookups fail and lets commits fail; the serial service in
`LifecycleStore`, where every single statement may fail, is the same two steps
adjacent. The central invariant ties every table to the state of each lot.

**Findings.** Each is a lemma.

- Certificate serials are unique across tenants while lot codes are unique only
  within one, so of two tenants with the same code only the first can certify,
  and the other is blocked for good (`CertifySucceedsIff`, `BlockedForever`,
  `SharedCodeBlocksCertification`).
- With two outbox workers a published row can become pending again
  (`TwoWorkersReopen`); a published or failed row keeps its state for good exactly
  when every worker busy with it has already got that answer (`FinalIff`); a processing row stays so forever exactly when no worker
  is busy with it (`StrandedIff`), as after a failed mark (`FailedMarkStrands`).
- With two consumers the queue loses wakeups, on push and on close
  (`TwoConsumersLoseAWakeup`, `CloseLeavesOneBehind`); `WakeupLostIff` says when.
- With two schedulers' ticks over one table a failure can go uncounted
  (`TwoRunnersMissAFailure`), and a job cancelled and added again unchanged can
  be deleted by the old run (`LookalikeIsDeleted`); a lookalike among the jobs
  collected is the exact condition (`SurvivesIff`, `SpoiledIff`).
- With review calls interleaved, a call that loaded a report while it was a draft
  can undo its approval by saving last (`StaleCallReopens`, `SomeStory`); a decision
  stands exactly when no call under way can still put another report in its place
  (`FinalStandsIff`). Even so no report is approved unjudged (`ApprovedWasJudged`).
- A route's running weight wraps: after one light stop a stop of the greatest
  weight is accepted on any vehicle (`HeavyStopOverloads`); the limits hold exactly
  in runs where no accepted stop overflows the total (`RunSoundIff`).
- The digested text records an instant in 64-bit nanoseconds, so instants 2^64
  apart digest alike (`RecordedAlikeIff`). On what is recorded the text is injective
  for every lot id without a line break, and a bar in a lot id does no harm (`TextIffSameFacts`). With line
  breaks allowed, any two or more facts share their text with a single one, and a
  single fact shares it exactly when its lot id hides a whole line before a break,
  in sorted place (`TextAmbiguousIff`).
- A notification's 35th failure makes it due at once instead of in centuries
  (`FailedMessageIsDue`).

Where the code and its description differ the code is followed:
`OutboxWorker.MaxAttempts` and `Policy.RequireInvestigation` are never read (the
limit of three is in the SQL, and investigation is always required), and the
worker delivers recovery events, not certificates.

## Model

| member | source | states |
|---|---|---|
| Lifecycle.PrepareWellFormed | internal/service/lifecycle.go:52-215 | whatever the arguments, a call that passes its reads writes only rows about the lot and tenant it read, with the guard of its operation true of the row read |
| Lifecycle.ApplyExact | internal/service/lifecycle.go:44-200 | a transaction's statements all succeed exactly when the lot is still at the version read and every id, key and serial is unused; then one lot row changes and each table gains at most one row |
| Lifecycle.TagsAfter | internal/storage/sqlite/store.go:197-264 | which table gains which row, owned by the lot and tenant of the write |
| Lifecycle.WriteKeepsInv | internal/service/lifecycle.go:52-205 | a write from an up-to-date read keeps versions, ownership, row counts per state, verdicts, serials and stored responses all consistent |
| LifecycleRuns.WriteAdvances | internal/storage/sqlite/store.go:154-164 | a write that passes the version check finds exactly the row it read, advances that lot by one version, touches no other lot and never rewrites a stored response |
| LifecycleRuns.FitsAfter | internal/storage/sqlite/store.go:154-164 | every other pending read stays either current or behind by whole versions |
| LifecycleRuns.CommitKeepsGood | internal/service/lifecycle.go:52-205 | committing one of many pending writes keeps the invariant, the other pending reads and the order of the log |
| LifecycleRuns.InterleavedInvariant | internal/storage/sqlite/store.go:154-164 | for every interleaving of stale reads, atomic writes and failures, the version check and the keys keep the full cross-table invariant |
| LifecycleTheorems.StateFixesRows | internal/service/lifecycle.go:32-215 | in every reachable database a lot's state fixes its version, which equals its audit count, and its numbers of inspections, reservations, recoveries, outbox rows and certificates |
| LifecycleTheorems.ReservedLotsAreSafe | internal/domain/battery/model.go:68-71 | from reservation on, hazard is below 70 and no inspection of the lot was hold or reject |
| LifecycleTheorems.OneCommitPerVersion | internal/storage/sqlite/store.go:154-164 | of all calls that read a lot at one version at most one ever commits, and commits to a lot come in version order |
| LifecycleTheorems.FinishExact | internal/storage/sqlite/store.go:52-66 | a finishing call commits its whole write or leaves the database as it was |
| LifecycleTheorems.ViewUntouched | internal/service/lifecycle.go:52-205 | a write changes nothing stored about any other lot |
| LifecycleTheorems.CommitIsOneEdge | internal/domain/battery/model.go:72-80 | a commit, however stale its read, is one of six transitions of one lot whose guard still holds; no stored row is altered or removed, other lots and other tenants' keys are as before |
| LifecycleTheorems.NextStateTable | internal/domain/battery/model.go:72-80 | the domain's eight legal transitions, of which the service takes six |
| LifecycleTheorems.OtherStepsStoreNothing | internal/storage/sqlite/store.go:52-66 | reads, replays, refusals and failures store nothing |
| LifecycleTheorems.FinalLotsStay | internal/domain/battery/model.go:72-80 | a quarantined or certified lot, and everything stored about it, never changes in any later run |
| LifecycleTheorems.KeyAnswersAgree | internal/service/lifecycle.go:137-178 | over any run all successful calls of one tenant with one key, on any lots, return the same stored recovery, and at most one of them committed |
| LifecycleTheorems.RecoveryCommitRows | internal/service/lifecycle.go:157-176 | a committed recovery adds one recovery row, one outbox row carrying it, one stored response if keyed, and moves one lot |
| LifecycleTheorems.UsedKeyStoresNothing | internal/service/lifecycle.go:143-148 | once a key is used a later call succeeds exactly when it is allowed and its lookup works, and then changes no table |
| LifecycleTheorems.LookupsFollowState | internal/storage/sqlite/store.go:214-235 | a lot has a reservation exactly from Reserved on and a certificate exactly when Certified, so those lookups never decide on their own |
| LifecycleTheorems.ReserveSucceedsIff | internal/service/lifecycle.go:85-115 | Reserve succeeds, lookup fault or not, exactly for an allowed caller on an inspected lot of its tenant below the hazard limit, given unused ids |
| LifecycleTheorems.BeginSucceedsIff | internal/service/lifecycle.go:116-136 | dismantling starts exactly on a reserved lot of the caller's tenant, unless the reservation lookup itself fails |
| LifecycleTheorems.CertifySucceedsIff | internal/service/lifecycle.go:179-205 | a recovered lot is certified exactly when the caller may and no certified lot of any tenant has the same code |
| LifecycleTheorems.SerialTakenIff | migrations/001_initial.sql:30-33 | a serial is taken exactly when some tenant's lot with that code is certified |
| LifecycleEffects.IntakeExactly | internal/service/lifecycle.go:32-51 | every outcome of an intake: which error when, and otherwise the very lot and audit row stored |
| LifecycleEffects.InspectExactly | internal/service/lifecycle.go:52-84 | every outcome of an inspection: the state its verdict leads to, and the inspection and audit rows |
| LifecycleEffects.ReserveExactly | internal/service/lifecycle.go:85-115 | every outcome of a reservation: hazard 70 and above refused, and the reservation and audit rows |
| LifecycleEffects.BeginExactly | internal/service/lifecycle.go:116-136 | every outcome of a start of dismantling, and its audit row |
| LifecycleEffects.RecoverExactly | internal/service/lifecycle.go:137-178 | every outcome of a recovery: a used key changes nothing, and otherwise the recovery, response, outbox and audit rows |
| LifecycleEffects.CertifyExactly | internal/service/lifecycle.go:179-205 | every outcome of a certification: supervisors only, the serial from the code, the certificate and audit rows |
| LifecycleOrigins.PrepareAsks | internal/service/lifecycle.go:32-215 | the write a call goes on to make is, field for field, what the call asked for |
| LifecycleOrigins.LotIsAsAsked | internal/service/lifecycle.go:32-51 | in every interleaved run each lot has the hazard, code, chemistry, expiry, time and creator of the intake call whose write was committed |
| LifecycleOrigins.InspectionIsAsAsked | internal/service/lifecycle.go:72-78 | each stored inspection is what one committed inspect call asked for |
| LifecycleOrigins.ReservationIsAsAsked | internal/service/lifecycle.go:102-105 | each stored reservation is what one committed reserve call asked for |
| LifecycleOrigins.RecoveryIsAsAsked | internal/service/lifecycle.go:157-160 | each stored recovery is what one committed recover call asked for |
| LifecycleOrigins.OutboxIsAsAsked | internal/service/lifecycle.go:164-173 | each outbox row carries the recovery of one committed recover call |
| LifecycleOrigins.CertificateIsAsAsked | internal/service/lifecycle.go:192-195 | each certificate carries the code its lot was taken in with |
| LifecycleOrigins.AuditIsAsAsked | internal/service/lifecycle.go:212-215 | each audit event names caller, lot, request and time of one committed call, and what it did |
| LifecycleProgress.SerialIsTwoSteps | internal/service/lifecycle.go:52-205 | a serial call is the interleaved system's read and write steps with nothing between |
| LifecycleProgress.SerialKeepsInv | internal/service/lifecycle.go:32-205 | every serial call keeps the cross-table invariant |
| LifecycleProgress.LotCanBeRecovered | internal/service/lifecycle.go:32-178 | from any consistent database, a tenant's unused code can be taken from intake to recovery without touching other lots |
| LifecycleProgress.BlockedForever | migrations/001_initial.sql:30-33 | once a lot is certified, another lot with its code stays uncertified in every later interleaved run |
| LifecycleProgress.SharedCodeBlocksCertification | internal/service/lifecycle.go:192-195 | a reachable database where a tenant's recovered lot is refused a certificate, whatever ids the call draws, and stays uncertified in every later run |
| LifecycleStore.Store.EndTx | internal/storage/sqlite/store.go:52-66 | the end of a transaction: what the body did stays, or every table is restored |
| LifecycleStore.Store.UpdateState | internal/storage/sqlite/store.go:154-164 | the compare-and-swap statement changes one row or nothing |
| LifecycleStore.Store.AddLot | internal/storage/sqlite/store.go:132-139 | an insert refused for a used id or a tenant's used code |
| LifecycleStore.Store.AddCertificate | internal/storage/sqlite/store.go:225-228 | an insert refused for a used id, a missing lot or a taken serial |
| LifecycleStore.Store.SaveKey | internal/storage/sqlite/store.go:261-264 | a response is stored once for a tenant, key and operation |
| LifecycleStore.Store.RecoverTx | internal/service/lifecycle.go:157-175 | for every failure point the tables afterwards are those before, and otherwise those of the specified write |
| LifecycleStore.Service.Intake | internal/service/lifecycle.go:32-51 | all or nothing at every failure point; the lot returned and stored is the one the arguments describe, with its audit row and nothing else |
| LifecycleStore.Service.Inspect | internal/service/lifecycle.go:52-84 | all or nothing at every failure point; the rows stored, field by field; the returned lot has its new state and, as in the source, its old version |
| LifecycleStore.Service.Reserve | internal/service/lifecycle.go:85-115 | all or nothing at every failure point, a failed reservation lookup included; the reservation returned and stored, field by field, the lot advanced and the audit row |
| LifecycleStore.Service.BeginDismantling | internal/service/lifecycle.go:116-136 | all or nothing at every failure point; the lot advanced and the audit row |
| LifecycleStore.Service.Recover | internal/service/lifecycle.go:137-178 | all or nothing at every failure point; a keyed success returns the response stored under its key; otherwise every row stored, field by field |
| LifecycleStore.Service.Certify | internal/service/lifecycle.go:179-205 | all or nothing at every failure point; the certificate returned and stored, field by field, the lot advanced and the audit row |
| Outbox.OutboxStore.Select | internal/storage/sqlite/store.go:244-249 | finds a pending row whose time has come, created no later than any other such row, or there is none |
| Outbox.OutboxStore.ClaimOutbox | internal/storage/sqlite/store.go:244-252 | takes such a row, and only such a row, counting the attempt; a failing select or update leaves every row alone |
| Outbox.OutboxStore.MarkOutbox | internal/storage/sqlite/store.go:253-260 | published, pending again sixty seconds later, or failed on the third attempt; a failing mark changes nothing |
| Outbox.OutboxStore.InsertOutbox | internal/storage/sqlite/store.go:240-243 | a new row is pending, due at once, without attempts |
| Outbox.OutboxStore.RunOnce | internal/service/worker.go:20-27 | a whole worker round on a row whose time has come, failing select, claim or mark included, does to it what the protocol's steps do |
| Outbox.AttemptsBounded | internal/storage/sqlite/store.go:240-260 | for any interleaving of inserts, workers and failures: at most three attempts a row, at most two while pending, and at most 3n claims of n rows |
| Outbox.MarkDelays | internal/storage/sqlite/store.go:244-260 | after a failing mark no worker selects the row within sixty seconds, whatever happens, until it is marked anew |
| Outbox.DueIsSelected | internal/storage/sqlite/store.go:244-249 | a pending row is selectable exactly once its time has come and no older row is due |
| Outbox.FinalIff | internal/storage/sqlite/store.go:253-260 | a published or failed row keeps its state in every later run exactly when each worker busy with it has already got the answer the row records |
| Outbox.TwoWorkersReopen | internal/service/worker.go:20-27 | a concrete run of two workers that turns a published row pending |
| Outbox.StrandedIff | internal/storage/sqlite/store.go:244-260 | a processing row stays as it is in every later run exactly when no worker is busy with it |
| Outbox.FailedMarkStrands | internal/service/worker.go:20-27 | a concrete run that ends with a processing row and no worker busy, after a publish whose mark failed |
| Outbox.ClaimSpendsBudget | internal/storage/sqlite/store.go:244-260 | with one worker, three minus attempts summed over open rows drops by at least one at every claim, rises by three at an insert and never otherwise |
| Outbox.RunSpendsBudget | internal/service/worker.go:20-27 | over any one-worker run claims made plus that sum stay within 3n for n rows |
| Outbox.OneWorkerTotals | internal/service/worker.go:20-27 | with one worker whose marks succeed, inserts and failing claims at any moment: n rows take at most 3n claims and after the last nothing is pending; a failed row had exactly three failing publishes, a published one its attempts less one; only the row in the worker's hands is processing |
| Outbox.FinalRowsStay | internal/storage/sqlite/store.go:253-260 | in any interleaved run of one worker published and failed rows never change |
| Outbox.AloneIsRound | internal/service/worker.go:20-27 | a worker undisturbed between its four steps performs exactly one round, failures included |
| WaitQueue.Queue.Push | internal/worker/queue.go:18-30 | accepted unless closed; an accepted item goes to the end and the slot then holds a token, whatever was queued |
| WaitQueue.Queue.Take | internal/worker/queue.go:33-45 | the locked section of Pop pops the head, or leaves, or waits, as the protocol's check |
| WaitQueue.Queue.Receive | internal/worker/queue.go:46-51 | the blocked receive proceeds only by consuming the token |
| WaitQueue.Queue.FinishClose | internal/worker/queue.go:58-61 | the notification of Close after its locked section leaves a token |
| WaitQueue.FifoDelivery | internal/worker/queue.go:18-62 | for any interleaving and any number of consumers, what was popped followed by what remains is what was accepted, in order |
| WaitQueue.TokenAfter | internal/worker/queue.go:18-62 | the slot holds a token exactly after an accepted push or a finishing closer, until a woken consumer takes it |
| WaitQueue.PushWakes | internal/worker/queue.go:25-53 | after an accepted push every blocked consumer, of any number, can wake and take an item |
| WaitQueue.SecondPushWakesToo | internal/worker/queue.go:18-53 | a run of two blocked consumers and two pushes that delivers both items |
| WaitQueue.SoloConsumerIsWoken | internal/worker/queue.go:31-62 | with one consumer, whenever it waits while an item exists or one closer has finished, whatever other closers do, the slot holds a token |
| WaitQueue.WakeupLostIff | internal/worker/queue.go:31-53 | for any number of consumers, the only step that loses a wakeup: the last awake consumer leaves with no token while another is blocked and something remains |
| WaitQueue.TwoConsumersLoseAWakeup | internal/worker/queue.go:25-28 | a concrete run of two pushes and two consumers that leaves one blocked beside an item |
| WaitQueue.LeftBehindByClose | internal/worker/queue.go:54-62 | a consumer left blocked by a finished close stays so until cancelled or Close is called again |
| WaitQueue.CloseLeavesOneBehind | internal/worker/queue.go:54-62 | a concrete run that leaves a consumer so |
| Scheduler.Table.Add | internal/worker/scheduler.go:22-30 | a job is added unless its id is scheduled |
| Scheduler.Table.Collect | internal/worker/scheduler.go:46-54 | the snapshot holds exactly the jobs whose time is unset or has come, each once, in some order |
| Scheduler.Table.Finish | internal/worker/scheduler.go:57-71 | after a run the table changes only if attempts and time are those collected: the job goes, or comes back attempts seconds later |
| Scheduler.CancelledStaysGone | internal/worker/scheduler.go:31-31 | a cancelled job that is not added again is never resurrected by any run in flight |
| Scheduler.RunWritesIff | internal/worker/scheduler.go:58-69 | the end of a run changes the table exactly when attempts and time are those it started from |
| Scheduler.SurvivesIff | internal/worker/scheduler.go:58-69 | however many runners tick, until one collects the job itself, every run under way leaves a job as it is exactly when no collected job of its id has its attempts and time |
| Scheduler.OneRunnerAccounts | internal/worker/scheduler.go:46-72 | with one runner, and jobs added, cancelled and added again at any moment, every job's account is exact unless it was added looking just as a collected job of its id |
| Scheduler.ScheduledJob | internal/worker/scheduler.go:65-69 | a scheduled job, unless such a lookalike, has the attempts it was last added with plus the failures since of runs that collected it, and the time of its last failed tick plus attempts seconds |
| Scheduler.TickWaits | internal/worker/scheduler.go:46-69 | with one runner a job that failed is collected exactly by ticks at least its attempts in seconds after its last failure |
| Scheduler.TickCollects | internal/worker/scheduler.go:46-54 | a tick of any runner collects exactly the jobs due |
| Scheduler.SpoiledIff | internal/worker/scheduler.go:58-69 | settling a run spoils an exact account exactly when the collected job is stale and a lookalike |
| Scheduler.MissingJob | internal/worker/scheduler.go:62-64 | with one runner a job that was not cancelled and is gone left by a success of its own, unless a lookalike |
| Scheduler.TwoRunnersMissAFailure | internal/worker/scheduler.go:46-72 | a concrete run of two runners with two failures and one attempt counted |
| Scheduler.LookalikeIsDeleted | internal/worker/scheduler.go:58-64 | a concrete run where the old run's success deletes a job added again unchanged |
| Sorting.StableSortCorrect | internal/domain/reconciliation/model.go:125-125 | insertion gives a sorted list of the same elements in which ties keep their order |
| Sorting.StableSortUnique | internal/domain/dispatch/model.go:153-153 | sorted with ties in order determines the list, so any stable sort gives this one |
| Sorting.StringLeMeans | internal/domain/reconciliation/rules.go:92-92 | the string order: a prefix first, otherwise the first difference decides |
| Sorting.SortedStringsUnique | internal/domain/reconciliation/rules.go:92-92 | sorted strings are determined by their multiset |
| Reconciliation.Append | internal/domain/reconciliation/model.go:110-127 | accepts exactly a valid measurement of a new lot and material in an open report |
| Reconciliation.AppendMeans | internal/domain/reconciliation/model.go:110-134 | exactly which measurements are accepted, in literal terms; grams added, a kilogram for a thousand; measurements by time |
| Reconciliation.AppendsAccount | internal/domain/reconciliation/model.go:110-134 | after any attempted appends the measurements are the accepted ones in stable time order with distinct pairs, and the totals are their normalised sums |
| Reconciliation.AccountsMean | internal/domain/reconciliation/model.go:110-134 | that account in literal terms: order by time, distinct lot and material, totals in grams |
| Reconciliation.WithinIff | internal/domain/reconciliation/rules.go:66-72 | within tolerance means the deviation is at most that share of the expected weight, or nothing was expected |
| Reconciliation.DiscrepancyMeans | internal/domain/reconciliation/rules.go:60-73 | what a judgement records, in grams, and that within means nothing expected or the deviation at most that share |
| Reconciliation.EvaluateWithPolicy | internal/domain/reconciliation/rules.go:37-76 | succeeds exactly when every measurement is within the policy's age, at most five minutes ahead and of a material in its table, and then judges each against the table's own tolerance, in lot order |
| Reconciliation.Evaluate | internal/domain/reconciliation/model.go:136-154 | the one-tolerance evaluator judges each measurement in place |
| Reconciliation.DeltasMatchTotals | internal/domain/reconciliation/rules.go:55-76 | the deltas of either evaluator add up to expected total minus actual total |
| Reconciliation.Summarize | internal/domain/reconciliation/rules.go:97-103 | has exactly the materials measured, each with its share of the actual weight |
| Reconciliation.ShareMeans | internal/domain/reconciliation/rules.go:97-103 | a material's share is the grams found of it and of nothing else |
| Reconciliation.SummaryMatchesTotal | internal/domain/reconciliation/rules.go:97-103 | the summary's values add up to the report's actual total |
| Review.ReconciliationService.Load | internal/service/reconciliation.go:123-144 | answers from the cache or fills it, for the report's own tenant only |
| Review.ReconciliationService.Save | internal/service/reconciliation.go:145-158 | store and cache both take the report, or neither does |
| Review.ReconciliationService.CreateReport | internal/service/reconciliation.go:37-57 | creates or resets the report to an empty draft, exactly when allowed and nothing fails |
| Review.ReconciliationService.AppendMeasurement | internal/service/reconciliation.go:58-74 | saves the loaded report with the measurement, or at most fills the cache |
| Review.ReconciliationService.SubmitReport | internal/service/reconciliation.go:75-92 | saves the draft as submitted, each measurement timely and judged against the policy's table, or at most fills the cache |
| Review.ReconciliationService.ReviewReport | internal/service/reconciliation.go:93-122 | a supervisor's decision in literal terms: approved, sent to investigation or rejected; otherwise at most fills the cache |
| Review.YieldKeepsSound | internal/service/reconciliation.go:58-122 | every operation keeps the link between a report's state, version, marks, discrepancies and measurements |
| Review.RunKeepsInv | internal/service/reconciliation.go:37-158 | over any serial run with failures, misses and restarts, every cached report equals the stored one and every report is sound |
| Review.LoadAgreesWithStore | internal/service/reconciliation.go:123-144 | looking up through the cache answers as the store itself would, refusing other tenants included |
| Review.ApprovedIsWithinTolerance | internal/service/reconciliation.go:75-122 | in every run from a world with nothing submitted, an approved report, cached or stored, is what one submission of the run saved, and at that submission's time every measurement was within the policy's age and within the tolerance its table gives the material |
| Review.DecisionsOn | internal/service/reconciliation.go:104-121 | a submission is approved exactly when nothing is out of tolerance; an investigation can be rejected and not approved; other states admit no review |
| Review.DecideMeans | internal/service/reconciliation.go:104-121 | every outcome of a review decision, field by field |
| Review.InvestigationNeverApproved | internal/service/reconciliation.go:58-122 | with or without a store, whatever is appended or tried later, an investigation ends at most in rejection, and approved or rejected reports stay as they are until created anew or lost in a restart without store |
| Review.CurrentIsStored | internal/service/reconciliation.go:123-158 | with a store, the report that lemma speaks of is the stored one |
| ReviewRuns.RunKeepsGood | internal/service/reconciliation.go:58-158 | whatever the interleaving of lookups, loads, saves, cache updates and crashes, every held report keeps the link between state, marks, discrepancies and measurements |
| ReviewRuns.ApprovedWasJudged | internal/service/reconciliation.go:75-122 | under any interleaving an approved report is what some saved submission judged, timely and within tolerance at that submission's time, and what a supervisor's saved approval made it |
| ReviewRuns.SavesAreOwn | internal/service/reconciliation.go:123-144 | under any interleaving every save is of a report of the caller's tenant under the id the caller named |
| ReviewRuns.FinalStandsIff | internal/service/reconciliation.go:123-158 | with calls interleaved an approved or rejected report stays for good, in cache and store, exactly when no call under way was given, may save or has yet to cache another report under its id |
| ReviewRuns.AloneIsSave | internal/service/reconciliation.go:145-158 | a call undisturbed between its steps saves as the serial service does |
| ReviewRuns.StaleCallReopens | internal/service/reconciliation.go:58-74 | for every way a report takes to its approval, a run in which a call that loaded it as a draft undoes the approval |
| ReviewRuns.SomeStory | internal/service/reconciliation.go:37-122 | there is such a way: created, filled, submitted and approved |
| Digest.CanonicalText | internal/domain/reconciliation/rules.go:87-93 | computes the joined sorted lines |
| Digest.DigitsRead | internal/domain/reconciliation/rules.go:90-90 | a printed number reads back as itself and has no leading zero |
| Digest.LineMeans | internal/domain/reconciliation/rules.go:90-90 | a line field by field, with the names of materials and units |
| Digest.JoinMeans | internal/domain/reconciliation/rules.go:93-93 | lines are joined by single line breaks |
| Digest.TextSpelled | internal/domain/reconciliation/rules.go:87-93 | the whole text of two measurements, character by character |
| Digest.LineInjective | internal/domain/reconciliation/rules.go:90-90 | a line determines its fact, even when the lot id contains bars |
| Digest.JoinInjective | internal/domain/reconciliation/rules.go:93-93 | joined lines split back into the same lines |
| Digest.TextIgnoresOrder | internal/domain/reconciliation/rules.go:87-95 | the text depends only on the multiset of facts, whatever the order of measurements |
| Digest.TextIffSameFacts | internal/domain/reconciliation/rules.go:87-95 | without line breaks in lot ids two texts are equal exactly when the multisets of recorded facts are |
| Digest.RecordedAlikeIff | internal/domain/reconciliation/rules.go:90-90 | two measurements are recorded alike exactly when they differ at most in source and by a multiple of 2^64 nanoseconds |
| Digest.TextIffSameMeasurements | internal/domain/reconciliation/rules.go:87-95 | without line breaks and with instants a 64-bit clock covers, texts are equal exactly when the measurements are, up to order and sources |
| Digest.ProperIff | internal/domain/reconciliation/rules.go:90-90 | the facts spoken of are exactly those some valid measurement is recorded as |
| Digest.LineBreakCollides | internal/domain/reconciliation/rules.go:90-93 | any two facts and the one fact whose lot id swallows the first line have the same text |
| Digest.TextAmbiguousIff | internal/domain/reconciliation/rules.go:87-95 | facts of accepted measurements share their text with others exactly when there are at least two, or the single one's lot id hides a whole line before a break, sorted before the rest |
| Material.MaterialService.Add | internal/service/material.go:25-51 | adds to the end of the caller's own tenant's list exactly an acceptable lot with a new id, conflict told apart |
| Material.MaterialService.Reserve | internal/service/material.go:104-140 | succeeds exactly for an allowed caller of the tenant asking a positive amount the usable grams cover, with the greedy selection; a refusal changes nothing; the order of the allocation map does not matter |
| Material.MaterialService.Balances | internal/service/material.go:84-103 | one balance for each kind present: all grams, usable grams, the rest |
| Material.MaterialService.Prune | internal/service/material.go:158-174 | every tenant keeps, in order, exactly the lots assayed at or after the cutoff, drained or not, and the count is what was dropped |
| Material.Compact | internal/service/material.go:163-171 | compacting inside the array equals the order-preserving filter |
| Material.SelectedWeight | internal/service/material.go:119-132 | what is selected weighs what was wanted, as far as usable grams go |
| Material.SelectedOrder | internal/service/material.go:122-131 | the selection names exactly the lots taken from, in list order, with the grams taken |
| Material.DrainedInOrder | internal/service/material.go:122-138 | a lot is touched only after every usable one before it is empty; nothing goes negative; other kinds and rejected lots are untouched |
| Material.ReservationIsExact | internal/service/material.go:104-140 | a reservation hands out exactly the request, lowers its kind's usable grams by it and leaves other kinds and tenants alone |
| Material.KeptElements | internal/service/material.go:163-171 | pruning keeps exactly the lots at or after the cutoff and keeps ids distinct |
| Material.KeptAt | internal/service/material.go:163-171 | the kept lots are those at the places not assayed before the cutoff, in order |
| Material.Conservation | internal/service/material.go:25-174 | over any history, usable grams added are those available plus reserved plus pruned, per tenant and kind; ids stay unique, grams non-negative, lots in their own tenant |
| Material.IncomingSplits | internal/service/material.go:93-99 | incoming is accepted plus rejected, and rejected is exactly the grams graded so |
| Material.UsableMeans | internal/domain/material/model.go:50-50 | usable grams are those of lots that weigh something and were not graded reject |
| Material.BalanceMeans | internal/service/material.go:93-99 | a balance grows lot by lot, accepted and available or rejected |
| Trace.Chain.AddNode | internal/domain/trace/graph.go:5-13 | adds a node exactly when its id is new |
| Trace.Chain.AddEdge | internal/domain/trace/graph.go:14-28 | adds an edge exactly between two different existing nodes |
| Trace.Chain.Reachable | internal/domain/trace/graph.go:29-42 | terminates with exactly the ids some path of edges leads to from the start; no edge leads out of them |
| Trace.Chain.ReachStaysOnNodes | internal/domain/trace/graph.go:14-42 | on a built chain whatever a node reaches is a node |
| Trace.ReachableIsLeast | internal/domain/trace/graph.go:29-42 | the result is the least edge-closed set with the start in it |
| Dispatch.AddTo | internal/domain/dispatch/model.go:88-112 | takes a stop exactly when the status allows it, the stop is new and valid and the running aggregates, added in 64 bits, stay within limits; on a sound route without overflow, exactly when total weight and every hazard do |
| Dispatch.OrderedStops | internal/domain/dispatch/model.go:151-155 | a permutation by start of window, stops that start together in their old order |
| Dispatch.WithStopSound | internal/domain/dispatch/model.go:106-111 | the running total and maximum still agree with the list after a stop |
| Dispatch.TakesIffFits | internal/domain/dispatch/model.go:95-105 | on a sound route the check of the aggregates is the check of the whole list, except that a stop that overflows the total always passes for weight |
| Dispatch.NextSound | internal/domain/dispatch/model.go:113-139 | each transition keeps the route's promises and raises the version by one |
| Dispatch.Advance | internal/domain/dispatch/model.go:113-139 | one route's transition succeeds exactly along the planner's edges |
| Dispatch.Planner.Create | internal/domain/dispatch/model.go:177-192 | a new route for a known vehicle, never over an existing one |
| Dispatch.Planner.AddStop | internal/domain/dispatch/model.go:193-206 | stores the extended route exactly when the route takes the stop; without overflow, exactly when it fits |
| Dispatch.Planner.Transition | internal/domain/dispatch/model.go:207-229 | moves a route only along planned, loading, en route, delivered, and leaves the table alone otherwise |
| Dispatch.NewPlanner | internal/domain/dispatch/model.go:164-176 | refused exactly for an invalid or repeated vehicle |
| Dispatch.RouteWithinLimits | internal/domain/dispatch/model.go:65-139 | in every planner reached from an empty one without an overflowing stop: weight is the stops' sum within capacity, hazard their attained maximum within the limit, stop and lot ids distinct, a route past planned carries weight, the status fixes the version |
| Dispatch.StepSoundIff | internal/domain/dispatch/model.go:88-139 | one operation keeps every route's promise exactly when it does not accept a stop that overflows the total |
| Dispatch.RunSoundIff | internal/domain/dispatch/model.go:88-229 | over any run the promises hold at the end exactly when no step accepted an overflowing stop; otherwise a route outweighs its vehicle |
| Dispatch.LightStopsNeverOverload | internal/domain/dispatch/model.go:95-105 | stops no heavier than what a full vehicle leaves of 64 bits never overflow |
| Dispatch.HeavyStopOverloads | internal/domain/dispatch/model.go:95-108 | a concrete run where two stops of 2^63 kilograms in all are accepted on a vehicle for ten |
| Dispatch.DepartedKeepsLoad | internal/domain/dispatch/model.go:113-139 | a departed route keeps its stops in every later run, and its status only moves on |
| Notification.NotificationService.Queue | internal/service/notification.go:21-39 | queues exactly a valid message with a new id, for the caller's tenant |
| Notification.NotificationService.Claim | internal/service/notification.go:40-67 | claims the least by time then id of the messages queued, or failed and due, whatever the map order, or there is none |
| Notification.NotificationService.Complete | internal/service/notification.go:68-86 | marks a message sent, or failed and due 2^(attempts-1) seconds later |
| Notification.LeastIsUnique | internal/service/notification.go:50-56 | only one message can be the least ready one |
| Notification.AttemptsCountClaims | internal/service/notification.go:57-65 | over any run a message's attempts grow by exactly its claims |
| Notification.NoSecondClaim | internal/service/notification.go:40-86 | between two claims of one message there is a completion of it |
| Notification.FailedMessageIsDue | internal/service/notification.go:82-82 | the next time is 2^(attempts-1) seconds ahead, one second if never claimed, exactly up to 34 attempts; at 35 it is already past |
| Notification.FailedMessageWaits | internal/service/notification.go:40-86 | a failed message is claimed by nobody before its delay is over, until it is completed anew |
| Backoff.Seconds | internal/domain/notification/rules.go:22-31 | the doubling loop in 64-bit arithmetic equals the wrapped power of two |
| Backoff.SecondsExactly | internal/domain/notification/rules.go:22-31 | 2^(n-1) for attempts 1 to 63, the most negative number at 64, zero from 65 on |
| Backoff.DelayExactIff | internal/service/notification.go:82-82 | the delay in nanoseconds fits exactly up to attempt 34 |
| Backoff.Delay | internal/service/retry.go:15-24 | base times 2^attempt, wrapped; the worker clock's loop (internal/worker/clock.go:21-30) is the same |
| Words.WrapProduct | internal/service/retry.go:20-22 | wrapping at each doubling gives the wrapped product |
| Backoff.Retrier.Do | internal/service/retry.go:33-62 | done exactly when a call within the spare is reached and succeeds, gives up exactly when the spare runs out, cancelled only by its context; the key's count grows by exactly the failures, and no other key changes |

## Left out

- HTTP, middleware, configuration, sessions, passwords and logging: plumbing around these cores.
- The incident, manifest, transport, compliance, safety, energy, operator, policy, quarantine and retention services: short transition tables and filters that none of these cores depends on.
- SQL text and the row order of unsorted selects: tables are maps; JSON responses are stored as the recovery they encode.
- Constant columns (a reservation's, recovery's or certificate's state text, payload "{}", object type "lot"): they never vary.
- NormalizeChemistry: an intake receives its outcome, since trimming and upper-casing are library text handling.
- Random row ids are arbitrary integers; a repeated id is refused by the table's key.
- Times are integers; the text comparison of stored timestamps is not modelled, so order by time means order of instants.
- Ratios and tolerances are reals; overflow is modelled for delays (Backoff), recorded instants (Digest) and route weights (Dispatch), and not for clocks and counters.
- Reconciliation.AppendsAccount: report weights are unbounded numbers, so a weight or total whose grams leave 64 bits is not modelled; nor is a material balance that does.
- Lengths and order of strings are by character; for well-formed UTF-8 the order agrees with Go's byte order.
- LifecycleStore.Service.Intake: each call reads the clock once; the source reads it again for the audit row, so the two times of one call may differ slightly there.
- LifecycleStore.Service.Recover: on an error the source also returns the recovery it had built; here an error carries no value.
- Digest.TextAmbiguousIff: is about lists of facts each acceptable on its own; that one report also refuses a repeated lot and material is not used.
- WaitQueue.Queue.Take: Pop's loop appears as its atomic sections, since between them any other caller may run.
- Scheduler.Table.Collect: the loop of runDue over the collected jobs appears as the steps of the interleaved system, since Add and Cancel run between them.
- Backoff.Retrier.Do: one Do per key at a time; timers and contexts are the three given functions.
- Sorting.SortStable: the standard library's sort is any stable sort, here insertion; sort.Slice is only promised to sort and permute.
- RouteService: it changes the planner before it saves, so after a failed save planner and store differ; only the planner is modelled.
- Route.Cancel: no planner operation reaches it.
- MaterialService.List, AddAssay and AssaySummary, Chain.Roots, Planner.List and NotificationService.List: filters and sorts of the same data.
