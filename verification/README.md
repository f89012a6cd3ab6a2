# Verified model of the RAG service's concurrent and streaming core

This project models the parts of the service whose correctness depends on interleaving, on partial input
or on arithmetic over history, and proves what they promise.

**Tasks.** `TaskRows` holds the rows of PostgreSQL (documents, tasks, outbox events) and one function for
each committed transaction. `TaskProtocol` is the transition system: any number of API calls, publishers,
recovery sweeps and workers, one step per commit, `xadd`, `xack`, delivery, clock tick or crash. The
invariant is in `TaskInvariant` and is kept by every step (`TaskSteps`). Its key is `LiveKind`: from a
task's row alone one can tell which outbox event is its live wake-up, and every other event of the task
is spent, for ever. The results are in `TaskDelivery` (no lost wake-up, at-least-once), `TaskFencing`
(stale workers), `TaskGenerations`, `TaskAttempts` (bounded re-running), `TaskShape` (columns), `TaskBackoff`
(publications that fail), `TaskTiming` (leases), `TaskOutcomes` (what each commit comes to, said on the
columns before it) and `TaskRuns` (concrete runs).
`TaskDatabase` and `TaskWorker` are the code as classes: the transactions, the publisher loop and the
worker's handling of a message, with arbitrary steps of everybody else between any two of their actions;
each returns the run it was part of, so what is proved about runs holds for the code.

**Streaming.** `ThinkFilter` is the incremental filter that hides `<think>` spans; `SseStream` the frame
printer and the browser's parser, a subset of the event stream format of the WHATWG HTML Standard,
sections 9.2.5 and 9.2.6.

**Rate limiting.** `RateWindow` and `RateLimiter`: the dual sliding window, against the history of every
grant ever made.

**Tenant cache.** `CacheOrder`, `CacheProtocol`, `CacheSafety`, `CacheEviction`, `CacheRuns`, `TenantCache`: the
pinned LRU cache with single-flight creation; one step per critical section, factory return or wake-up.

**Uploads.** `UploadProtocol`, `UploadSafety`, `UploadTheorems`, `UploadActive` (the active-task quota),
`UploadRuns` (undisturbed and failing runs), `UploadService`: quotas and idempotency of one tenant under the
tenant row lock, one step per statement.

**Configuration.** `ConfigVersions`, `ConfigPublisher` (publication under the advisory lock),
`ConfigCache` (the bounded snapshots in memory) and `ConfigOrder` (the order in which they are cached).

**Splitting, reconciliation, fusion.** `Paragraphs` and `TableSplitter`; `Reconciler` and
`ReconcilerLaws`; `RankFusion` and `RankFusionLaws`.

`Texts`, `Sets` and `Options` are shared helpers. Times are exact integers (tasks) or reals (rate limiter).

## Where the code and its comments differ

The model follows the code.

- `DEAD_LETTER` is listed as terminal and RUNNING to DEAD_LETTER is not in the transition table, yet a
  manual retry leaves the first and a recovery sweep takes the second: `TaskRuns.BuriedAndReopened` is a run
  that does both. `TaskFsm.UsedEdgesOutsideTable` and `TaskFencing.StatusFollowsTable` say that these two are
  the only exceptions.
- A failed publication reads the event without a lock, computes from what it read, and writes later. Three
  things can go wrong, each with a run from the initial state and its exact condition: a PUBLISHED event goes
  back to PENDING (`TaskRuns.LateWriteReopens`, `TaskBackoff.PublishedIsLeftExactly`); an event stays
  PUBLISHING without a lease, so that nobody can claim it (`TaskRuns.LateWriteTakesLease`,
  `TaskBackoff.BecomesUnclaimableExactly`, `TaskBackoff.UnclaimableIsLeftExactly`); and an event's time moves
  to an earlier one (`TaskRuns.LateWriteMovesEarlier`, `TaskBackoff.AvailableMovesEarlierExactly`). The last happens only if
  somebody else has moved the time since it was read (`TaskBackoff.OnlyOvertakenWritesMoveEarlier`), so a row
  lock on the read would rule it out (`TaskBackoff.SerialNeverMovesEarlier`). What holds in any case is that a
  published event was appended at least once, that a row that can no longer be claimed was sent, and that no
  event becomes due before the task it wakes.
- The first heartbeat can shorten the lease, which the acquisition sets to 60 seconds and each beat to 30:
  `TaskRuns.FirstBeatCutsLease`, and exactly when: `TaskTiming.LeaseShrinksExactly`.
- The cap of 300 seconds on the publisher's backoff is never reached (`TaskBackoff.PublishBackoffDoubles`).
- The idempotency check lets a re-upload through after a failure ("allow retry by creating a new task"),
  but the unique constraint rejects its commit: `UploadRuns.ReuploadIsRejected`,
  `UploadTheorems.CommitOutcome` and `UploadTheorems.NoSecondCreation`.
- The check is repeated under the lock so that a twin is answered deterministically, but the session still holds
  the task object of the first check: if that saw a failure and a manual retry commits in between, the upload
  ends in the violated constraint although its twin is in flight (`UploadRuns.StaleCheckRejectsTwin`;
  `UploadTheorems.RecheckFindsTwin` is the exact condition).
- The active-task quota is checked by uploads and re-ingestions but not by manual retries:
  `UploadRuns.RetryOvershootsActiveQuota` is a run that exceeds it. `UploadActive.RetryKeepsQuotaExactly` gives
  the guard a retry lacks, exactly; under the tenant lock it is the comparison the uploads make
  (`UploadActive.GuardUnderTheLock`).
- `unpin` refreshes `last_accessed` but not the position in the cache, and only the position decides
  evictions, so unpinning does not count as a use.
- An audit of a single tenant compares all listed files with that tenant's keys, so its repair can delete
  other tenants' files: `ReconcilerLaws.FilteredAuditDeletesForeignFile`, and exactly when:
  `ReconcilerLaws.BackedFilesStayExactly`. Points and edges are safe (`ReconcilerLaws.BackedStays`).
- A repair counts an orphan without a tenant field as cleaned although its deletion filter cannot match
  it: `ReconcilerLaws.UntaggedOrphanStays`, and exactly when: `ReconcilerLaws.SecondAuditIsClean`.
- A resource that was built while the cache filled up with pinned entries is dropped without being released:
  `CacheRuns.BuiltAndDropped`, and exactly when: `CacheEviction.DroppedExactly`. `CacheEviction.NothingLeaks`
  shows that this is the only loss.
- Publications and loads of one process cache what they found in any order, so a process can go back to an older
  version until it loads again: `ConfigOrder.NeverGoesBackExactly` says exactly when it does not.

## Model

| member | source | states |
|---|---|---|
| TaskFsm.UsedEdgesOutsideTable | src/models/fsm.py:23-59 | of the edges rows really take, exactly RUNNING to DEAD_LETTER and DEAD_LETTER to PENDING are not legal by the table and the terminal set |
| TaskFsm.LegalEdges | src/models/fsm.py:23-59 | the legal edges, one by one, and the states that no edge leaves |
| TaskDatabase.Database.AcquireTaskLease | src/services/task_service.py:58-97 | succeeds if and only if the task is PENDING, or RETRY_WAITING with a retry time that is missing or reached by the clock reading; bumps attempt and token, sets the lease and clears the retry time, nothing else |
| TaskDatabase.Database.UpdateTaskStatusCas | src/services/task_service.py:100-151 | rejects what the table forbids; otherwise writes status and the given columns if and only if status, token and worker match, and clears the lease in terminal states |
| TaskDatabase.Database.CompleteTaskWithGeneration | src/services/task_service.py:154-217 | commits if and only if the row is RUNNING under the worker and token, and (to publish) the active generation is at most the new one; task and document change in one commit or neither does |
| TaskDatabase.Database.UpdateTaskProgressCas | src/services/task_service.py:220-245 | clamped progress, written only for the owner of the lease |
| TaskDatabase.Database.RetryTaskRow | src/services/task_service.py:291-345 | reopens only FAILED and DEAD_LETTER tasks with a document, with a new token and its event |
| TaskDatabase.Database.RefreshLease | src/core/tasks/lease.py:56-90 | extends the lease only under the holder's token, and otherwise stops beating |
| TaskDatabase.Database.EnqueueEvent | src/core/tasks/outbox.py:20-53 | inserts an event, or returns the existing one of the key unchanged |
| TaskDatabase.Database.OldestDueEvent | src/core/tasks/outbox.py:65-92 | the loop finds a due, unlocked event with the least creation time, and none only if there is none |
| TaskDatabase.Database.ClaimOldestEvent | src/core/tasks/outbox.py:64-96 | claims that event for 60 seconds |
| TaskDatabase.Database.RecordPublicationFailure | src/core/tasks/outbox.py:119-128 | four assignments to the object that was read, and a later UPDATE of the columns that changed, whatever the row is by then; no row matches when the event is gone |
| TaskDatabase.Database.MarkEventPublished | src/core/tasks/outbox.py:131-147 | marks an event published only while it is PUBLISHING |
| TaskDatabase.Database.RecoverRow | src/core/tasks/recovery.py:62-127 | requeues with backoff and an event while attempts are left, and buries the task otherwise |
| TaskDatabase.Database.ExecuteRecovery | src/core/tasks/recovery.py:45-136 | the loop equals one sweep over exactly the expired, unlocked RUNNING rows; the counts are those of the sweep |
| TaskWorker.System.PublishOne | src/core/tasks/outbox.py:64-147 | one publisher iteration with any interference is a run that claims the oldest due event and ends by marking it or recording the failure, if the event is still there |
| TaskWorker.System.RecordFailure | src/core/tasks/outbox.py:112-129 | the failure branch with any interference between its read, its clock reading and its write is a run; it raises only when the event was deleted in between |
| TaskWorker.System.PublishPending | src/core/tasks/outbox.py:56-149 | the publisher loop is a run of the protocol; undisturbed and without failures it leaves no due event below its limit |
| TaskWorker.System.Process | worker/main.py:249-305 | processing ends by a successful completion, a recorded failure, or lost ownership; when nobody interferes an owner that returns finishes if its completion is allowed, and one that raises records that error |
| TaskWorker.System.HandleMessage | worker/main.py:128-309 | the handling of one message, with any interference between its actions, is a run; it is acknowledged unless ownership was lost; when nobody interferes the outcome is exactly what the rows, the clock and the processing call for |
| TaskWorker.System.RunWorker | worker/main.py:84-316 | the worker loop is a run that publishes, up to ten events a round, and handles every message it is handed; from any state with the invariant it ends in one, and every queued task can still be woken |
| TaskSteps.StepKeepsInv | src/services/task_service.py:58-345 | every commit, stream operation and crash keeps the invariant, among it: a queued task's live event exists, spent events stay spent, only spent messages are acknowledged |
| TaskDelivery.NoLostWakeUp | src/core/tasks/outbox.py:56-149 | in every reachable state each PENDING or RETRY_WAITING task has a live event that can still be claimed for publication, or an unacknowledged message of it |
| TaskOutcomes.AcquiresExactly | src/services/task_service.py:58-97 | a request for the lease gets the task if and only if it is PENDING or a RETRY_WAITING one that is due by the clock reading; otherwise no row changes and the message is acknowledged |
| TaskOutcomes.WaitingTaskIsRefused | src/services/task_service.py:68-86 | in every reachable state a request for a RETRY_WAITING task changes no row if and only if its clock reading lies before the retry time |
| TaskOutcomes.BackoffIsWaitedFor | src/core/tasks/recovery.py:69-83 | in every run the acquisition that follows a sweep reads a clock no earlier than the sweep's reading plus its backoff, whatever old messages are delivered in between |
| TaskOutcomes.SweepTakesExactly | src/core/tasks/recovery.py:45-127 | a sweep changes exactly the unlocked RUNNING rows whose lease ended before its reading: back to the queue while attempts are left, to DEAD_LETTER otherwise |
| TaskOutcomes.CompletesExactly | src/services/task_service.py:176-217 | in every reachable state a full completion counts if and only if the session still owns the task and no later generation is active; then task and generation change together, otherwise nothing does |
| TaskOutcomes.PartlyCompletesExactly | src/services/task_service.py:176-201 | a partial completion counts if and only if the session still owns the task, and publishes nothing |
| TaskOutcomes.FailsExactly | worker/main.py:290-309 | a failure is recorded with its text, and the message acknowledged, if and only if the session still owns the task |
| TaskOutcomes.MissingDocumentExactly | worker/main.py:181-201 | without its document a task is failed by its owner, and the message acknowledged in any case |
| TaskOutcomes.ProgressExactly | src/services/task_service.py:220-245 | progress is written, cut to 0 to 100, if and only if the session still owns the task |
| TaskOutcomes.NewTasksAre | src/services/doc_service.py:287-602 | an upload aims at generation 1 and a re-ingestion at the one after the active; both queue a task with an event that is due at once |
| TaskOutcomes.DeletionTakesExactly | src/models/db_models.py:118-153 | deleting a document takes exactly its tasks and their events with it | |
| TaskDelivery.LiveMessageIsNeverSkipped | worker/main.py:163-175 | in every reachable state any delivery of a queued task's live event that asks for the lease gets it, whatever the clock reading after its delivery |
| TaskSteps.SkippedMessageIsSpent | worker/main.py:172-175 | a delivery that does not acquire belongs to an event that can never be live again |
| TaskDelivery.LiveDeliveryAcquires | worker/main.py:163-171 | from a state with an unacknowledged live message, delivering it and asking for the lease is possible and acquires the task |
| TaskDelivery.NothingQueuedIsStuck | src/core/tasks/outbox.py:56-149 | from every reachable state some continuation runs a queued task |
| TaskDelivery.NothingRunningIsStuck | src/core/tasks/recovery.py:45-127 | from every reachable state some continuation (time passing and one sweep) requeues a RUNNING task, or buries it when its attempts are spent |
| TaskDelivery.PublishedWasAppended | src/core/tasks/outbox.py:100-147 | at least once: a PUBLISHED event was appended to the stream, whatever publishers crash or overlap |
| TaskFencing.StaleWorkerIsHarmless | src/services/task_service.py:119-124 | after a takeover (recovery, retry, later acquisition or finalisation) no write of the earlier holder changes any row, ever |
| TaskFencing.FencedForEver | src/services/task_service.py:88-96 | once fenced, a holder stays fenced in every run, even across deletion |
| TaskFencing.AcquiredTokensGrow | src/services/task_service.py:88-97 | two acquisitions of a task never return the same token; the later one is greater |
| TaskFencing.AtMostOneOwner | src/services/task_service.py:178-187 | at most one session owns a task in any reachable state, although worker names can repeat |
| TaskFencing.RowsDescend | src/core/tasks/recovery.py:62-66 | over every run a task's token, attempt and retry count never decrease |
| TaskFencing.StatusFollowsTable | src/models/fsm.py:30-59 | every status change in every run is legal by the table or one of the two exceptions, by recovery or retry |
| TaskFencing.FinalStatesAreFinal | src/models/fsm.py:23-27 | SUCCEEDED, PARTIAL_SUCCEEDED and CANCELLED are never left |
| TaskShape.RowsAreShaped | src/services/task_service.py:89-95 | in every run the columns fit the state: only RUNNING and FAILED rows name a worker, a waiting row shows its retry time in both columns, finished rows are cleared at 100 percent, progress stays between 0 and 100 |
| TaskGenerations.OnlySuccessMovesGeneration | src/services/task_service.py:202-217 | a document's active generation moves only in the commit that makes a RUNNING task succeed, by at most one, and to that task's target |
| TaskGenerations.SuccessIsPublication | src/services/task_service.py:176-217 | a task becomes SUCCEEDED only in the commit that publishes its target |
| TaskGenerations.GenerationNeverDecreases | src/services/task_service.py:203-211 | the active generation never decreases while the document exists |
| TaskGenerations.GenerationsHaveNoGaps | src/services/doc_service.py:567-602 | every generation from 2 to the active one has a SUCCEEDED task with that target, and every SUCCEEDED task's target is at most the active one |
| TaskAttempts.AcquiresAreBounded | src/core/tasks/recovery.py:62-127 | acquisitions in a run plus the budget left never exceed the initial budget, which is (M + 1) div 2, plus manual retries |
| TaskAttempts.WorkerRunsTaskAtMostTwice | worker/main.py:77 | with the worker's limit of three attempts a task is acquired at most twice, plus once per manual retry |
| TaskAttempts.StatusChangesTerminate | src/core/tasks/recovery.py:62-127 | apart from manual retries every status change decreases a measure |
| TaskAttempts.EnqueueAlwaysInserts | src/core/tasks/outbox.py:33-53 | the keys of the next recovery and the next retry are never taken, so their enqueue always inserts |
| TaskBackoff.PublishBackoffDoubles | src/core/tasks/outbox.py:124-126 | the delay after a failed publication doubles from one second up to 256 |
| TaskBackoff.RecoveryBackoffDoubles | src/core/tasks/recovery.py:69-70 | the delay of a recovered task doubles from ten seconds up to 300 |
| TaskBackoff.AvailableMovesEarlierExactly | src/core/tasks/outbox.py:112-128 | a step moves an event's time earlier if and only if it is a failure write whose time, computed from the row it had read, lies before the one the row has by now |
| TaskBackoff.OnlyOvertakenWritesMoveEarlier | src/core/tasks/outbox.py:112-128 | in every run, whatever overlaps, a step moves a time earlier only if it is a failure write and the row's time was moved later since its publisher read it |
| TaskBackoff.PublishedIsLeftExactly | src/core/tasks/outbox.py:119-144 | a PUBLISHED event leaves that state, and then for PENDING, if and only if a failure is written by a publisher that read it in another state than PENDING |
| TaskBackoff.BecomesUnclaimableExactly | src/core/tasks/outbox.py:65-92 | an event becomes PUBLISHING without a lease, which the claim never selects, if and only if a failure is written to a PUBLISHING row by a publisher that read it as PENDING with a lease |
| TaskBackoff.UnclaimableIsLeftExactly | src/core/tasks/outbox.py:65-92 | such an event is never claimed, and only publishers that have it already can free it, by marking it or by a failure written after reading it in another state than PENDING |
| TaskRuns.LateWriteMovesEarlier | src/core/tasks/outbox.py:112-128 | a run from the initial state in which two overlapping failures move it from 64 to 63 seconds |
| TaskRuns.LateWriteReopens | src/core/tasks/outbox.py:112-144 | a run from the initial state in which a late failure sets a PUBLISHED event back to PENDING |
| TaskRuns.LateWriteTakesLease | src/core/tasks/outbox.py:112-128 | a run from the initial state in which a late failure leaves an event PUBLISHING without a lease |
| TaskRuns.BuriedAndReopened | src/core/tasks/recovery.py:115-127 | a run from the initial state that takes a task from RUNNING to DEAD_LETTER and on to PENDING |
| TaskRuns.FirstBeatCutsLease | src/core/tasks/lease.py:56-75 | a run from the initial state in which the first heartbeat, after ten seconds, cuts the lease from 60 to 40 seconds |
| TaskRuns.FirstIngestionSucceeds | src/services/task_service.py:154-217 | a run from the initial state through upload, publication, delivery and acquisition to SUCCEEDED at generation 1 |
| TaskBackoff.SerialNeverMovesEarlier | src/core/tasks/outbox.py:112-128 | in every run in which the failures of an event are recorded one at a time, no step moves a time earlier |
| TaskSteps.FailureWrittenLate | src/core/tasks/outbox.py:124-126 | no failure write makes an event due before the task it wakes |
| TaskSteps.OnlySendersSaySo | src/core/tasks/outbox.py:119-144 | a row that is PUBLISHED, or that a mixture of late writes has left unclaimable, goes back to a publisher that had appended the event |
| TaskTiming.LiveWorkerKeepsTask | src/core/tasks/lease.py:56-80 | while beats come in time no step takes the task from its holder, and the lease reaches the last deadline |
| TaskTiming.LeaseShrinksExactly | src/core/tasks/lease.py:62-75 | while a task stays RUNNING its lease moves earlier if and only if its owner beats more than 30 seconds before the end of the lease |
| TaskTiming.LiveWorkerFromAcquire | worker/main.py:166-256 | from an acquisition on: first beat within 60 seconds, later ones at most 30 apart, and the worker owns its task for as long as it processes it |
| ThinkFilter.CutIndependence | src/services/rag/stream.py:35-93 | for every text and every way of cutting it, the outputs and the flush join to the text without its thinking spans |
| ThinkFilter.SpanLaw | src/services/rag/stream.py:35-80 | what stands between `<think>` and the next `</think>` contributes nothing, and what follows is treated alike |
| ThinkFilter.UnclosedLaw | src/services/rag/stream.py:42-80 | an opening tag that is never closed takes the rest of the text with it |
| ThinkFilter.PlainLaw | src/services/rag/stream.py:42-80 | a text without `<think>` is shown as it is |
| ThinkFilter.EveryTextIsCovered | src/services/rag/stream.py:42-80 | every text falls under one of these three laws, so they determine what is shown |
| ThinkFilter.Filter.FilterDelta | src/services/rag/stream.py:42-83 | the loop over the pending buffer and its two variables equals the drain function, and ends |
| ThinkFilter.Filter.Flush | src/services/rag/stream.py:86-93 | emits what is pending outside a span, nothing inside |
| ThinkFilter.StreamTokens | src/services/rag/stream.py:174-204 | the token loop sends exactly the visible text, and never an empty token |
| SseStream.RoundTrip | src/services/rag/stream.py:29-32 | for every list of printable events and every cut of their frames the parser fires the same events in order and ends with an empty buffer |
| SseStream.FrameLaw | src/services/rag/stream.py:29-32 | the format literally: such a text fires exactly its event and leaves nothing behind |
| SseStream.FrameFires | frontend/src/services/api.ts:236-249 | any frame fires at most one event, with what its last `event: ` line and its last `data: ` line say, and only if both say something |
| SseStream.SpacesAre | frontend/src/services/api.ts:236-249 | the characters that the browser trims, one by one |
| SseStream.CutIndependence | frontend/src/services/api.ts:227-262 | for any text, well-formed or not, reading it in pieces equals reading it at once |
| SseStream.Reader.OnRead | frontend/src/services/api.ts:231-261 | one read parses the complete frames and keeps the rest |
| SseStream.Reader.OnFrame | frontend/src/services/api.ts:236-249 | a frame fires at most one event, from its last event and data lines |
| SseStream.Transmit | frontend/src/services/api.ts:227-262 | the reading loop over any cut of printed frames returns the events that were sent |
| RateWindow.SlidingWindow.CleanExpired | src/core/ratelimit/limiter.py:19-22 | pops exactly the expired prefix |
| RateWindow.SlidingWindow.TimeUntilAvailable | src/core/ratelimit/limiter.py:32-48 | the loop computes the wait function |
| RateWindow.WaitIsExact | src/core/ratelimit/limiter.py:32-48 | after the wait there is room, before it there is not (above the floor of 0.01), it is zero exactly when there is room now; the fallback return is not reached |
| RateWindow.AdmitKeepsBound | src/core/ratelimit/limiter.py:144-151 | an admission that fits the unexpired total keeps the bound at every instant of the whole history |
| RateLimiter.RateBound | src/core/ratelimit/limiter.py:83-156 | for every chronological sequence of calls, every scope and every instant x, all grants ever made in (x - W, x] respect both limits, across eviction and re-creation of scopes; scopes are bounded and the two windows mirror each other |
| RateLimiter.DecisionIsExact | src/core/ratelimit/limiter.py:144-151 | a request is granted if and only if the full history leaves room for it |
| RateLimiter.RefusalIsExact | src/core/ratelimit/limiter.py:152-156 | a refused request fits after the stated wait when nothing else is granted, and not before |
| RateLimiter.TryIsExact | src/core/ratelimit/limiter.py:136-156 | one pass of the critical section grants if and only if the history leaves room, and otherwise tells the exact wait |
| RateLimiter.FirstRoomFrom | src/core/ratelimit/limiter.py:144-156 | a request within the limits has a first instant at which the history leaves room for it |
| RateLimiter.ScopeRefusedExactly | src/core/ratelimit/limiter.py:83-104 | a call is refused for want of a scope if and only if its scope is not in memory and as many others as fit there had a grant within the last window length |
| RateLimiter.RefusedOnlyWhenBusy | src/core/ratelimit/limiter.py:90-102 | a scope is refused if and only if it is unknown and the limiter is full of scopes with unexpired grants |
| RateLimiter.StaleIsForgettable | src/core/ratelimit/limiter.py:92-100 | an evicted scope has no unexpired grant in its whole history |
| RateLimiter.Limiter.GetOrCreateWindows | src/core/ratelimit/limiter.py:83-105 | evicts every stale scope when full, creates both windows, or refuses |
| RateLimiter.Limiter.TryAcquire | src/core/ratelimit/limiter.py:136-156 | the critical section over the two dictionaries of deques is the decision function |
| RateLimiter.Limiter.Acquire | src/core/ratelimit/limiter.py:107-177 | the retry loop under any interference: a grant had room, a refusal or time-out had none and names the exact wait, which the timeout does not allow; without interference the call is served at the first instant with room, or less than a hundredth of a second later, if its timeout allows for that, and fails at once if that instant lies beyond it; at most timeout / 0.01 + 1 rounds |
| CacheOrder.PopMakesRoom | src/core/tenant/cache.py:117-135 | room is refused exactly when the cache is full of pinned entries; otherwise at most one entry goes, an unpinned one |
| CacheSafety.StepKeepsInv | src/core/tenant/cache.py:40-115 | every critical section keeps the invariant of the cache, the flights, the futures and the callers |
| CacheSafety.BoundedAndSingleFlight | src/core/tenant/cache.py:40-84 | in every interleaving the size is bounded, no key is both cached and in flight, and at most one factory runs per key |
| CacheSafety.SharedOutcome | src/core/tenant/cache.py:51-58 | all callers of one creation get its creator's outcome, value or error |
| CacheSafety.OwnResourceOnly | src/core/tenant/cache.py:44-78 | a caller only ever gets a value that a factory built for its own tenant |
| CacheSafety.NobodyIsStuck | src/core/tenant/cache.py:57-84 | every unfinished caller can go on, or waits for a creator of its key who can |
| CacheEviction.NothingLeaks | src/core/tenant/cache.py:61-77 | whatever entered the cache is still in it or was handed over for release exactly once; every value a factory built entered it, was dropped for want of room, or is still in its creator's hand |
| CacheEviction.DroppedExactly | src/core/tenant/cache.py:69-84 | a built resource is dropped if and only if it is to be installed when every entry of a full cache is pinned; it is the creator's own and nothing is handed over |
| CacheRuns.BuiltAndDropped | src/core/tenant/cache.py:60-84 | a run of a cache of one entry from the empty one in which a built resource is neither cached nor handed over |
| CacheEviction.PinnedStays | src/core/tenant/cache.py:86-103 | a pinned entry stays, value and exact count, through any run without clear in which it is not unpinned as often as pinned |
| CacheEviction.OrderIsLastUse | src/core/tenant/cache.py:45-49 | in every reachable state the keys are in the order of their last hit, pin or insertion |
| CacheEviction.VictimIsLeastRecentlyUsed | src/core/tenant/cache.py:117-131 | evictions happen only in a full cache, take one entry and leave the others; it is the unpinned one used longest ago in the whole run |
| CacheEviction.RefusedOnlyWhenAllPinned | src/core/tenant/cache.py:132-135 | a creator fails for capacity exactly when all entries of a full cache are pinned, and then the cache is unchanged |
| TenantCache.BoundedCache.PopLru | src/core/tenant/cache.py:117-135 | the scan finds the first unpinned key |
| TenantCache.BoundedCache.Lookup | src/core/tenant/cache.py:44-55 | hit, join or become the creator |
| TenantCache.BoundedCache.Insert | src/core/tenant/cache.py:69-76 | evicts again, inserts, ends the flight and settles the future, or fails for capacity |
| TenantCache.BoundedCache.Produce | src/core/tenant/cache.py:60-84 | whatever goes wrong, the creator's future is settled and its key is no longer in flight; a success is cached when it returns |
| TenantCache.BoundedCache.GetOrSet | src/core/tenant/cache.py:40-84 | with any interference it is a run; a hit returns the cached value, a creator its factory's outcome or the capacity error, a waiter the creator's |
| TenantCache.BoundedCache.Pin | src/core/tenant/cache.py:86-95 | counts, moves to the end and returns the value, or nothing |
| TenantCache.BoundedCache.Unpin | src/core/tenant/cache.py:97-103 | counts down to zero at most and keeps the place |
| TenantCache.BoundedCache.Clear | src/core/tenant/cache.py:109-115 | releases every entry in order and lets creations in flight go on |
| TenantCache.BoundedCache.Size | src/core/tenant/cache.py:105-107 | the length of the order is the number of entries |
| UploadTheorems.QuotasHold | src/services/doc_service.py:212-267 | in every interleaving with a fixed configuration the size of each document, the stored bytes and the number of documents stay within their quotas |
| UploadTheorems.OneTaskPerKey | src/models/db_models.py:143 | no two tasks of a tenant ever share an idempotency key |
| UploadTheorems.NoDoubleUpload | src/services/doc_service.py:223-238 | two uploads of the same file never both end up with a task of their own |
| UploadTheorems.PreCheckFindsTwin | src/services/doc_service.py:199-210 | the first check answers an upload with its twin if and only if that is in flight or completed |
| UploadTheorems.RecheckFindsTwin | src/services/doc_service.py:223-238 | the second check does so if and only if, besides, the session has not loaded the same task as failed or cancelled before |
| UploadTheorems.CommitOutcome | src/services/doc_service.py:333-343 | the commit succeeds if and only if no failed task of the key was found, or that task is gone; otherwise the unique constraint rejects it |
| UploadTheorems.ComparedExactly | src/services/doc_service.py:240-267 | an upload is let through if and only if its size, the stored bytes with it, the number of documents and the active tasks are within the limits; otherwise the first that is not names the refusal |
| UploadTheorems.WeighedExactly | src/services/doc_service.py:551-560 | a re-ingestion is let through if and only if fewer tasks than the limit are active |
| UploadTheorems.ActiveCounts | src/services/doc_service.py:252-259 | the active tasks are the PENDING, RUNNING and RETRY_WAITING ones |
| UploadTheorems.DeletionTakesExactly | src/models/db_models.py:118 | a deletion takes the document, its bytes and its tasks, and nothing else |
| UploadTheorems.NoSecondCreation | src/core/tasks/idempotency.py:55-56 | while a key's task exists, in whatever state, no upload of it creates another |
| UploadActive.StepKeepsSafe | src/services/doc_service.py:252-267 | every step but a manual retry keeps the quota of active tasks, now and for the commit of whoever has passed the comparison |
| UploadActive.SafeIsExact | src/services/doc_service.py:252-334 | from a reachable state every continuation without further retries stays within the quota if and only if the state is safe in this sense |
| UploadActive.RetryKeepsQuotaExactly | src/services/task_service.py:297-345 | a manual retry keeps the quota, at once and in all that follows, if and only if it meets the guard: room for its task now and beside the commit to come |
| UploadActive.GuardUnderTheLock | src/services/doc_service.py:215-267 | while nobody has passed the comparison the guard is the comparison itself |
| UploadActive.ActiveQuotaWithGuard | src/services/doc_service.py:252-267 | the quota holds in every run in which each retry meets the guard |
| UploadActive.ActiveQuotaWithoutRetry | src/services/doc_service.py:252-267 | in particular in every run without retries |
| UploadActive.UnguardedRetryOvershoots | src/services/task_service.py:297-345 | after any run a retry that does not meet the guard has a continuation without retries that exceeds the quota |
| UploadRuns.RetryOvershootsActiveQuota | src/services/task_service.py:297-345 | a run with one manual retry that exceeds it |
| UploadTheorems.LockHolderCanGoOn | src/services/doc_service.py:215-221 | in every reachable state the tenant lock is free or held by exactly one live transaction, which can go on by itself |
| UploadRuns.UploadAlone | src/services/doc_service.py:173-334 | an undisturbed upload within all four limits is created if its key is free, and ends in the violated constraint after a failed or cancelled task of its key |
| UploadRuns.RefusedAlone | src/services/doc_service.py:240-267 | an undisturbed upload beyond a limit is refused by the first one it meets, and tables and lock are as before |
| UploadRuns.ReuploadIsRejected | src/core/tasks/idempotency.py:55-56 | a run from the empty state: upload, failure, and a re-upload that ends in the violated constraint |
| UploadRuns.StaleCheckRejectsTwin | src/services/doc_service.py:201-238 | a run from the empty state in which a re-upload is rejected although its twin is in flight |
| UploadSafety.StepKeepsInv | src/services/doc_service.py:173-602 | every statement and commit keeps the invariant: what a lock holder has read is still good enough |
| UploadService.DocService.LookForTwin | src/core/tasks/idempotency.py:22-56 | the branches of the first check end or continue the upload as the protocol says |
| UploadService.DocService.LookAgain | src/services/doc_service.py:223-238 | so do those of the second, by the task object the session holds |
| UploadService.DocService.Compare | src/services/doc_service.py:260-267 | lets the upload through if and only if it meets all four limits, and otherwise refuses it by the first it does not meet |
| UploadService.DocService.Insert | src/services/doc_service.py:287-343 | document and task in one commit, or neither |
| UploadService.DocService.UploadDocument | src/services/doc_service.py:173-334 | the method with any interference is a run that keeps the invariant; a reported creation is in the table, and it comes back unfinished only while another transaction holds the lock |
| ConfigVersions.NoUpdateIsLost | src/core/tenant/config_manager.py:145-209 | in every interleaving the versions are exactly 1 to n, version k is the fold of the first k accepted updates over the defaults, and each publisher finds its own updates at its version |
| ConfigVersions.LastWriterWins | src/core/tenant/config_manager.py:171-184 | a setting that validation leaves alone is what the last accepted update that has it says |
| ConfigVersions.DefaultsStay | src/core/tenant/config_manager.py:171-184 | a setting that nobody updates keeps its default |
| ConfigVersions.StampsAreOurs | src/core/tenant/config_manager.py:183-184 | tenant and version of a candidate are not the caller's to set |
| ConfigVersions.CommitSucceeds | src/core/tenant/config_manager.py:200-205 | the unique index on tenant and version never rejects a publication that was validated |
| ConfigVersions.LockHolderCanGoOn | src/core/tenant/config_manager.py:157-160 | the advisory lock is never left with a dead transaction: its holder can read or commit |
| ConfigVersions.CandidateIsNextFold | src/core/tenant/config_manager.py:171-184 | whichever branch computes it, the candidate is the next step of the fold, with the next version |
| ConfigPublisher.ConfigTable.ReadLatest | src/core/tenant/config_manager.py:164-191 | reads, lays the updates over, stamps tenant and version, validates |
| ConfigPublisher.ConfigTable.PublishConfigDb | src/core/tenant/config_manager.py:145-209 | with any interference it is a run; the version it returns holds its updates over all earlier ones |
| ConfigCache.NewestStay | src/core/tenant/config_manager.py:57-62 | trimming keeps the newest versions, twenty of them or all |
| ConfigCache.CachingKeepsBounds | src/core/tenant/config_manager.py:46-62 | at most 1000 tenants, a history only for active tenants and of at most 20 versions each, every entry filed under its own tenant and version |
| ConfigOrder.GoesBackExactly | src/core/tenant/config_manager.py:55 | one caching takes a tenant's active version back if and only if it brings an older version of that tenant |
| ConfigOrder.NeverGoesBackExactly | src/core/tenant/config_manager.py:46-62 | over any order of cachings in which the tenant is not evicted, its active version never goes back if and only if its own versions arrive in rising order; the last to arrive is the active one |
| ConfigOrder.FewTenantsStayActive | src/core/tenant/config_manager.py:50-54 | while the tenants active at first and those cached for are at most 1000 in all, none of the active ones is evicted |
| ConfigOrder.EvictsTheOldest | src/core/tenant/config_manager.py:50-54 | in every order of cachings a tenant leaves only when a new one finds a thousand others active, and it is the one that became active before all of them |
| ConfigCache.ConfigManager.CacheConfig | src/core/tenant/config_manager.py:46-62 | the loops over the dictionaries do this, first in first out |
| ConfigCache.ConfigManager.GetVersionedSnapshot | src/core/tenant/config_manager.py:103-114 | the pinned version while it is remembered, else the latest |
| ConfigCache.ConfigManager.PublishConfig | src/core/tenant/config_manager.py:117-142 | the updates over the latest settings become the next version and the active one if and only if they validate; otherwise nothing changes but a missing default being cached |
| Paragraphs.GroupsAreTheGrouping | src/parsers/table_splitter.py:105-164 | the loop's chunks are the one grouping in which each chunk takes as many paragraphs as fit, at least one, after at most one short repeated one |
| Paragraphs.ChunkBounds | src/parsers/table_splitter.py:120-147 | each chunk has a new paragraph, stays within the size unless it has just one, repeats the last paragraph exactly when that is shorter than the overlap, and would have overflowed with the next paragraph |
| Paragraphs.NothingLostOrDoubled | src/parsers/table_splitter.py:105-147 | without the repeated ones the chunks hold every paragraph once, in order |
| Paragraphs.ChunkReadsBack | src/parsers/table_splitter.py:121-128 | the text of a chunk splits back into exactly its paragraphs, and the two strips change nothing |
| Paragraphs.BlanksAre | src/parsers/table_splitter.py:48-108 | the characters that stripping takes off, one by one |
| TableSplitter.NextTableIsFirst | src/parsers/table_splitter.py:34 | the match is the leftmost, shortest one, and none is found only if there is none |
| TableSplitter.OpeningTagIs | src/parsers/table_splitter.py:34 | the opening tag is `<table`, each letter in either case, and nothing else |
| TableSplitter.ClosingTagIs | src/parsers/table_splitter.py:34 | the closing tag is `</table>`, likewise |
| TableSplitter.PartsRejoin | src/parsers/table_splitter.py:48-52 | the parts concatenate to the stripped document |
| TableSplitter.PartsAlternate | src/parsers/table_splitter.py:52 | gaps without any table and tables without any earlier end alternate |
| TableSplitter.TestAgrees | src/parsers/table_splitter.py:66 | the starts-with and ends-with test accepts exactly the tables |
| TableSplitter.TablesStayWhole | src/parsers/table_splitter.py:56-84 | every table is given to the table profiler, and so becomes a chunk, exactly once, character for character and in order |
| TableSplitter.DocumentLaw | src/parsers/table_splitter.py:39-84 | for every document, size and overlap: the parts rejoin and alternate, the profiler is given exactly the tables, the text chunks read back as groups of paragraphs, and without what each repeats these are all paragraphs between the tables, once and in order |
| TableSplitter.BlockLaw | src/parsers/table_splitter.py:93-166 | conservation of a text block, read off the chunk texts |
| TableSplitter.SplitTextBlock | src/parsers/table_splitter.py:105-166 | the loop with its buffer and running length yields the chunks of the grouping |
| TableSplitter.SplitDocument | src/parsers/table_splitter.py:39-84 | the loop over the parts yields all chunks in order, and nothing for a blank document |
| Reconciler.AuditVectors | src/core/storage/reconciliation.py:112-145 | the paged scroll covers the whole collection: one drift for each orphan point |
| Reconciler.AuditEdges | src/core/storage/reconciliation.py:177-194 | the test by the id set and the tenant map is the test by document and tenant |
| Reconciler.Stores.Audit | src/core/storage/reconciliation.py:62-259 | the report in full, of one tenant or of all |
| Reconciler.Stores.Repair | src/core/storage/reconciliation.py:270-341 | deletes what the drifts name and counts; a dry run changes nothing |
| ReconcilerLaws.RepairLaw | src/core/storage/reconciliation.py:62-341 | an audit of one tenant or of all, with its repair, deletes a point or an edge if and only if it names a document and its tenant, that tenant is audited, and PostgreSQL has no such document of that tenant |
| ReconcilerLaws.RepairedFiles | src/core/storage/reconciliation.py:202-243 | it deletes a file if and only if that has a name, is in the default bucket or in that of a loaded document, and no loaded document stores it |
| ReconcilerLaws.OrphansExactly | src/core/storage/reconciliation.py:126-195 | the report names exactly the points and groups of edges in sight without a document of their tenant, an unrecorded tenant as "unknown", the groups with their number of edges |
| ReconcilerLaws.RecordsCount | src/core/storage/reconciliation.py:167-174 | the grouped query has one record for each document and tenant, which counts its edges |
| ReconcilerLaws.MissingExactly | src/core/storage/reconciliation.py:150-243 | the report names as incomplete exactly the succeeded documents that no point in sight names, and the loaded ones whose file is in no scanned bucket |
| ReconcilerLaws.BackedStays | src/core/storage/reconciliation.py:102-195 | points and edges that PostgreSQL backs stay, whatever tenant is audited |
| ReconcilerLaws.BackedFilesStayExactly | src/core/storage/reconciliation.py:202-243 | every file that PostgreSQL backs stays if and only if every such file in a scanned bucket, with a name, belongs to a loaded document |
| ReconcilerLaws.FullAuditKeepsFiles | src/core/storage/reconciliation.py:202-243 | so an audit of all tenants keeps every backed file |
| ReconcilerLaws.SecondAuditIsClean | src/core/storage/reconciliation.py:126-141 | the same audit after its repair finds no orphan if and only if every orphan it looked at recorded its tenant and every stray file has a name |
| ReconcilerLaws.UntaggedOrphanStays | src/core/storage/reconciliation.py:128-141 | a point without a tenant is counted as cleaned and reported again |
| ReconcilerLaws.CleanedVectors | src/core/storage/reconciliation.py:291-312 | the counter of cleaned vectors is the number of orphan points the audit looked at |
| ReconcilerLaws.CleanedCounts | src/core/storage/reconciliation.py:291-335 | each counter is the number of orphans of its kind in the report, files without a name not counted |
| ReconcilerLaws.FilteredAuditDeletesForeignFile | src/core/storage/reconciliation.py:202-243 | an audit and repair of one tenant that delete a file only another tenant's document owns |
| RankFusion.KeyIsInjective | src/services/rag/engine.py:370 | the printed key determines document and chunk index, whatever the document id looks like |
| RankFusion.FuseDense | src/services/rag/engine.py:369-373 | the first loop accumulates the dense terms and keeps the last chunk of a key |
| RankFusion.FuseSparse | src/services/rag/engine.py:376-389 | the second loop adds the sparse terms and boosts and keeps known chunks |
| RankFusion.BoostByGraph | src/services/rag/engine.py:392-398 | the third loop adds each chunk's relation boost |
| RankFusion.Fuse | src/services/rag/engine.py:343-420 | the output is the first min(top_k, n) keys of the stable ranking by the formula, with the chunk of each and its display score |
| RankFusion.RankingIsSorted | src/services/rag/engine.py:401 | the ranking holds the same keys in non-increasing score |
| RankFusion.RankingIsStable | src/services/rag/engine.py:401 | an earlier key with at least the score stays ahead |
| RankFusionLaws.DenseAt | src/services/rag/engine.py:369-373 | without duplicates the dense rank i contributes exactly w / (k + i), ranks counted from 1 |
| RankFusionLaws.SparseAt | src/services/rag/engine.py:376-389 | without duplicates a sparse rank contributes its w / (k + i) and its keyword boost |
| RankFusionLaws.FormulaAt | src/services/rag/engine.py:359-398 | a chunk of both rankings scores the two reciprocals, its keyword boost and its relation boost |
| RankFusionLaws.RepresentativeIs | src/services/rag/engine.py:369-379 | a key is shown by its last dense chunk, or else by its first sparse one |
| RankFusionLaws.HitBoostLaw | src/services/rag/engine.py:382-387 | each keyword adds a tenth of its squared length if it occurs in the text, in whatever order they are given |
| RankFusionLaws.GraphBoostLaw | src/services/rag/engine.py:392-398 | each relation adds 0.03 if its source occurs in the text, in whatever order they are given |
| RankFusionLaws.SourceIs | src/services/rag/engine.py:395-396 | the source of a relation is what stands before its first ` --[`, or all of it |
| RankFusionLaws.ShownLaw | src/services/rag/engine.py:405-418 | the score shown is two fifths of the chunk's own and a tenth of the fused one, that at most 0.55, between 0.40 and 0.99; the rest of the chunk is unchanged |
| RankFusionLaws.ShownGrows | src/services/rag/engine.py:407 | of two fused scores of a chunk the higher is never shown as the lower |
| RankFusionLaws.OutputLaw | src/services/rag/engine.py:400-420 | the output is the best min(top_k, n) chunks of either list, each once, best first; nothing left out scores more than anything in it |
| RankFusionLaws.Dominance | src/services/rag/engine.py:368-401 | a chunk ahead of another in both lists with at least its boosts is ranked ahead of it, ties included |

## Left out

- HTTP routes, middleware, authentication, the React interface, logging, metrics and health probes: plumbing.
- PDF, DOCX, OCR, embedding and language-model calls: `process_document` is one step that succeeds, partly succeeds or raises.
- PostgreSQL, Redis, Qdrant, Memgraph and MinIO themselves: commits are atomic, row locks recheck their predicate, the stream is append-only with an acknowledgement per message, filter deletions remove what matches. Redis does not lose data, and clocks do not run backwards.
- UUIDs are fresh and fingerprints injective; JSON printing is injective and without raw newlines (RFC 8259, section 7).
- Task cancellation: no code path sets a task to CANCELLED, and cancelling coroutines inside the cache is not modelled.
- Tasks: `created_at` and `updated_at` of task rows, the knowledge base check on delivery, payload fields and messages without a task id are not modelled; the outbox row's id and its key are identified.
- Tasks: a flush of a loaded object writes the columns whose value differs from the loaded one, as the database library does; `last_error` is not modelled.
- Tasks: a heartbeat may come at any time while its session holds the task; the loop's `_running` flag only makes it come less often. `TaskTiming` states which timings are enough.
- Tasks: uploads and re-ingestions appear in the task protocol without their quota and idempotency checks, which are modelled in `UploadProtocol`.
- Tasks: error texts are constructors, not strings, and are not cut at 1000 characters.
- SseStream: byte cuts inside a UTF-8 character are the text decoder's business; parsing the JSON payload and dispatching to the five callbacks are not modelled, an event is fired when both fields are non-empty.
- ThinkFilter: decoding the provider's lines; deltas are what remains after it.
- RateLimiter: constructor and argument errors; one clock stands for wall clock and monotonic clock. Totals are exact.
- RateLimiter.RateBound: calls with more tokens than the limit are rejected before the critical section (`RateLimiter.Limiter.Acquire`) and are no calls of the run.
- TenantCache: `created_at` and `last_accessed`, which nothing reads; entries are values in the map the class reassigns; the release hook itself, of which only the hand-over is recorded.
- UploadProtocol: knowledge base lookup, reading and validating the file, compensation of the stored object after a failed commit; the existence check of the twin's document is part of the check, since deleting a document deletes its tasks. A session that finds a row again is taken to keep the object it loaded before, as the database library does.
- ConfigVersions: one tenant's rows and lock; tenants whose lock keys collide would only wait for each other. Validation is a parameter that must keep the version number.
- ConfigCache: which order of caching the publications and loads of a process take; `ConfigOrder` is about all of them.
- TableSplitter: page numbers, headings and the table profiler, whose chunk puts a heading line and mostly a summary before the table it is given (`src/parsers/table_profiler.py:34`, `:74`); lower-casing is modelled for ASCII letters, the only ones in the tags.
- Reconciler: store failures and concurrent writes during an audit or repair; telemetry.
- RankFusion: rounding of the display score, floating-point arithmetic, and negative values of `k` (where the code may divide by zero) and `top_k`.
- Backup and restore, prompts, chat history, parser routing, lexical reranking, index status derivation: easy members only.
