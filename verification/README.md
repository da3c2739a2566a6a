# Verified model of the job outbox and its neighbours

A Dafny model of a multi-tenant NestJS backend: its durable job outbox, request idempotency, usage
counters, HTTP-log sanitizer, invitations, memberships and pagination. `dafny verify dfyconfig.toml`
checks all of it.

## What is modelled

**Job outbox.** Rows of `job_outbox` go through pending, claimed, published, completed and dead. Relay
workers claim rows and publish them to a queue that delivers at least once, consumers process messages in
one transaction each, poison messages mark their job dead, operators replay dead jobs, and cleanup deletes
aged rows together with their receipts. `OutboxStore` holds the SQL statements as functions on table
values and a class that executes them; `JobHandlers`, `Relay`, `Consumer`, `RelayWorker` and `Cleanup`
hold the code as methods proved against those functions. Two state machines are built from the same
functions:

- `Delivery` takes the relay's read, publish and write-back, and the consumer's look-up and mark-dead,
  as separate steps, so any write may store a stale row. Status is unreliable there; receipts are not.
- `Lifecycle` takes a dispatch and a mark-dead as one step each. Status and receipts agree there, and
  `OutboxGuarantees` states what follows.

`Grains` shows that a dispatch of the code is a run of `Delivery`, a message of the code a run of
`Lifecycle`, and every run of `Lifecycle` one of `Delivery` with the same tables. `EndpointRecords` states
what an endpoint's row tells about the deliveries made to it, when handler calls read it and save it whole
in any interleaving; `Provenance` follows the contents of rows and envelopes through `Delivery`, and
`RowHistory` the other columns of a row through `Lifecycle`.

**Request idempotency.** `Idempotency` has the table, service and interceptor as sequential code, and the
protocol of any number of clients whose insert, look-up, save and release are separate steps.
`CanonicalJson` is the normal form under the request hash.

**Usage counters.** `UsageMetering` compares hourly buckets kept by upserts with the raw log of events.

**HTTP-log sanitizer.** `LogSanitizer` has the recursion with its mutable set of visited objects over an
arbitrary heap graph, a specification along paths, and their equality.

**Organizations.** `Invitations` has the look-up of the newest unaccepted row and the compensation of
failed emails; `Memberships` has the ambient transaction, the webhook fan-out, the last-owner policy and
runs of requests; `Pagination` has pages and their metadata.

`Ranking`, `Sorting`, `Sums` and `FreshIds` are the shared theory of limited ordered queries, the stable
sort, sums over tables and unused identifiers.

## Assumptions

- Identifiers are fresh when drawn; clocks are shared and never run backwards.
- A handler transaction holds the lock of its job's row throughout, and what it writes appears at once when
  it commits. Nothing else isolates it: other transactions may save the endpoint's row during the call. A
  failed commit undoes everything in it, but not an external send already accepted; a commit may succeed and
  be reported as failed.
- In `Lifecycle` a replay and a cleanup select their rows and write them in one step, and a claim does so
  because it locks what it selects. In `Delivery` replays and cleanups may write rows selected earlier.
- The queue is a standard one: it may duplicate a message and never drops one that was not deleted.
- The outside world (acceptance, errors, failed writes, crashes, replies) is a parameter of each step; a
  send may be taken and still be reported as an error, and a write may be stored and still be reported so.
- Options satisfy what start-up validation enforces (positive counts and batch sizes, base delay at most
  the cap).
- Invitation and membership requests run one after the other; only the compensation of a failed email may
  come late.
- Hashes do not collide.

## Where the code falls short of its documentation

Each is proved at a concrete input or run, and with the exact condition under which the promise holds.

- Cleaning up a row with a receipt while a worker holds a snapshot of it can lead to a second delivery
  (`Delivery.DeliveredTwice`); exactly those cleanups can (`Delivery.CleanupIsUnsafeIff`). The retention
  guidance in README.md:586-590 is on the safe side of that.
- Cleanup deletes what it has selected without looking at it again, so a dead job replayed in between is
  deleted while it waits to be tried (`OutboxGuarantees.ReplayedJobIsDeleted`); what it selected is safe to
  delete exactly if it was not written since (`OutboxGuarantees.SelectionIsStillAgedIff`).
- Of two overlapping deliveries to one endpoint the one that fails can wipe the time of the one that
  succeeded (`EndpointRecords.OverlapLosesTheDelivery`); the time is kept exactly if every later save is of
  a call that has read it (`EndpointRecords.DeliveryTimeIsKeptIff`).
- A client that crashes before its response is saved blocks its idempotency key
  (`Idempotency.CrashBlocksTheKey`); a key is blocked exactly if nobody at work owns its unanswered request
  (`Idempotency.InProgressForeverIff`).
- Big integers are printed without truncation, so log strings are not bounded and re-sanitizing is not
  idempotent for them (`LogSanitizer.LongBigIntShows`; `LogSanitizer.StringsAreBoundedIff`,
  `LogSanitizer.SanitizingIsIdempotentIff`).
- Two different keys that compare as equal make the request hash depend on key order, so a retry that only
  reorders keys can be refused (`CanonicalJson.ReorderedRetryIsRefused`, given that locale comparison ranks
  canonically equivalent strings equally). That is the only way it can happen
  (`CanonicalJson.AllRetriesReplayIffNoTies`) among the trees modelled, whose keys are neither integer-like,
  which the language orders whatever the sort does, nor `__proto__`.
- The listed sensitive key `set-cookie` can never match, and a `Set-Cookie` header is logged
  (`LogSanitizer.SetCookieHeader`; `LogSanitizer.SetCookieNeverMatches`). Every other listed key is redacted
  (`LogSanitizer.ListedKeyRedactsItselfIff`).
- The branch that would log the name and message of an error is never reached, because an error passes for
  a plain object first (`LogSanitizer.ErrorBranchIsDead`). An error of this system, whose class assigns its
  name, is logged with the name and without the message (`LogSanitizer.NamedErrorLosesItsMessage`); in
  general exactly the own enumerable ones of the two are logged (`LogSanitizer.ErrorShowsIff`).
- Invitations created in one millisecond may leave two active (`Invitations.TieBreaksUniqueness`); which
  creations can is exactly `Invitations.CreationIsUnsafeIff`. The secret is hashed between look-up and
  insert (create-organization-invitation.use-case.ts:147), so three requests that follow one another get the
  same time only from a clock that is coarse or stands still.

## Model

| member | source | states |
|---|---|---|
| Delivery.AtMostOneDelivery | src/modules/jobs/application/webhook-delivery-job.handler.ts:69-153 | over every run of the fine-grained protocol (duplicate messages, stale whole-row writes, lease reclaim, replays and guarded cleanups of rows selected at any earlier time, crashes) a job has at most one committed delivery, and the sends the receiver took are that delivery, those reported as accepted whose transaction did not commit, and those reported as errors |
| Delivery.CleanupIsUnsafeIff | README.md:586-590 | from any state reached by guarded cleanups, one more cleanup, of whatever rows, can be followed by a run with a second delivery if and only if it deletes a row that has its receipt while a worker holds a snapshot of it |
| Delivery.HolderRestores | src/modules/jobs/application/outbox-relay.service.ts:24-52 | a relay at any point of its dispatch, or a consumer about to mark dead, brings back a deleted row whose receipt is gone and the job is delivered again |
| Delivery.DeliveredTwice | src/modules/jobs/infrastructure/persistence/typeorm/repositories/job-outbox.typeorm-repository.ts:256-290 | a concrete run with one unguarded cleanup in which a job is delivered twice: row and receipt go, and a stale save brings the row back |
| Delivery.CompletedIsOverwritten | src/modules/jobs/application/outbox-relay.service.ts:24-52 | a concrete run without cleanup in which a late write-back turns a completed row back to published; the receipt then stops the redelivery |
| Delivery.StepKeepsInv | src/modules/jobs/application/transactional-email-job.handler.ts:82-111 | each step of relay, consumer, operator, guarded cleanup and clock keeps: job types agree everywhere, a held snapshot without a row is of an undelivered job, a job with a row was delivered exactly if its receipt exists, and every send is accounted for |
| Delivery.RunKeepsInv | src/modules/jobs/application/webhook-delivery-job.handler.ts:69-153 | the invariant of the fine-grained protocol holds at the end of every run |
| Delivery.ConsumeKeepsLedger | src/modules/jobs/application/webhook-delivery-job.handler.ts:69-153 | the handler transaction keeps the ledger: never a second delivery, and every send the receiver took is the delivery, lost with its transaction, or reported as an error |
| Delivery.CleanupKeepsInv | src/database/migrations/1742934000000-baseline-schema.ts:321-327 | deleting rows together with their receipts keeps the books if none is both held and receipted |
| JobHandlers.ProcessEffect | src/modules/jobs/application/async-job-processor.service.ts:15-29 | one message changes only its own job: it is delivered exactly if the receiver took it, said so and the transaction commits, and then receipt and completed row appear together; a found receipt only completes the row; a settled or missing row changes nothing; failures change neither rows nor receipts; the caller learns what was done unless a commit is reported as failed |
| JobHandlers.ProcessEnds | src/modules/jobs/application/async-job-processor.service.ts:15-29 | which failures are for good: a call ends as non-retryable if and only if the type is unsupported, the payload malformed, or a committed transaction found the webhook endpoint gone or rejecting the event; it completes the job exactly if that was delivered before or is now; every other failure is retryable, and the receiver took a send exactly if the handler got as far as sending |
| EndpointRecords.FailureTellsLastSave | src/modules/jobs/application/webhook-delivery-job.handler.ts:88-137 | however handler calls on one endpoint overlap, its row shows a failure exactly if the last committed save was of a failed call, then with that time and status code although the handler ended in an error, and a success wipes all earlier failures |
| EndpointRecords.DeliveryTimeIsKeptIff | src/modules/jobs/application/webhook-delivery-job.handler.ts:88-137 | the row shows its last success at all times from then on if and only if every later save is of a call that read the row after that success |
| EndpointRecords.ShowsLastSuccessIff | src/modules/jobs/application/webhook-delivery-job.handler.ts:88-137 | at any one moment the row shows its last success exactly if the reads lead back to it: from the last save to the row its call had read, and so on |
| EndpointRecords.OverlapLosesTheDelivery | src/modules/webhooks/infrastructure/persistence/typeorm/repositories/webhook-endpoint.typeorm-repository.ts:80-86 | a concrete run: two calls read the row, one succeeds, the other fails and saves its stale copy, and the delivery is forgotten |
| EndpointRecords.LostTimeMayComeBack | src/modules/webhooks/infrastructure/persistence/typeorm/repositories/webhook-endpoint.typeorm-repository.ts:80-86 | a concrete run in which a third call, which had read the row in between, brings the lost time back; so one stale save does not decide what the row shows later |
| EndpointRecords.HandlerReadsAndSaves | src/modules/jobs/application/webhook-delivery-job.handler.ts:88-153 | a handler call that finds the row as a call of that protocol read it commits exactly the protocol's save, on top of what others saved meanwhile, although it throws after a failure |
| Provenance.EnvelopesSayWhatWasCreated | src/modules/jobs/domain/entities/job-outbox.entity.ts:87-95 | over every run, however stale the rows that are written and whatever cleanup deletes, each envelope ever sent carries the type and the payload its job was created with |
| Provenance.EnvelopesAreOfCreatedJobs | src/modules/jobs/application/outbox-relay.service.ts:32-36 | every envelope is of a job that was created, with that creation's type and payload |
| Provenance.CreatedOnce | src/modules/jobs/infrastructure/adapters/outbox-async-job-dispatcher.adapter.ts:17-31 | no run creates a job twice |
| Provenance.DeliveredWhereCreated | src/modules/jobs/application/webhook-delivery-job.handler.ts:88-137 | a delivered webhook is recorded at the endpoint its job was created for, and at no other |
| JobHandlers.WebhookDeliveryJobHandler.Handle | src/modules/jobs/application/webhook-delivery-job.handler.ts:69-153 | the handler body with its early returns, receipt check, endpoint read before the call and saved whole after it over whatever others committed meanwhile, receipt, completion and abort produces the tables, outcome and send of the specification |
| JobHandlers.TransactionalEmailJobHandler.Handle | src/modules/jobs/application/transactional-email-job.handler.ts:82-111 | the same for the email handler, where a failed send aborts the whole transaction |
| JobHandlers.AsyncJobProcessor.ProcessJob | src/modules/jobs/application/async-job-processor.service.ts:15-29 | unknown types and malformed payloads end as non-retryable without touching the database; otherwise the matching handler runs |
| Consumer.SqsAsyncJobWorker.ProcessMessage | src/modules/jobs/infrastructure/sqs/sqs-async-job.worker.ts:88-129 | processing, mark-dead and deletion, each call failing or not, leave the rows and the queue of the specification |
| Consumer.FateOfTheJob | src/modules/jobs/infrastructure/sqs/sqs-async-job.worker.ts:88-129 | an open job ends dead if and only if its message is poison and the worker's look-up and write succeed, completed if and only if the message completes it, and untouched otherwise, as are all other rows |
| Consumer.FateOfTheMessage | src/modules/jobs/infrastructure/sqs/sqs-async-job.worker.ts:88-129 | a message leaves the queue if and only if nothing is left to do about it (poison and marked so, its job completed, settled or gone, or no envelope at all) and its deletion takes effect |
| Consumer.NothingIsDroppedOpen | src/modules/jobs/infrastructure/sqs/sqs-async-job.worker.ts:104-118 | a message that leaves the queue leaves no open job behind; after any failure that is not poison the row is unchanged and the message still queued |
| Relay.OutboxRelayService.DispatchClaimedJob | src/modules/jobs/application/outbox-relay.service.ts:24-52 | skips rows that are not claimed, sends the envelope of the row read, and writes published, a retry or dead as the outcome demands, also when the queue accepted but an error followed |
| Relay.SqsQueue.Send | src/modules/jobs/infrastructure/adapters/sqs-async-job-dispatcher.adapter.ts:22-33 | the queue gains exactly one message under an id never used before |
| RelayWorker.OutboxRelayWorker.ClaimBatch | src/modules/jobs/infrastructure/outbox/outbox-relay.worker.ts:33-50 | claims a batch of the configured size, leaves the attempts left unchanged, and claims nothing only if no row was claimable |
| RelayWorker.OutboxRelayWorker.DispatchOne | src/modules/jobs/application/outbox-relay.service.ts:24-52 | a dispatch that returns uses up an attempt, one that throws uses none, and neither disturbs the other claimed rows |
| RelayWorker.OutboxRelayWorker.DispatchBatch | src/modules/jobs/infrastructure/outbox/outbox-relay.worker.ts:33-50 | every job of the batch is dispatched once, up to the first dispatch that throws, which ends the batch |
| RelayWorker.OutboxRelayWorker.Start | src/modules/jobs/infrastructure/outbox/outbox-relay.worker.ts:33-50 | however long the loop runs and whatever writes fail, the dispatches that return never exceed the attempts left at the start, and the first that throws stops it |
| RetryPolicy.DelaysAreBoundedAndMonotone | src/modules/jobs/application/job-outbox-retry-policy.service.ts:11-21 | delays lie between base and cap and never shrink from one attempt to a later one |
| RetryPolicy.DelayIsCappedDoubling | src/modules/jobs/application/job-outbox-retry-policy.service.ts:11-21 | the n-th delay is the smaller of the cap and the base times 2^(n-1) |
| RetryPolicy.LifetimeDelayBound | src/modules/jobs/application/job-outbox-retry-policy.service.ts:11-21 | the delays of r retries sum to at most r caps and at most base*(2^r - 1), and reach the latter exactly when the last delay is uncapped |
| OutboxStore.JobsDatabase.ClaimPendingBatch | src/modules/jobs/infrastructure/persistence/typeorm/repositories/job-outbox.typeorm-repository.ts:136-199 | claims only unlocked rows that are due or were claimed too long ago, at most the limit, leaves none out but for the limit and for older ones, and changes no other row |
| OutboxStore.JobsDatabase.ReplayDeadBatch | src/modules/jobs/infrastructure/persistence/typeorm/repositories/job-outbox.typeorm-repository.ts:201-228 | resets only dead rows, at most the limit, and leaves none out but for the limit and for longer-dead ones |
| OutboxStore.JobsDatabase.DeleteByStatusOlderThan | src/modules/jobs/infrastructure/persistence/typeorm/repositories/job-outbox.typeorm-repository.ts:256-281 | deletes only aged rows of the status with their receipts, at most the limit, and leaves none out but for the limit and for longer-unchanged ones |
| Ranking.TakeFirst | src/modules/jobs/infrastructure/persistence/typeorm/repositories/job-outbox.typeorm-repository.ts:136-178 | ordering by a key with a limit picks min(limit, size) rows, none of which is beaten by an omitted one |
| Ranking.FirstIsUnique | src/modules/jobs/infrastructure/persistence/typeorm/repositories/job-outbox.typeorm-repository.ts:136-178 | without equal keys that selection is unique |
| Lifecycle.StepKeepsInv | src/modules/jobs/application/outbox-relay.service.ts:24-52 | with a dispatch and a mark-dead as single steps, every step keeps: completed exactly if receipted, no published row without a message to come, attempt counts equal to failed publishes and below the limit |
| Lifecycle.RunKeepsInv | src/modules/jobs/infrastructure/sqs/sqs-async-job.worker.ts:88-129 | that invariant holds at the end of every run |
| Lifecycle.StillAwaited | src/modules/jobs/infrastructure/sqs/sqs-async-job.worker.ts:88-129 | a step loses no job if every message it uses up belongs to a job that is not published afterwards |
| Lifecycle.DeliverKeepsTables | src/modules/jobs/application/async-job-processor.service.ts:15-29 | processing a message publishes nothing and takes the job of every message it finishes out of published |
| Lifecycle.DispatchKeepsTables | src/modules/jobs/application/outbox-relay.service.ts:24-52 | a dispatch publishes only the row it claimed, and counts one failure exactly when it writes a retry or dead |
| Lifecycle.CondemnKeepsTables | src/modules/jobs/infrastructure/sqs/sqs-async-job.worker.ts:105-118 | marking dead leaves the job of the message unpublished and every receipted row completed |
| OutboxGuarantees.NoJobIsLost | src/modules/jobs/infrastructure/sqs/sqs-async-job.worker.ts:88-129 | after any run every created job is pending and claimable once due, claimed and claimable again once the timeout has passed from now, published with a message not yet used up, completed with a receipt, or dead, unless cleanup removed it; without cleanup none is removed |
| OutboxGuarantees.CompletedIffReceipt | src/modules/jobs/application/transactional-email-job.handler.ts:84-109 | in every reachable state a job is completed if and only if its handler has a receipt, and receipts belong to existing rows |
| OutboxGuarantees.CompletedIsLeftOnlyByCleanup | src/modules/jobs/application/webhook-delivery-job.handler.ts:71-147 | from a reachable state no step but cleanup changes a completed row, and cleanup deletes it |
| OutboxGuarantees.ReceiptBranchIsUnreachable | src/modules/jobs/application/transactional-email-job.handler.ts:84-109 | at this grain no message ever meets an existing receipt on an unsettled row |
| OutboxGuarantees.GivenUpAtTheLimit | src/modules/jobs/application/outbox-relay.service.ts:41-50 | attemptCount is the number of failed publishes since creation or last replay, and the job is given up at failure number maxAttempts and at no other |
| OutboxGuarantees.DispatchDrains | src/modules/jobs/application/outbox-relay.service.ts:38-51 | a dispatch whose outcome is stored lowers the sum of attempts left over pending and claimed rows |
| OutboxGuarantees.ClaimKeepsRemaining | src/modules/jobs/infrastructure/persistence/typeorm/repositories/job-outbox.typeorm-repository.ts:136-178 | claiming leaves that sum unchanged |
| OutboxGuarantees.DrainBound | src/modules/jobs/infrastructure/outbox/outbox-relay.worker.ts:33-50 | under any interleaving of relay, consumers and cleanup without new work, dispatches plus attempts left afterwards never exceed attempts left before |
| OutboxGuarantees.ClaimsAreSpaced | src/modules/jobs/infrastructure/persistence/typeorm/repositories/job-outbox.typeorm-repository.ts:136-178 | two claims of a job with no write to its row in between are more than the claim timeout apart |
| OutboxGuarantees.RetriesWait | src/modules/jobs/application/outbox-relay.service.ts:41-50 | after its n-th failed publish a job is not claimed again before the n-th delay has passed, unless its row is written in between |
| OutboxGuarantees.ClaimsAreDisjoint | src/modules/jobs/infrastructure/persistence/typeorm/repositories/job-outbox.typeorm-repository.ts:136-178 | a claim overlapping another, or following it within the timeout, takes none of its rows |
| OutboxGuarantees.UnwrittenRowStays | src/modules/jobs/infrastructure/persistence/typeorm/repositories/job-outbox.typeorm-repository.ts:283-290 | a step that does not write a job leaves its row as it is |
| RowHistory.RowsAreCoherent | src/modules/jobs/domain/entities/job-outbox.entity.ts:98-154 | in every reachable state a pending or claimed row has no publication time and holds an error exactly if it has failed, a published row was last written when it was published, and a dead row holds an error |
| RowHistory.RunKeepsRows | src/modules/jobs/domain/entities/job-outbox.entity.ts:98-154 | along every run a row keeps the type, payload and creation time of its job |
| RowHistory.ReplayIsCreation | src/modules/jobs/domain/entities/job-outbox.entity.ts:144-154 | a replayed row is as it was created, but for its age |
| RowHistory.DelayedJobsWait | src/modules/jobs/infrastructure/adapters/outbox-async-job-dispatcher.adapter.ts:17-31 | a job created with a delay can be claimed exactly once that has passed, unless its row is written first |
| OutboxGuarantees.ClaimShrinksPool | src/modules/jobs/infrastructure/persistence/typeorm/repositories/job-outbox.typeorm-repository.ts:136-178 | a claim removes exactly its rows from the claimable ones, and is empty only if there are none |
| OutboxGuarantees.EveryJobCanFinish | src/modules/jobs/infrastructure/outbox/outbox-relay.worker.ts:33-50 | from every reachable state the workers alone can bring each job with a row to completed or dead, by a run in which every dispatch needs a claim made in that run, so claimed rows are waited for and claimed again |
| OutboxGuarantees.WorksIsARun | src/modules/jobs/infrastructure/outbox/outbox-relay.worker.ts:33-50 | such a run is a run of the protocol, and each of its dispatches comes after a claim of the same job |
| OutboxGuarantees.RetentionIsKept | src/modules/jobs/application/outbox-cleanup.service.ts:77-86 | over every run, once a step has made or changed a row, cleanup removes it only in a final status and only after that status's retention period has passed since the step |
| OutboxGuarantees.SelectionIsStillAgedIff | src/modules/jobs/infrastructure/persistence/typeorm/repositories/job-outbox.typeorm-repository.ts:256-281 | a row that cleanup has selected as aged is still aged at any later moment if and only if nothing has changed it in between |
| OutboxGuarantees.ReplayedJobIsDeleted | src/modules/jobs/infrastructure/persistence/typeorm/repositories/job-outbox.typeorm-repository.ts:201-228 | so a dead job replayed between the selection and the deletion is deleted while pending |
| Lifecycle.RunKeepsDates | src/modules/jobs/domain/entities/job-outbox.entity.ts:98-154 | over every run rows are never dated in the future nor dated back, and a row that is gone stays gone |
| Grains.DispatchIsARun | src/modules/jobs/application/outbox-relay.service.ts:24-52 | an undisturbed dispatch of the code is a run of the fine-grained read, publish and write-back steps |
| Grains.ProcessMessageIsARun | src/modules/jobs/infrastructure/sqs/sqs-async-job.worker.ts:88-129 | a message of the code, its own calls failing or not, is a run of the coarse steps |
| Grains.ReachableStatesHaveAttemptsLeft | src/modules/jobs/application/outbox-relay.service.ts:38-51 | every reachable state meets the precondition of the relay loop |
| Grains.DispatchesAreBounded | src/modules/jobs/infrastructure/outbox/outbox-relay.worker.ts:33-50 | from every reachable state on, the attempts left bound all later dispatches |
| Grains.CoarseRunIsAFineRun | src/modules/jobs/application/outbox-relay.service.ts:24-52 | every coarse run has a fine-grained run, its cleanups guarded, that ends with the same tables, clock and envelopes |
| Grains.CoarseStatesAreFine | src/modules/jobs/application/transactional-email-job.handler.ts:84-109 | so in every coarse state a job is delivered at most once, and exactly once if its row is completed |
| Cleanup.PreviewAgreesWithCleanup | src/modules/jobs/application/outbox-cleanup.service.ts:43-86 | on the same rows and time the preview lists as many rows as a pass deletes, and the same rows when no two share their update time |
| Cleanup.PreviewCoversPool | src/modules/jobs/application/outbox-cleanup.service.ts:67-75 | filtering and sorting the finder's rows yields every aged row once, oldest first |
| Cleanup.DeletionShrinksOnePool | src/modules/jobs/infrastructure/persistence/typeorm/repositories/job-outbox.typeorm-repository.ts:256-281 | a deletion takes its batch from its own status and nothing from the others |
| Cleanup.PassesIsCeiling | src/modules/jobs/infrastructure/outbox/outbox-cleanup.worker.ts:33-55 | the number of batches for n rows is n divided by the batch size, rounded up |
| Cleanup.OnePassLess | src/modules/jobs/infrastructure/outbox/outbox-cleanup.worker.ts:33-55 | a pass leaves exactly one productive pass less, and deletes nothing only if none was left |
| Cleanup.OutboxCleanupService.CleanupOnce | src/modules/jobs/application/outbox-cleanup.service.ts:30-41 | each status loses min(batch, aged) rows, and only aged rows and their receipts go |
| Cleanup.OutboxCleanupService.DeleteByStatus | src/modules/jobs/application/outbox-cleanup.service.ts:59-65 | one status loses min(batch, aged) rows and the others none |
| Cleanup.OutboxCleanupService.Turn | src/modules/jobs/infrastructure/outbox/outbox-cleanup.worker.ts:33-55 | a turn of the loop deletes something exactly while productive passes are left |
| Cleanup.OutboxCleanupService.CleanupUntilQuiet | src/modules/jobs/infrastructure/outbox/outbox-cleanup.worker.ts:33-55 | at a fixed time the loop ends after exactly the largest of the three ceilings of productive passes, and the rows left are exactly those not yet past the retention hours of their status |
| Idempotency.HistoryOfAKey | src/modules/idempotency/application/request-idempotency.service.ts:25-84 | over every run of any number of clients the history of a key is (Start Release)* (Start (Complete Replay*)?)?, replays repeat the completed answer to the hash that started it, and the row shows where the history is |
| Idempotency.LegalIffShaped | src/modules/idempotency/application/request-idempotency.service.ts:25-84 | the histories that are legal step by step are exactly those of that shape |
| Idempotency.RetryAfter | src/modules/idempotency/application/request-idempotency.service.ts:25-84 | of two requests in a row on a free key, the second behaves after a failure as if the first had never been made, and after a success changes nothing and repeats the answer or is refused as another request |
| Idempotency.LaterAnswerRepeatsFirst | src/common/http/interceptors/request-idempotency.interceptor.ts:60-83 | a success on a free key is answered with the handler's own code and body, and any later request that finds its row changes nothing and gets the same code and, if the hash is the same, the same body exactly if a 204 returned undefined and anything else did not |
| Idempotency.AnswersFollowHistory | src/modules/idempotency/application/request-idempotency.service.ts:25-70 | over every run, what a request is told that finds its key taken is decided by the key's history: the completed answer, in progress, or key reuse |
| Idempotency.InterceptIsARun | src/common/http/interceptors/request-idempotency.interceptor.ts:55-93 | an undisturbed request of the code is a run of the concurrent protocol that ends with the same rows |
| Idempotency.OwnersAreExclusive | src/modules/idempotency/infrastructure/persistence/typeorm/repositories/idempotent-request.typeorm-repository.ts:34-49 | no key has two live owners, and an owner's row is still its own |
| Idempotency.CompletionIsPermanent | src/modules/idempotency/infrastructure/persistence/typeorm/repositories/idempotent-request.typeorm-repository.ts:81-86 | no later step, a release included, changes a completed row |
| Idempotency.InProgressForeverIff | src/modules/idempotency/application/request-idempotency.service.ts:25-84 | from every reachable state a request without response stays in progress through every later run if and only if no client at work owns it |
| Idempotency.CrashBlocksTheKey | src/common/http/interceptors/request-idempotency.interceptor.ts:55-93 | so a client that crashes before its response is saved blocks its key for good |
| Idempotency.StepKeepsInv | src/common/http/interceptors/request-idempotency.interceptor.ts:55-93 | each step of each client keeps one owner per key, pending rows for owners, and history in line with the row |
| Idempotency.RequestIdempotencyService.Begin | src/modules/idempotency/application/request-idempotency.service.ts:25-70 | a free key starts; a taken one answers with key reuse, replay or in progress and changes nothing |
| Idempotency.RequestIdempotencyService.Complete | src/modules/idempotency/application/request-idempotency.service.ts:72-80 | only a pending row takes a response, and only once |
| Idempotency.RequestIdempotencyInterceptor.Intercept | src/common/http/interceptors/request-idempotency.interceptor.ts:50-93 | an undisturbed request on a free key answers with what its handler returns and remembers it, or with the handler's error and leaves no trace; on a taken key it changes nothing |
| Idempotency.ReplayRepeatsAnswer | src/common/http/interceptors/request-idempotency.interceptor.ts:64-71 | a replayed body equals the first one exactly when a 204 returned undefined and anything else did not |
| CanonicalJson.CanonicalIffNoTies | src/common/http/idempotent-request.util.ts:4-33 | the normal form decides equality up to key order for a tree exactly when no object in it has two keys the comparison cannot tell apart |
| CanonicalJson.NormalImpliesEquivalent | src/common/http/idempotent-request.util.ts:4-23 | equal normal forms come from trees equal up to key order, ties or not |
| CanonicalJson.EquivalentImpliesNormal | src/common/http/idempotent-request.util.ts:4-23 | trees equal up to key order, without ties, have one normal form |
| CanonicalJson.TieShows | src/common/http/idempotent-request.util.ts:4-23 | every tree with a tie has a reordering with another normal form |
| CanonicalJson.NormalizeIsIdempotent | src/common/http/idempotent-request.util.ts:4-23 | normalizing a normal form changes nothing |
| CanonicalJson.KeysAscend | src/common/http/idempotent-request.util.ts:13-18 | the keys of a normal form ascend |
| CanonicalJson.RequestTreeParts | src/common/http/idempotent-request.util.ts:25-33 | requests are equal up to key order exactly if body, params and query are |
| CanonicalJson.RetryReplaysIffEquivalent | src/modules/idempotency/application/request-idempotency.service.ts:55-67 | unless two hashes collide, a request that meets a completed row replays or is refused as key reuse; it replays only if it is the stored one up to key order, and always then if the stored one has no ties |
| CanonicalJson.AllRetriesReplayIffNoTies | src/modules/idempotency/application/request-idempotency.service.ts:55-67 | with a hash nothing else shares, all reorderings of a stored request replay if and only if it has no two keys in one object that compare as equal |
| CanonicalJson.TiedRetryIsRefused | src/modules/idempotency/application/request-idempotency.service.ts:55-67 | every stored request with such keys has a reordering that is refused as key reuse |
| CanonicalJson.ReorderedRetryIsRefused | src/common/http/idempotent-request.util.ts:13-18 | a concrete case: two spellings of one accented key, swapped |
| Sorting.SortByIsStable | src/common/http/idempotent-request.util.ts:4-23 | the sort keeps tied elements in the order it found them |
| Sorting.SortBySorts | src/modules/jobs/application/outbox-cleanup.service.ts:67-75 | the sort arranges its elements in order |
| Sorting.SortedIsUnique | src/common/http/idempotent-request.util.ts:4-23 | without ties there is one sorted arrangement |
| UsageMetering.BucketsCompareByHour | src/modules/usage-metering/domain/entities/usage-counter.entity.ts:56-73 | a bucket starts no earlier than a moment exactly if the event happened no earlier than that moment rounded up to the hour |
| UsageMetering.CountersRecountTheLog | src/modules/usage-metering/infrastructure/persistence/typeorm/repositories/usage-counter.typeorm-repository.ts:51-139 | after any events the totals and latest moments over buckets are those over the raw log, and counters stay one per key |
| UsageMetering.CountersNameTheLastUser | src/modules/usage-metering/infrastructure/persistence/typeorm/repositories/usage-counter.typeorm-repository.ts:75-83 | each counter names the user of the last event it counts |
| UsageMetering.OrderDoesNotMatter | src/modules/usage-metering/infrastructure/persistence/typeorm/repositories/usage-counter.typeorm-repository.ts:51-96 | the order in which events are recorded changes no group's summary |
| UsageMetering.SummaryIsRight | src/modules/usage-metering/infrastructure/persistence/typeorm/repositories/usage-counter.typeorm-repository.ts:98-139 | by the log alone, and in whatever order equal groups come: each listed group appears once with its count and latest moment; of two listed groups the first was counted more often, or as often and no earlier for the last time; and a group is left out only for the limit and for groups that are no less |
| UsageMetering.UsageCounterRepository.Increment | src/modules/usage-metering/infrastructure/persistence/typeorm/repositories/usage-counter.typeorm-repository.ts:51-96 | the upsert adds to the counter of the same key, keeping the later moment, or inserts it |
| UsageMetering.UsageCounterRepository.Record | src/modules/usage-metering/domain/entities/usage-counter.entity.ts:56-73 | recording an event extends the log the counters stand for by that event |
| UsageMetering.UsageCounterRepository.GetApiKeyRequestSummary | src/modules/usage-metering/infrastructure/persistence/typeorm/repositories/usage-counter.typeorm-repository.ts:98-139 | the summary read meets that statement for every log, window and limit |
| LogSanitizer.SanitizeUnknown | src/modules/observability/http-logs/infrastructure/serialization/http-log.serializer.ts:69-137 | on any graph, cyclic or shared, the recursion ends, leaves the set of visited objects as it was, and computes the path-based specification |
| LogSanitizer.LogSaysIt | src/modules/observability/http-logs/infrastructure/serialization/http-log.serializer.ts:69-137 | what is logged at every path: strings and buffers whole up to 4000 characters and otherwise by their first 4000 and a marker, primitives, dates and big integers as they are, absent values as null, arrays in full, objects with their keys in order, and the markers for depth, cycles and redaction exactly where they belong |
| LogSanitizer.LoggedAlikeIff | src/modules/observability/http-logs/infrastructure/serialization/http-log.serializer.ts:27-33 | two strings are logged alike if and only if they are equal, or both longer than 4000 characters and equal in the first 4000 |
| LogSanitizer.SanitizeArray | src/modules/observability/http-logs/infrastructure/serialization/http-log.serializer.ts:98-100 | arrays are copied element by element and not tracked |
| LogSanitizer.SanitizeObject | src/modules/observability/http-logs/infrastructure/serialization/http-log.serializer.ts:111-115 | entries are copied in order, sensitive ones as the redaction marker |
| LogSanitizer.PathTheorem | src/modules/observability/http-logs/infrastructure/serialization/http-log.serializer.ts:69-137 | at every path the output holds the copy of what the graph has there, the redaction marker for a redacted entry, or nothing; below level six it holds nothing |
| LogSanitizer.HeightIsBounded | src/modules/observability/http-logs/infrastructure/serialization/http-log.serializer.ts:82-84 | the output is nested at most six levels deep |
| LogSanitizer.OpenOnThePath | src/modules/observability/http-logs/infrastructure/serialization/http-log.serializer.ts:102-119 | the visited objects at the end of a path are exactly the plain objects passed on it |
| LogSanitizer.CircularIffOpenOnThePath | src/modules/observability/http-logs/infrastructure/serialization/http-log.serializer.ts:102-119 | above the depth limit a plain object becomes the circular marker exactly if it lies on its own path, and is copied in full otherwise |
| LogSanitizer.SharedValuesAreExpanded | src/modules/observability/http-logs/infrastructure/serialization/http-log.serializer.ts:102-119 | in a graph without cycles every occurrence of a shared value is copied as if it stood alone |
| LogSanitizer.StringsAreBoundedIff | src/modules/observability/http-logs/infrastructure/serialization/http-log.serializer.ts:27-33 | every string value of the output has at most 4014 characters if and only if no big integer reached prints longer than that |
| LogSanitizer.LongBigIntShows | src/modules/observability/http-logs/infrastructure/serialization/http-log.serializer.ts:90-92 | a big integer of five thousand digits exceeds the bound |
| LogSanitizer.StringsOfTheOutput | src/modules/observability/http-logs/infrastructure/serialization/http-log.serializer.ts:69-137 | whatever holds of truncated strings holds of all output strings exactly if it holds of the big integers reached |
| LogSanitizer.SanitizingIsIdempotentIff | src/modules/observability/http-logs/infrastructure/serialization/http-log.serializer.ts:69-137 | sanitizing an output again gives it back, however it is laid out, if and only if every big integer reached prints in at most 4000 characters |
| LogSanitizer.RedactedValuesDoNotShow | src/modules/observability/http-logs/infrastructure/serialization/http-log.serializer.ts:65-67 | graphs that agree on everything reached without entering a redacted entry have the same output, whatever hangs below redacted entries and whatever errors say |
| LogSanitizer.RedactsAnySpelling | src/modules/observability/http-logs/infrastructure/serialization/http-log.serializer.ts:65-67 | keys that read alike, whatever their case and whatever stands between their letters, are redacted alike, and every listed key written in letters is redacted |
| LogSanitizer.SpellingIsLetters | src/modules/observability/http-logs/infrastructure/serialization/http-log.serializer.ts:65-67 | reading two keys side by side, skipping non-letters and ignoring case, agrees with comparing what the code strips them to |
| LogSanitizer.RedactedIffSpelled | src/modules/observability/http-logs/infrastructure/serialization/http-log.serializer.ts:65-67 | a key is redacted if and only if it spells a listed key other than `set-cookie`, read letter by letter without regard to case and to what stands between |
| LogSanitizer.DocumentedKeysAreRedacted | README.md:283 | the keys that the documentation names are redacted in every spelling |
| LogSanitizer.SetCookieNeverMatches | src/modules/observability/http-logs/infrastructure/serialization/http-log.serializer.ts:7-25 | no key matches the listed `set-cookie`, because keys lose their hyphens |
| LogSanitizer.SetCookieIsShown | src/modules/observability/http-logs/infrastructure/serialization/http-log.serializer.ts:65-67 | no key whose letters start with s, e, t is redacted |
| LogSanitizer.SetCookieHeader | src/modules/observability/http-logs/infrastructure/serialization/http-log.serializer.ts:7-25 | so a `Set-Cookie` header passes unredacted |
| LogSanitizer.ListedKeyRedactsItselfIff | src/modules/observability/http-logs/infrastructure/serialization/http-log.serializer.ts:7-25 | a listed key is itself redacted if and only if it consists of the letters a to z |
| LogSanitizer.ErrorBranchIsDead | src/modules/observability/http-logs/infrastructure/serialization/http-log.serializer.ts:102-136 | every object passes the test for arrays or the one for plain objects, so an error is the circular marker or the copy of its entries, and the branch for errors never runs |
| LogSanitizer.ErrorShowsIff | src/modules/observability/http-logs/infrastructure/serialization/http-log.serializer.ts:102-126 | above the depth limit and not within itself, an error is logged with its name if and only if the name is an own enumerable property of it, and likewise its message |
| LogSanitizer.NamedErrorLosesItsMessage | src/modules/observability/http-logs/infrastructure/serialization/http-log.serializer.ts:121-126 | an error whose class assigns its name, as the errors of this system do, is logged with the name and without the message, not as the branch for errors would have it |
| Invitations.AtMostOneActive | src/modules/iam/organizations/application/use-cases/create-organization-invitation.use-case.ts:91-163 | in every run without clashing creations an address has at most one active invitation, although only the newest unaccepted row is looked at and failed emails are compensated arbitrarily late |
| Invitations.CreationIsUnsafeIff | src/modules/iam/organizations/application/use-cases/create-organization-invitation.use-case.ts:137-163 | from any state reached without clashes, one more creation that gets past the look-up can be followed by a run with two active invitations if and only if a row of the address was created at the same instant and is unaccepted or has its email unsettled |
| Invitations.TieBreaksUniqueness | src/modules/iam/organizations/infrastructure/persistence/typeorm/repositories/organization-invitation.typeorm-repository.ts:67-85 | three requests in one millisecond, the first failing to send, can leave two active invitations |
| Invitations.LookUpIsExact | src/modules/iam/organizations/infrastructure/persistence/typeorm/repositories/organization-invitation.typeorm-repository.ts:67-85 | in such runs the look-up refuses exactly when some row of the address is active |
| Invitations.SameAddressIff | src/modules/iam/organizations/domain/entities/organization-invitation.entity.ts:38-46 | two emails are one address if and only if they agree, letter case aside, between their outer spaces |
| Invitations.ActiveForAWeekIff | src/modules/iam/organizations/application/use-cases/create-organization-invitation.use-case.ts:160 | over every run an invitation whose email did not fail is active until it is accepted or seven days have passed |
| Invitations.StepKeepsInv | src/modules/iam/organizations/domain/entities/organization-invitation.entity.ts:68-84 | creation, acceptance, late compensation and time keep every row but the newest of its address inactive |
| Invitations.RequestIsARun | src/modules/iam/organizations/application/use-cases/create-organization-invitation.use-case.ts:72-103 | a request of the code is a run of the protocol ending with the same table |
| Invitations.CreateOrganizationInvitationUseCase.PrepareInvitation | src/modules/iam/organizations/application/use-cases/create-organization-invitation.use-case.ts:105-198 | the checks in their order; a row is added exactly if role and organization are known, the address is no member and has no active invitation, and the rest of the transaction is stored |
| Invitations.CreateOrganizationInvitationUseCase.Execute | src/modules/iam/organizations/application/use-cases/create-organization-invitation.use-case.ts:72-103 | a queued email that fails rolls the row back, an inline one leaves it committed and expired |
| Invitations.AcceptOrganizationInvitationUseCase.Execute | src/modules/iam/organizations/application/use-cases/accept-organization-invitation.use-case.ts:35-90 | the membership is stored exactly if the invitation is active, the token right, and the user known, of that address and not yet a member; the acceptance is a second write that may fail after it |
| Invitations.OrganizationInvitationRepository.FindActiveByOrganizationAndEmail | src/modules/iam/organizations/infrastructure/persistence/typeorm/repositories/organization-invitation.typeorm-repository.ts:67-85 | returns a newest unaccepted row of the normalized address, any one when several are equally new |
| Memberships.EveryOrganizationIsOwned | src/modules/iam/organizations/application/policies/tenant-membership-management.policy.ts:12-55 | after any requests every organization has an owner, nobody is in one organization twice, and no two queued webhook jobs share a deduplication key |
| Memberships.RequestKeeps | src/modules/iam/organizations/application/use-cases/change-member-role.use-case.ts:34-75 | each request keeps those three facts |
| Memberships.OwnersRemain | src/modules/iam/organizations/application/policies/tenant-membership-management.policy.ts:22-55 | taking an owner's role or membership away leaves an owner when the policy allows it |
| Memberships.OnlyOwnerIff | src/modules/iam/organizations/application/policies/tenant-membership-management.policy.ts:22-55 | the policy's count of owners says no exactly to the only owner |
| Memberships.OneJobPerEndpoint | src/modules/webhooks/application/publish-webhook-event.service.ts:22-55 | fan-out leaves one webhook job for each subscribed endpoint and no other, due at once and not tried yet, with deduplication keys used nowhere else, and keeps the old rows |
| Memberships.FannedOutMeans | src/modules/webhooks/application/publish-webhook-event.service.ts:22-55 | the new rows are exactly those of the endpoints, and old rows stay |
| Memberships.PublishWebhookEventService.Publish | src/modules/webhooks/application/publish-webhook-event.service.ts:22-55 | queues one job per endpoint under one fresh event id, or throws exactly if some insert failed |
| Memberships.OutboxAsyncJobDispatcher.Dispatch | src/modules/jobs/infrastructure/adapters/outbox-async-job-dispatcher.adapter.ts:17-31 | inserts one pending row under a fresh id |
| Memberships.AddMemberUseCase.AddWithin | src/modules/iam/organizations/application/use-cases/add-member.use-case.ts:46-101 | checks and writes in order; on success membership, audit row and all jobs are there |
| Memberships.AddMemberUseCase.Execute | src/modules/iam/organizations/application/use-cases/add-member.use-case.ts:45-102 | on its own the request commits member with role, audit row and jobs together, exactly if user and role are known, the user is no member yet and every write is stored, and otherwise leaves the database unchanged |
| Memberships.AddMemberUseCase.ExecuteWithin | src/common/infrastructure/database/typeorm/transaction/typeorm-transaction-runner.adapter.ts:14-24 | inside a larger transaction that fails afterwards nothing remains, since the nested call joins it |
| Memberships.CreateOrganizationUseCase.Execute | src/modules/iam/organizations/application/use-cases/create-organization.use-case.ts:39-70 | on its own the request stores organization and owner together, exactly if the name is free, owner and role are known and the writes stored, or neither; inside an enclosing transaction that one decides |
| Memberships.ChangeMemberRoleUseCase.Execute | src/modules/iam/organizations/application/use-cases/change-member-role.use-case.ts:34-75 | the role changes unless the member or role is unknown or the member is the only owner; it stays changed even when its audit row fails |
| Memberships.RemoveMemberUseCase.Execute | src/modules/iam/organizations/application/use-cases/remove-member.use-case.ts:25-49 | the member goes unless unknown or the only owner, and stays gone even when its audit row fails |
| Pagination.FollowingShowsTheWholeList | src/modules/iam/users/application/use-cases/get-paginated-users.use-case.ts:22-31 | following hasNextPage from page one ends, having shown every item once and in order |
| Pagination.PagesAreFull | src/shared/domain/primitives/paginated.ts:32-44 | pages before the last are full, pages up to the last are non-empty, later ones are empty |
| Pagination.PageBounds | src/modules/iam/users/application/use-cases/get-paginated-users.use-case.ts:22-31 | page p shows the items from (p-1)*limit up to p*limit, has a next page exactly if items remain and a previous one exactly if items came before, and says the total, the limit and its own number |

## Left out

- Delivery.AtMostOneDelivery: assumes guarded cleanups; `Delivery.CleanupIsUnsafeIff` says exactly which single cleanup can break it.
- OutboxStore.JobsDatabase.DeleteByStatusOlderThan: selects and deletes in one step; `OutboxGuarantees.SelectionIsStillAgedIff` says when that makes no difference.
- OutboxStore.JobsDatabase.ReplayDeadBatch: selects and resets in one step; in `Delivery` a replay may reset rows of any status.
- OutboxGuarantees.RetentionIsKept: cleanup selects and deletes in one step; for rows written in between it does not hold, as `OutboxGuarantees.ReplayedJobIsDeleted` shows.
- OutboxGuarantees.EveryJobCanFinish: says that workers can finish a job, not that they will; schedulers and crashes are unconstrained.
- OutboxGuarantees.DrainBound: counts only dispatches that find a claimed row and store its outcome; a dispatch whose both writes fail uses no attempt.
- RelayWorker.OutboxRelayWorker.Start: no other worker acts between its calls; interleavings are covered by `OutboxGuarantees.DrainBound`.
- Cleanup.OutboxCleanupService.CleanupUntilQuiet: holds the clock and all other writers still while the loop repeats.
- EndpointRecords.DeliveryTimeIsKeptIff: deleting the endpoint is not an event of the protocol (a save after it brings the row back, as in `JobHandlers.WebhookDeliveryJobHandler.Handle`), and the time of the success is taken to differ from all earlier delivery times.
- JobHandlers.AsyncJobProcessor.ProcessJob: the field-by-field payload checks are one flag of the payload.
- Consumer.SqsAsyncJobWorker.ProcessMessage: parsing the JSON envelope is modelled by its result, and a message without body or handle is not modelled.
- Invitations.AcceptOrganizationInvitationUseCase.Execute: the audit row, written last, is not modelled.
- Memberships.AddMemberUseCase.Execute: when it joins an enclosing transaction and fails, the rows written so far are left to that transaction, and no statement is made about an enclosing operation that swallows the error.
- Invitations.OrganizationInvitationRepository.FindActiveByOrganizationAndEmail: lower-casing and trimming cover ASCII letters and spaces only.
- CanonicalJson.CanonicalIffNoTies: the language's own ordering of integer-like keys, `__proto__` and date objects are not modelled; the locale comparison is any ranking of keys.
- UsageMetering.UsageCounterRepository.GetApiKeyRequestSummary: the API key's display name and the tenant scope of the query are not modelled.
- LogSanitizer.SanitizeUnknown: parsing a string payload as JSON before the call, invalid dates, sparse arrays, `__proto__` keys and getters that throw are not modelled.
- Memberships.CreateOrganizationUseCase.Execute: trimming the name and checking its length are not modelled.
- Version, publication time and trace id of an envelope: the consumer reads none of them to decide anything.
- Stored columns that no decision reads (trace id and group key of a job, names and permissions of roles).
- SQS, SES, HTTP delivery, signatures, encryption and password hashing: their outcomes are parameters.
- FIFO queues and their deduplication: no deduplication id is sent to a standard queue.
- Row-level security, tenant context and the object-relational mapper: tables are maps.
- Concurrent invitation and membership requests: the code checks and then writes without a lock.
- Preview of the replay: it is the cleanup preview's filter, sort and cut on another status.
- Controllers, DTOs, guards, sessions, API keys, email templates, webhook target policy, configuration loading and command lines: wiring, or small and separate.
