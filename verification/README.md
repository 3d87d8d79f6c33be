# Durable job protocols of the Sales host, in Dafny

This project models the fenced, durable job protocols of the Sales module and its customer host, and proves what they
promise over whole runs: workers that crash, lose their lease or are replaced, transactions that collide and roll back,
and owners and other writers in between.  `dafny verify dfyconfig.toml` checks everything.

Each protocol has the same layers.

* A value model: the tables as maps, one function for each transaction, and runs as sequences of steps with arbitrary
  arguments.  A committed transaction is one atomic step; a rollback restores the tables; a savepoint is a copy.
* Invariants every step keeps, and the theorems about runs that follow from them.
* What each transaction decides, stated on the fields it reads and writes rather than through the functions that decide it
  (`*Decisions.dfy`, `WorkflowEffects.dfy`, `WorkflowTriggers.dfy`, `WorkflowProgress.dfy`, `MergeReferences.dfy`).
* A class over mutable tables whose methods follow the statements and loops of the source, each proved equal to the
  function of its transaction, so the theorems speak about them too.

| files | protocol |
|---|---|
| `Workflow*.dfy` | the CRM workflow engine: ingestion, claim batches with savepoints, effects, failures |
| `Provider*.dfy` | provider dispatch over marker, call, receipt and local commit |
| `Import*.dfy` | CSV imports in leased chunks, one commit for each row |
| `Merge*.dfy` | record merges over all relations, and the links they leave |
| `Report*.dfy`, `WeeklySlots.dfy`, `Median.dfy` | report runs, weekly schedules, the cycle-time metric |
| `KeysetScan.dfy`, `Cursors.dfy` | keyset scans, cursors and pages |
| `Action*.dfy` | idempotent actions under concurrent requests |
| `CalendarRange.dfy`, `SavedView.dfy`, `Pipeline.dfy`, `RecordId.dfy` | the contracts of saved views, calendars, pipelines and ids |
| `Reminders.dfy` | reminder delivery |
| `BoundedBody.dfy` | the bounded body reader |
| `Fencing.dfy`, `Distinctness.dfy`, `Decimals.dfy`, `Wrappers.dfy` | shared definitions |

Conventions.  A digest is injective, so it is represented by the value it was taken of.  Times are milliseconds.  Each
transaction has its own clock reading; only report slots need readings that do not go back.  A promotion or recovery of
the worker fence raises its token; only the initial activation replaces the owner under the same token, once.

Findings about the code:

* Export creation and the import dry run are not idempotent: their handler never looks at the stored result, so a repeated
  request commits a second job and answers with its id.  `ActionIdempotency.EffectCommitsAtMostOnce` says for exactly
  which actions a repeated request is safe.
* A worker that lost its lease but not its fence fails the whole import, in a transaction of its own that checks no fence.
* A cycle-time median of an odd number of deals is printed with the zeros of a whole number trimmed: ten days print as
  `1`.  `Median.PrintedIsTheMedianExactly` says exactly when the text is right.
* Provider exactly-once needs the provider's contract or the absence of overlapping calls;
  `ProviderOverlap.OverlapSendsTwice` is a run with neither.
* A dedupe cursor with an extra member whose name is empty is accepted; `Cursors.AcceptedCursors` says what is.

## Model

| member | source | states |
|---|---|---|
| WorkflowStore.Store.RollbackTo | fixtures/customer-gate-1/src/k-nex-sales-workflows.ts:33 | a rollback restores every table and leaves the id sequence where it is |
| WorkflowStore.Store.InsertEvent | fixtures/customer-gate-1/src/k-nex-sales-workflows.ts:75-97 | an event id is taken once: an identical prior event is accepted, a different one collides and nothing is written |
| WorkflowStore.Store.Append | fixtures/customer-gate-1/src/k-nex-sales-workflows.ts:98-118 | compare-and-set on state, revision and audit length, then row, ledger row and event; on a collision the earlier writes remain for the caller to undo |
| WorkflowStore.Store.IngestEvent | fixtures/customer-gate-1/src/k-nex-sales-workflows.ts:144-168 | one scanned event: rejected, matched to its execution, or turned into a new one with ledger row, event and receipt |
| WorkflowStore.Store.IngestBatch | fixtures/customer-gate-1/src/k-nex-sales-workflows.ts:138-169 | the ingestion transaction, loop and rollback, is the specification `Ingest` |
| WorkflowStore.Store.Terminalize | fixtures/customer-gate-1/src/k-nex-sales-workflows.ts:251-270 | collision recovery under its own savepoint, a queued row passing through running |
| WorkflowStore.Store.VisitRow | fixtures/customer-gate-1/src/k-nex-sales-workflows.ts:236-250 | one loop body of a claim: source check, then the transition isolated by a savepoint |
| WorkflowStore.Store.Claim | fixtures/customer-gate-1/src/k-nex-sales-workflows.ts:229-284 | both claim loops with their savepoints are the specification `ClaimBatch` |
| WorkflowStore.Store.Create | fixtures/customer-gate-1/src/k-nex-sales-workflows.ts:171-227 | the effect transaction's body is the specification `CreateEffect`; it answers a failure code exactly when the business records no longer match the trigger, field by field |
| WorkflowStore.Store.Execute | fixtures/customer-gate-1/src/k-nex-sales-workflows.ts:285-295 | the effect transaction with its rollback is the specification `ExecuteOne` |
| WorkflowStore.Store.Fail | fixtures/customer-gate-1/src/k-nex-sales-workflows.ts:296-305 | requeue with delay, exhaust, or dead-letter a conflict, under the worker's own claim |
| WorkflowStore.Store.Process | fixtures/customer-gate-1/src/k-nex-sales-workflows.ts:306-325 | one worker pass, with others committing between its transactions, is a run of the steps the safety theorems cover: it ingests, claims, and executes the first claims in order, as many as the limit allows, and records each throw under the code it stands for |
| WorkflowStore.PassLimit | fixtures/customer-gate-1/src/k-nex-sales-workflows.ts:306-311 | a pass executes as many of its claims as the batch of 16 and, with the ingested events, the call cap of 32 allow, and no more |
| WorkflowIngestion.IngestIsAllOrNothing | fixtures/customer-gate-1/src/k-nex-sales-workflows.ts:138-169 | either every selected event is settled in one commit that counts the executions created, or only the id sequence moved; invariants and evidence are kept |
| WorkflowIngestion.DuplicateFails | fixtures/customer-gate-1/src/k-nex-sales-workflows.ts:130-136 | an event that has its receipt can never be settled again |
| WorkflowClaims.TerminalizeIsIsolated | fixtures/customer-gate-1/src/k-nex-sales-workflows.ts:251-270 | recovering a collision dead-letters exactly that row with the conflict code or leaves every table as it was |
| WorkflowClaims.VisitIsIsolated | fixtures/customer-gate-1/src/k-nex-sales-workflows.ts:236-282 | visiting one row keeps all other rows, never aborts, and yields one of the row's permitted fates |
| WorkflowClaims.LaneIsIsolated | fixtures/customer-gate-1/src/k-nex-sales-workflows.ts:271-282 | a whole lane: every visited row met a permitted fate, all others are identical, and the returned rows are exactly the stored claims |
| WorkflowClaims.UncontestedRowAdvances | fixtures/customer-gate-1/src/k-nex-sales-workflows.ts:271-281 | a due row with an intact source and a free event id is always claimed, or dead-lettered as exhausted |
| WorkflowBatches.LanesPartitionDueRows | fixtures/customer-gate-1/src/k-nex-sales-workflows.ts:232-233 | the two selections are disjoint and together are exactly the due rows, none of them terminal |
| WorkflowBatches.ScanIsComplete | fixtures/customer-gate-1/src/k-nex-sales-workflows.ts:232-233 | a selection is ascending, eligible, unlocked, and omits an eligible row only when its limit was reached before it |
| WorkflowBatches.ClaimIsIsolated | fixtures/customer-gate-1/src/k-nex-sales-workflows.ts:229-284 | a claim transaction never aborts; each selected row meets one of its fates, each other row is untouched, invariants hold, at most 16 claims return |
| WorkflowExecution.EffectShape | fixtures/customer-gate-1/src/k-nex-sales-workflows.ts:171-227 | on a running row only a recheck or a foreign domain event can stop an effect; receipt, record and event come together; `WorkflowEffects` says what the recheck decides |
| WorkflowExecution.ExecuteIsAtomic | fixtures/customer-gate-1/src/k-nex-sales-workflows.ts:285-295 | stale: nothing changes; collision: nothing changes; otherwise the row is finished together with exactly one effect or with the recheck's code |
| WorkflowExecution.FailureIsAtomic | fixtures/customer-gate-1/src/k-nex-sales-workflows.ts:296-305 | a recorded failure moves only its own row, to queued with its delay or to dead-letter with the right code; in every other case nothing changes |
| WorkflowExecution.MovedClaimIsStale | fixtures/customer-gate-1/src/k-nex-sales-workflows.ts:288-289 | a claim whose row has moved at all since is held by nobody |
| WorkflowSafety.StepKeeps | fixtures/customer-gate-1/src/k-nex-sales-workflows.ts:138-305 | every transaction and every foreign change keeps all invariants and only adds evidence |
| WorkflowSafety.EffectsHappenExactlyOnce | fixtures/customer-gate-1/src/k-nex-sales-workflows.ts:171-227 | in every run an execution is succeeded exactly when a receipt carries its key, and then exactly one record exists for the key, the one it describes |
| WorkflowSafety.NoOrphanEffects | fixtures/customer-gate-1/src/k-nex-sales-workflows.ts:187-227 | every created record belongs to a succeeded execution |
| WorkflowSafety.HistoryIsComplete | fixtures/customer-gate-1/src/k-nex-sales-workflows.ts:98-118 | audit length equals revision, at most 7; the audit is a linked chain from absent; one ledger row and one distinct outbox event per revision and no more |
| WorkflowSafety.IngestedOnce | fixtures/customer-gate-1/src/k-nex-sales-workflows.ts:152-166 | one execution per source event, and the event's receipt names it |
| WorkflowSafety.AttemptsAreBounded | fixtures/customer-gate-1/src/k-nex-sales-workflows.ts:301-303 | queued has at most 2 attempts, running 1 to 3, and revisions stay within twice the attempts (plus one) |
| WorkflowSafety.RetriesTerminate | fixtures/customer-gate-1/src/k-nex-sales-workflows.ts:229-305 | however long a run, one execution changes at most 7 times in it |
| WorkflowSafety.TerminalIsAbsorbing | fixtures/customer-gate-1/src/k-nex-sales-workflows.ts:285-305 | a terminal row, its ledger and its effects never change again |
| WorkflowSafety.StaleWorkerChangesNothing | fixtures/customer-gate-1/src/k-nex-sales-workflows.ts:285-305 | a worker whose row moved in any way since its claim can neither execute it nor record a failure |
| WorkflowSafety.ReexecutionIsStale | fixtures/customer-gate-1/src/k-nex-sales-workflows.ts:285-295 | executing one claim twice, with anything in between, creates its effect at most once |
| WorkflowEffects.TaskNeedsItsRecords | fixtures/customer-gate-1/src/k-nex-sales-workflows.ts:187-205 | a live claim of a task creates exactly its task, for the accepted owner, when both authority revisions, the actor's active mutable scope at its revision and the opportunity's revision, owner, status and stage still hold; else the row is dead with the code of the first check that fails, and no task, receipt or event exists |
| WorkflowEffects.NotificationNeedsItsLead | fixtures/customer-gate-1/src/k-nex-sales-workflows.ts:207-217 | a notification goes to its recipient when the lead is active, at the accepted revision and with the accepted owner; else the row is dead without one |
| WorkflowEffects.ReminderNeedsItsActivity | fixtures/customer-gate-1/src/k-nex-sales-workflows.ts:218-226 | a reminder is created when the activity is scheduled by its actor for the accepted time and revision, due 15 minutes earlier but not before acceptance; else the row is dead without one |
| WorkflowEffects.OnlyMatchingRecordsGetTheirEffect | fixtures/customer-gate-1/src/k-nex-sales-workflows.ts:285-295 | whoever holds which event ids: without a live fence, the stored claim and an unexpired lease nothing changes, and no record or receipt appears unless every rechecked field matches |
| WorkflowEffects.EveryRecordWasJustified | fixtures/customer-gate-1/src/k-nex-sales-workflows.ts:187-295 | in every run each record was created by a step that held a live claim, owed exactly that record, and found the business records as the trigger described them |
| WorkflowTriggers.SelectionIsComplete | fixtures/customer-gate-1/src/k-nex-sales-workflows.ts:142 | a scan offers at most its limit of durable triggers without a receipt, and leaves one out only when the limit is reached |
| WorkflowTriggers.ExactlyAdmissibleEventsAreAccepted | fixtures/customer-gate-1/src/k-nex-sales-workflows.ts:41-67 | a committed ingestion rejects exactly the offered events whose header, actors, kind, revisions, schedule or recipient are not admissible, field by field; an accepted one has one execution with its trigger, and a new execution waits unattempted |
| WorkflowTriggers.FreeEventsAreIngested | fixtures/customer-gate-1/src/k-nex-sales-workflows.ts:138-169 | a scan of distinct events is ingested whenever the event ids of the next sixteen executions are free |
| WorkflowDecisions.DueRowsAreDecided | fixtures/customer-gate-1/src/k-nex-sales-workflows.ts:271-282 | with its event ids free every due row moves: claimed for 30 seconds with one more attempt while its source event is intact, dead after its third attempt, dead with a conflict when the event is gone or altered |
| WorkflowDecisions.AlteredSourceIsNeverClaimed | fixtures/customer-gate-1/src/k-nex-sales-workflows.ts:121-127 | a row whose source event is gone or altered is never claimed, whatever event ids are taken |
| WorkflowDecisions.FailureNeedsItsClaim | fixtures/customer-gate-1/src/k-nex-sales-workflows.ts:296-305 | a failure is recorded exactly under a live fence and the stored claim, lease or not: requeued 15 seconds later for each attempt, dead after the third or at once on a transition collision; free event ids make it commit |
| WorkflowDecisions.MovesNeedTheRevisionRead | fixtures/customer-gate-1/src/k-nex-sales-workflows.ts:98-112 | a transition fails and writes nothing unless the stored row is in the state it starts from, at the revision read, with an audit entry for each revision |
| WorkflowProgress.ClaimMovesEveryDueRow | fixtures/customer-gate-1/src/k-nex-sales-workflows.ts:229-284 | a claim batch moves on every unlocked due row whose event ids are free, unless sixteen rows of its lane come before it, however the visits before it end |
| ProviderStore.Store.Enqueue | fixtures/customer-gate-1/src/k-nex-sales-communications.ts:108-115 | a repeated intent finds its operation, a new one is queued against the active configuration |
| ProviderStore.Store.Claim | fixtures/customer-gate-1/src/k-nex-sales-communications.ts:269-273 | claims up to 4 queued or orphaned operations without spending an attempt |
| ProviderStore.Store.PrepareCall | fixtures/customer-gate-1/src/k-nex-sales-communications.ts:286-314 | the marker transaction is the specification `Prepare`, and is ready exactly when `ProviderDecisions.MayCall` holds of the stored fields |
| ProviderStore.Store.KeepReceipt | fixtures/customer-gate-1/src/k-nex-sales-communications.ts:327-330 | the receipt is stored without a fence and never replaced |
| ProviderStore.Store.CompleteActivity | fixtures/customer-gate-1/src/k-nex-sales-communications.ts:331-341 | activity, activity receipt, operation and event change together under the live claim, or not at all |
| ProviderStore.Store.Fail | fixtures/customer-gate-1/src/k-nex-sales-communications.ts:342-352 | requeue or dead-letter under the live claim, counting an attempt |
| ProviderModel.LookUp | fixtures/customer-gate-1/src/k-nex-sales-communications.ts:156-163 | a reconciliation finds a receipt exactly when the provider has served the key |
| ProviderSafety.CompletedIsSound | fixtures/customer-gate-1/src/k-nex-sales-communications.ts:331-341 | completing keeps every invariant: acceptance, receipt and activity name each other |
| ProviderSafety.ClaimOneKeeps | fixtures/customer-gate-1/src/k-nex-sales-communications.ts:272 | a claim keeps every invariant; the live owner works on an operation in one session |
| ProviderSafety.StepKeeps | fixtures/customer-gate-1/src/k-nex-sales-communications.ts:264-355 | every step of workers, provider and others keeps all invariants |
| ProviderTheorems.MarkerPrecedesEffect | fixtures/customer-gate-1/src/k-nex-sales-communications.ts:308-311 | no call and no effect without a committed dispatch marker |
| ProviderTheorems.EvidenceIsWrittenOnce | fixtures/customer-gate-1/src/k-nex-sales-communications.ts:310-330 | marker, receipt, activity receipt and settled operations never change once written |
| ProviderTheorems.AcceptedMeansDelivered | fixtures/customer-gate-1/src/k-nex-sales-communications.ts:331-341 | an operation is accepted exactly when its effect happened, its receipts are the provider's for that key, and its activity was completed by it and by nothing else |
| ProviderTheorems.ContractGivesAtMostOnce | fixtures/customer-gate-1/src/k-nex-sales-communications.ts:317-330 | under the declared contract: at most one effect for a key, and one receipt everywhere, however calls overlap and workers die |
| ProviderTheorems.NoOverlapGivesAtMostOnce | fixtures/customer-gate-1/src/k-nex-sales-communications.ts:317-330 | without overlapping calls the same holds even if the provider does not deduplicate |
| ProviderOverlap.OverlapSendsTwice | fixtures/customer-gate-1/src/k-nex-sales-communications.ts:322-324 | both conditions are needed: a concrete overlapping run sends twice through a provider that does not deduplicate |
| ProviderPasses.LaterPassesLookBeforeTheyCall | fixtures/customer-gate-1/src/k-nex-sales-communications.ts:312-324 | a pass that finds the marker committed either reuses the stored receipt and never calls, or calls only after a lookup that found the key unserved |
| ProviderTheorems.RetriesAreBounded | fixtures/customer-gate-1/src/k-nex-sales-communications.ts:342-352 | attempts: at most 2 while queued or running, at most 3 ever |
| ProviderTheorems.ReclaimIsFree | fixtures/customer-gate-1/src/k-nex-sales-communications.ts:272 | taking over a dead worker's claim spends no attempt |
| ProviderDecisions.PreparedExactlyWhenCurrent | fixtures/customer-gate-1/src/k-nex-sales-communications.ts:286-314 | a call is prepared exactly when fence and claim, authorization, lifecycle, scope and configuration revision are current, the activity is scheduled, visible and as bound, and a mail's contact or lead has a usable address; an authority failure answers revoked, any other an invariant violation, and both leave no marker |
| ProviderDecisions.EveryCallWasAuthorized | fixtures/customer-gate-1/src/k-nex-sales-communications.ts:286-324 | in every run each call was prepared by its own worker for its own operation at a moment when all of that held |
| ProviderDecisions.ClaimTakesTheDue | fixtures/customer-gate-1/src/k-nex-sales-communications.ts:272 | a claim under a live fence takes only queued due operations and those of dead fences, at most four, leaves one out only when it has four, and changes nothing but who runs what |
| ProviderDecisions.FirstReceiptStays | fixtures/customer-gate-1/src/k-nex-sales-communications.ts:327-330 | a running operation stores its first receipt and keeps it; nothing else changes |
| ProviderDecisions.CompletedExactlyWhenBound | fixtures/customer-gate-1/src/k-nex-sales-communications.ts:331-341 | an activity is completed exactly under the live claim while it is as bound and neither operation nor activity has a receipt or event; then all four tables change together, otherwise none |
| ProviderDecisions.OnlyEarlyOutagesRetry | fixtures/customer-gate-1/src/k-nex-sales-communications.ts:342-352 | a failure counts an attempt under the live claim; only an outage at the first or second attempt is tried again, 15 seconds later for each attempt |
| ProviderDecisions.IntentsAreQueuedOnce | fixtures/customer-gate-1/src/k-nex-sales-communications.ts:108-115 | a new intent waits unmarked and unattempted at the active configuration revision; a known key or an inactive provider changes nothing |
| ProviderDecisions.OnlyRepeatedPassesLook | fixtures/customer-gate-1/src/k-nex-sales-communications.ts:317-324 | a pass that set the first marker calls without looking; a later one without a stored receipt looks first, takes the receipt it finds, and may call only when the provider has not served its key |
| Reminders.Store.DeliverOne | fixtures/customer-gate-1/src/k-nex-sales-communications.ts:407 | reminder, notification and both events in one statement, or a throw that leaves no row |
| Reminders.Store.FailOne | fixtures/customer-gate-1/src/k-nex-sales-communications.ts:409-418 | a failure counts, and the third ends the reminder with its event, unless that event is taken |
| Reminders.Store.Process | fixtures/customer-gate-1/src/k-nex-sales-communications.ts:399-422 | one pass completes as many deliveries as notifications appear, keeps all invariants, and under a live fence delivers every candidate that is due with untaken event ids, whatever becomes of the others |
| Reminders.StepKeeps | fixtures/customer-gate-1/src/k-nex-sales-communications.ts:399-422 | every step of workers and users keeps all invariants |
| Reminders.RemindersNotifyOnce | fixtures/customer-gate-1/src/k-nex-sales-communications.ts:407-416 | over any run a reminder has exactly one notification if it was delivered and none otherwise; at most three failures, and three exactly when failed; one audit entry per revision |
| Reminders.SettledRemindersStay | fixtures/customer-gate-1/src/k-nex-sales-communications.ts:407-416 | a failed, cancelled or dismissed reminder never changes |
| Reminders.DeliveriesAreDue | fixtures/customer-gate-1/src/k-nex-sales-communications.ts:407 | a delivery needs a live fence and a scheduled, due, consistent reminder, and then writes exactly the move, one notification and two events; otherwise only the sequence moves |
| Reminders.NobodyIsNotifiedEarly | fixtures/customer-gate-1/src/k-nex-sales-communications.ts:407 | in every run each notified reminder was delivered by a worker with a live fence at a time not before it was due |
| Reminders.ThirdFailureEnds | fixtures/customer-gate-1/src/k-nex-sales-communications.ts:413 | a failure counts on a scheduled reminder, and the third ends it with its audit entry and event, unless that event is taken |
| BoundedBody.ReadBoundedBody | fixtures/customer-gate-1/src/k-nex-sales-communications.ts:201-245 | the reader's loops compute exactly the owed outcome, and never retain more than the limit |
| BoundedBody.Assemble | fixtures/customer-gate-1/src/k-nex-sales-communications.ts:240-244 | the copied buffer is the in-order concatenation of the kept chunks |
| BoundedBody.CrossingDecides | fixtures/customer-gate-1/src/k-nex-sales-communications.ts:221-239 | once the limit is crossed the outcome is too-large, whatever follows |
| BoundedBody.SuccessIsTheWholeBody | fixtures/customer-gate-1/src/k-nex-sales-communications.ts:201-245 | success exactly when header, timing, end and size are within limits, and then with all the bytes |
| BoundedBody.SuccessEventByEvent | fixtures/customer-gate-1/src/k-nex-sales-communications.ts:186-245 | event by event: a body is returned exactly when the declared length fits, the stream ends with every read under a second and all of them within the deadline, and the bytes fit; then it is exactly those bytes |
| ImportStore.Store.RejectRows | fixtures/customer-gate-1/src/data-movement-host.ts:653 | the loop rejects exactly the pending rows and reports whether some row was accepted |
| ImportStore.Store.AbandonChunks | fixtures/customer-gate-1/src/data-movement-host.ts:655 | queued and claimed chunks are failed, completed ones stay |
| ImportStore.Store.Fail | fixtures/customer-gate-1/src/data-movement-host.ts:651-658 | failing an import is the specification `FailImport` |
| ImportStore.Store.Claim | fixtures/customer-gate-1/src/data-movement-host.ts:556-575 | claim of a chunk, or terminal failure when authority is gone or three attempts are spent |
| ImportStore.Store.Row | fixtures/customer-gate-1/src/data-movement-host.ts:671-725 | one row transaction is the specification `CommitRow`: it commits exactly under a held, intact claim, settles a pending row by the effect it met, and touches no other row |
| ImportStore.Store.Complete | fixtures/customer-gate-1/src/data-movement-host.ts:727-744 | completing a chunk, and the job with the last chunk; with the claim lost it only rolls back |
| ImportStore.Store.ExecuteChunk | fixtures/customer-gate-1/src/data-movement-host.ts:663-745 | a worker's pass completes its chunk with every pending row settled by what it met, or fails the job in a second, unfenced transaction, or lost its fence; it keeps all invariants |
| ImportSafety.ChunksPartitionRows | modules/sales/src/server.ts:502 | the parser's chunks put each data row into exactly one chunk |
| ImportSafety.RowKeeps | fixtures/customer-gate-1/src/data-movement-host.ts:671-725 | a row transaction keeps all invariants, moves on only past a row that is no longer pending, and otherwise changes nothing |
| ImportSafety.CompleteKeeps | fixtures/customer-gate-1/src/data-movement-host.ts:727-744 | completing a chunk keeps all invariants; with the last chunk no row is pending and the counts are final |
| ImportSafety.FailImportKeeps | fixtures/customer-gate-1/src/data-movement-host.ts:651-658 | failing keeps all invariants and ends the job |
| ImportSafety.StepKeeps | fixtures/customer-gate-1/src/data-movement-host.ts:551-745 | every step of owner, workers (stale ones that still fail the job included), crashes and promotions keeps all invariants |
| ImportSafety.EndedImportAccountsForEveryRow | fixtures/customer-gate-1/src/data-movement-host.ts:651-745 | an ended import accounts for every row: accepted plus rejected is the row count; succeeded has none rejected, failed none accepted; the receipt carries the counts |
| ImportSafety.RowsAndRecordsCorrespond | fixtures/customer-gate-1/src/data-movement-host.ts:696-722 | each accepted row has exactly one record and each record one row; each rejected row has its diagnostic |
| ImportSafety.RowsSettleOnce | fixtures/customer-gate-1/src/data-movement-host.ts:694-722 | a row leaves pending at most once and never returns |
| ImportSafety.EndIsFinal | fixtures/customer-gate-1/src/data-movement-host.ts:651-745 | an ended import never changes |
| ImportSafety.AuditIsAChain | fixtures/customer-gate-1/src/data-movement-host.ts:616-636 | job audit is a linked chain with one entry per revision after validation, revision at most 5, chunk attempts at most 3; a running job always has an open chunk |
| ImportSafety.RepeatedRequestIsRefused | fixtures/customer-gate-1/src/data-movement-host.ts:196-219 | a commit or cancellation that went through is refused by its revision guard when repeated, ever after |
| ImportDecisions.RowsBecomeWhatTheyMeet | fixtures/customer-gate-1/src/data-movement-host.ts:671-725 | a pending row under a held, intact claim, stated on the fields of job and chunk: inserted, it is accepted with one fresh record naming it and no diagnostic; refused, it is rejected with that code and diagnostic and no record; nothing else changes, and any other row transaction changes nothing |
| ImportDecisions.EveryRowHasItsCause | fixtures/customer-gate-1/src/data-movement-host.ts:556-725 | a pending row is settled in one step only by a worker holding its chunk, with the effect that row met, by a worker failing the job, or by a claim without authority or attempts, each with its own code |
| ImportDecisions.FailingRejectsWhatIsPending | fixtures/customer-gate-1/src/data-movement-host.ts:651-658 | failing rejects exactly the pending rows with the code and a diagnostic, abandons exactly the unfinished chunks, keeps accepted rows, and is partial exactly when one was accepted |
| ImportDecisions.LastChunkEndsTheJob | fixtures/customer-gate-1/src/data-movement-host.ts:727-744 | a chunk is completed exactly under its held lease; the last one ends the job, succeeded exactly when no row was rejected, with counts and receipt |
| ImportDecisions.ClaimStartsOrFails | fixtures/customer-gate-1/src/data-movement-host.ts:556-575 | a waiting chunk, or one whose lease ran out, of an open unexpired job is claimed under a live fence with a new lease and one more attempt; without authority, or after three attempts, the job fails instead |
| ImportDecisions.DryRunRejectsWhatTheParserRefused | fixtures/customer-gate-1/src/data-movement-host.ts:170-195 | a dry run rejects exactly the rows its parser refused, each with its diagnostic; all others and every chunk wait |
| ImportDecisions.OwnersMoveTheirRevision | fixtures/customer-gate-1/src/data-movement-host.ts:196-219 | the owner queues a validated job, or cancels one not yet running, only at the revision it knows; cancelling abandons every chunk and keeps every row |
| ImportSafety.PartialFailureWithoutRejection | fixtures/customer-gate-1/src/data-movement-host.ts:651-658 | a failing import ends partially failed with nothing rejected exactly when every row was already accepted |
| ImportWitness.PartialFailureIsReachable | fixtures/customer-gate-1/src/data-movement-host.ts:727-735 | a run ends partially failed with its only row accepted and none rejected |
| MergeStore.Store.LockMergeImpacts | fixtures/customer-gate-1/src/data-movement-host.ts:366-382 | the budget loop locks every relation, and refuses exactly when the total over all relations exceeds 2000 |
| MergeStore.Store.RewriteRelations | fixtures/customer-gate-1/src/data-movement-host.ts:384-393 | relations are rewritten in order, stopping at a stale row |
| MergeStore.Store.MergeRecords | fixtures/customer-gate-1/src/data-movement-host.ts:304-358 | a merge commits as specified with the count of each relation, and every reference column of every row follows it, or every table is left as it was |
| MergeSafety.RelationsUseDistinctTables | modules/sales/src/server.ts:341-355 | the relations of a target are on distinct tables, none of them its own |
| MergeSafety.BudgetIsShared | fixtures/customer-gate-1/src/data-movement-host.ts:366-382 | locking succeeds exactly when the relations together fit into the budget |
| MergeSafety.MergeCommitsExactly | fixtures/customer-gate-1/src/data-movement-host.ts:304-358 | a merge commits exactly when admitted, within budget and not merged before, and then changes the rows as specified, row by row |
| MergeSafety.SharedTableIsStale | fixtures/customer-gate-1/src/data-movement-host.ts:384-393 | with two relations on one table a record pointing through both would make every merge stale |
| MergeSafety.MergeConservesPointers | fixtures/customer-gate-1/src/data-movement-host.ts:384-393 | in every relation nothing points to the loser, the winner has the sum of both, and no other pointer moved; `MergeReferences.EveryReferenceFollows` says it of the schema's columns |
| MergeSafety.RedirectedRowsChangeOnce | fixtures/customer-gate-1/src/data-movement-host.ts:384-393 | each redirected record gains one revision and one audit entry; winner and loser change as stated; nothing else changes |
| MergeSafety.LedgerCountsTotal | fixtures/customer-gate-1/src/data-movement-host.ts:326-345 | the impact ledger has one line for each redirected record |
| MergeSafety.ChainsFollowTheMerge | fixtures/customer-gate-1/src/data-movement-host.ts:336 | chains that ended at the loser end at the winner one link later, all others as before |
| MergeSafety.LinksFormAForest | fixtures/customer-gate-1/src/data-movement-host.ts:309-336 | over any run of merges and edits following merge links ends at a record that is not merged |
| MergeSafety.MergedAwayOnce | fixtures/customer-gate-1/src/data-movement-host.ts:309-337 | a merged record is never merged again nor merged into, and its link never changes |
| MergeSafety.MergesLeaveNoDangling | fixtures/customer-gate-1/src/data-movement-host.ts:304-393 | merges alone never leave a relation pointing to a merged record, however winners later lose; `MergeReferences.MergesLeaveNoReference` says it of the schema's columns |
| MergeReferences.EveryReferenceFollows | fixtures/customer-gate-1/src/data-movement-host.ts:384-393 | for tables on the schema: in every row of every table exactly the columns that name the loser, the row's own or the shared one of that related type, now hold the winner, and every other column is as it was |
| MergeReferences.RelationsCoverTheSchema | modules/sales/src/server.ts:341-355 | every column of the schema that can name an account or a contact has its relation |
| MergeReferences.NobodyRefersToTheLoser | fixtures/customer-gate-1/src/data-movement-host.ts:384-393 | after a merge no row refers to the loser, those that did refer to the winner, and references to anything else, of either kind, stay |
| MergeReferences.MergesLeaveNoReference | fixtures/customer-gate-1/src/data-movement-host.ts:304-393 | over any sequence of merges no column of any table refers to a merged record |
| MergeReferences.MergeAnswers | fixtures/customer-gate-1/src/data-movement-host.ts:304-337 | exactly when a merge commits and what it answers otherwise: distinct active records the caller may merge, at the revisions seen, matching and, for contacts, of one active account; at most 2000 rows that refer to the loser; a loser not merged before |
| MergeReferences.EveryChangeIsAudited | fixtures/customer-gate-1/src/data-movement-host.ts:326-345 | winner, loser and each rewritten row gain one revision and one audit entry in their role, each rewritten row a ledger line with the revision it had; any other row is identical |
| MergeReferences.LedgerGainsOneLineEach | fixtures/customer-gate-1/src/data-movement-host.ts:326-345 | the ledger gains exactly one line for each row that referred to the loser |
| KeysetScan.ScanMatches | fixtures/customer-gate-1/src/data-movement-host.ts:291-299 | the batched scan stops, equals the filter of the whole table up to 1000 matches, and gives up exactly past it |
| KeysetScan.ScanExport | fixtures/customer-gate-1/src/data-movement-host.ts:227-235 | the export scan returns every row, or fails past 10000 |
| KeysetScan.FindCandidates | fixtures/customer-gate-1/src/data-movement-host.ts:282-303 | one call is scan, limit, cursor and page as specified |
| KeysetScan.FollowingCursorsReturnsEveryMatch | fixtures/customer-gate-1/src/data-movement-host.ts:290-302 | following cursors from the first call returns every match once, in order, without error, and stops |
| Cursors.CursorRoundTrip | fixtures/customer-gate-1/src/data-movement-host.ts:27-32 | reading a cursor gives back the id it was made from |
| Cursors.AcceptedCursors | fixtures/customer-gate-1/src/data-movement-host.ts:28-31 | what is read as an id is exactly the cursor issued for it, with or without one extra member whose name is empty, before or after it |
| KeysetScan.FirstCallFailsOnlyPastTheLimit | fixtures/customer-gate-1/src/data-movement-host.ts:299-301 | a first call fails exactly when there are more than 1000 matches |
| ReportStore.Store.Append | fixtures/customer-gate-1/src/k-nex-sales-reports.ts:491-495 | a move is recorded with its ledger row and event, or collides |
| ReportStore.Store.EnqueueOne | fixtures/customer-gate-1/src/k-nex-sales-reports.ts:518-554 | one due schedule: cancelled without authority, otherwise its run is ensured and it advances |
| ReportStore.Store.ProcessPass | fixtures/customer-gate-1/src/k-nex-sales-reports.ts:555-569 | the three loops of a pass, at most 16 each, are one transaction: all of them or none |
| ReportStore.Store.ExecuteRun | fixtures/customer-gate-1/src/k-nex-sales-reports.ts:458-490 | the execution transaction is the specification `Execute`, rolled back when anything collides; `ReportDecisions.ExecutionsEndAsTheyMet` says what it decides |
| ReportStore.Store.RequeueRun | fixtures/customer-gate-1/src/k-nex-sales-reports.ts:496-510 | requeue or dead-letter under the worker's identity, without checking the claim revision |
| ReportSafety.StepKeeps | fixtures/customer-gate-1/src/k-nex-sales-reports.ts:458-578 | every step keeps histories, retry bounds and deliveries |
| ReportSafety.RunsAreBounded | fixtures/customer-gate-1/src/k-nex-sales-reports.ts:491-578 | audit length equals revision, at most 7; attempts at most 3; queued below 3; one ledger row and event per revision |
| ReportSafety.SucceededMeansDelivered | fixtures/customer-gate-1/src/k-nex-sales-reports.ts:484-489 | succeeded exactly when there is an artifact and a delivery receipt, both with the digests of the run |
| ReportSafety.TerminalIsFinal | fixtures/customer-gate-1/src/k-nex-sales-reports.ts:458-510 | a finished run never changes |
| ReportDecisions.ExecutionsEndAsTheyMet | fixtures/customer-gate-1/src/k-nex-sales-reports.ts:458-490 | under a live fence and an unexpired lease a run that produced ends succeeded one revision on, with artifact, receipt and its own fields holding exactly what was produced; a forbidden or stale one is dead with its own code and nothing delivered; a throw, a taken id or a stale worker changes nothing |
| ReportDecisions.EverySuccessWasProduced | fixtures/customer-gate-1/src/k-nex-sales-reports.ts:458-490 | in every run of the system a succeeded run succeeded in one step of its live, leased worker, with exactly the artifact and metadata that step produced |
| ReportDecisions.ThrownRunsComeBack | fixtures/customer-gate-1/src/k-nex-sales-reports.ts:496-510 | a thrown run is queued again after 15 and then 30 seconds, dead after its third attempt, or at once with its own code when authority or currency failed |
| ReportDecisions.ClaimsTakeWaitingRuns | fixtures/customer-gate-1/src/k-nex-sales-reports.ts:567-568 | exactly a due queued run or one whose lease ran out, below three attempts, is claimed, for a minute, with one more attempt |
| ReportDecisions.ThirdLeaseIsTheLast | fixtures/customer-gate-1/src/k-nex-sales-reports.ts:562-566 | exactly a run whose third lease ran out is dead-lettered as exhausted |
| ReportDecisions.DueSchedulesMoveOn | fixtures/customer-gate-1/src/k-nex-sales-reports.ts:518-554 | a due schedule without authority is cancelled; with it the run of exactly its slot is there and it stands a week further; a taken id changes nothing |
| ReportDecisions.OwnersMoveTheirRevision | fixtures/customer-gate-1/src/k-nex-sales-reports.ts:342-349 | an owner's change or cancellation needs the revision it knows and changes only its own schedule |
| ReportDecisions.AskedOnce | fixtures/customer-gate-1/src/k-nex-sales-reports.ts:319-332 | a key asked for the first time waits unattempted with its evidence; asked again it answers or conflicts without a change |
| ReportSlots.EachSlotRunsAtMostOnce | fixtures/customer-gate-1/src/k-nex-sales-reports.ts:539-547 | over any passes, crashes and owner changes a slot of a schedule has at most one run |
| ReportSlots.NoSlotIsSkipped | fixtures/customer-gate-1/src/k-nex-sales-reports.ts:518-554 | while its owner does not reschedule it, a schedule has a run for every slot between any two of its states |
| ReportSlots.CatchingUpEnds | fixtures/customer-gate-1/src/k-nex-sales-reports.ts:518-554 | in any run with readings that do not go back, the passes that serve a schedule and still find it due are at most the slots due at the last reading |
| ReportSlots.OnePassCatchesUp | fixtures/customer-gate-1/src/k-nex-sales-reports.ts:518-554 | within one transaction as many enqueues as due slots leave the schedule not due |
| ReportSlots.EnqueueAdvancesOnlyWithItsRun | fixtures/customer-gate-1/src/k-nex-sales-reports.ts:537-553 | the commit that passes a slot is the commit that ensures its run |
| WeeklySlots.FirstSlotIsASlot | fixtures/customer-gate-1/src/k-nex-sales-reports.ts:283-288 | the first slot has the asked weekday and time, lies strictly after now and within seven days |
| WeeklySlots.FirstSlotIsLeast | fixtures/customer-gate-1/src/k-nex-sales-reports.ts:283-288 | and is the least such instant |
| WeeklySlots.NextSlotIsLeast | fixtures/customer-gate-1/src/k-nex-sales-reports.ts:289-294 | the following slot is exactly seven days later and the least after it |
| Median.FormulaIsAMedian | fixtures/customer-gate-1/src/k-nex-sales-reports.ts:232 | position and next value give a median: half at or below, half at or above; none exactly for no durations |
| Median.MedianIgnoresOrder | fixtures/customer-gate-1/src/k-nex-sales-reports.ts:232 | the median does not depend on the order of the input |
| Median.MedianIsTheMeanOfTheMiddle | fixtures/customer-gate-1/src/k-nex-sales-reports.ts:232 | it is the mean of the lower and the upper middle value, each defined by how many durations lie on either side |
| Median.PrintedIsTheMedianExactly | fixtures/customer-gate-1/src/k-nex-sales-reports.ts:232-233 | the printed text is the median except for an odd number of durations whose median is a positive multiple of ten |
| Median.TenDaysPrintAsOne | fixtures/customer-gate-1/src/k-nex-sales-reports.ts:395 | an input for which the printed text is wrong |
| CalendarRange.CivilOf | modules/sales/src/contracts.ts:337-342 | the civil date of a day is valid and gives the day back |
| CalendarRange.ZonedMidnight | modules/sales/src/contracts.ts:343-355 | the loop is the bounded fixed-point iteration; a found instant always passes its own field check |
| CalendarRange.CanonicalRange | modules/sales/src/contracts.ts:360-364 | the month of now, December rollover included, or an error when a midnight cannot be found |
| CalendarRange.FoundIsMidnight | modules/sales/src/contracts.ts:343-355 | whatever the zone does, a found instant is an exact local midnight of the asked date |
| CalendarRange.ConstantOffsetSucceeds | modules/sales/src/contracts.ts:343-355 | for a constant offset two attempts suffice |
| CalendarRange.RangesAreAccepted | modules/sales/src/contracts.ts:356-364 | for any zone within a day of UTC a returned range is two exact local midnights one civil month apart, 28 to 31 days, and passes the compiler's range test |
| CalendarRange.ConstantOffsetHasARange | modules/sales/src/contracts.ts:360-364 | a constant offset always yields a range |
| SavedView.Compile | modules/sales/src/contracts.ts:387-426 | the compiler accepts exactly the stated grammar and returns the view's own parts in order, with the two date bounds for a calendar |
| SavedView.CompiledViewsAreBounded | modules/sales/src/contracts.ts:387-426 | every compiled view has at most 8 filters, 2 sorts, 8 fields and page size 100, and filters and sorts only selected fields |
| SavedView.GrammarClauseByClause | modules/sales/src/contracts.ts:387-426 | a view compiles exactly when each clause holds, written out: counts, selection, operators and values by operator, sortable distinct sorts, page size by kind, calendar days of the reporting zone |
| SavedView.CanonicalMonthCompiles | modules/sales/src/contracts.ts:360-424 | a calendar view over a canonical month compiles exactly when the rest of it does |
| Pipeline.Validate | modules/sales/src/contracts.ts:428-443 | the validator's loops accept exactly the valid snapshots |
| Pipeline.SnapshotFieldByField | modules/sales/src/contracts.ts:428-443 | a snapshot is accepted exactly when six distinct stages have their own id, position, probability, required fields and exits to a next open stage, to lost, or from negotiation to won |
| Pipeline.EachSemanticOnce | modules/sales/src/contracts.ts:430-436 | each of the six semantics occurs exactly once |
| Pipeline.MovesAdvance | modules/sales/src/contracts.ts:437-441 | every allowed move is trusted and goes strictly forward |
| Pipeline.EveryDealCloses | modules/sales/src/contracts.ts:437-441 | the graph is acyclic and every path has at most four moves |
| Pipeline.ClosedStagesHaveNoExit | modules/sales/src/contracts.ts:437-440 | won and lost have no exit |
| RecordId.PatternIsTheRange | modules/sales/src/contracts.ts:21 | the pattern accepts exactly the canonical decimals of 1 to 2147483647 |
| RecordId.IdsRoundTrip | modules/sales/src/contracts.ts:21 | parsing and printing accepted ids undo each other |
| Fencing.SupersededForGood | packages/payload-adapter/src/static-deployment-store.ts:843-864 | a fence that was superseded, by a higher token or by the initial activation under the same one, is never live again |
| Fencing.WhatMaySucceed | packages/payload-adapter/src/static-deployment-store.ts:843-864 | a fence may be renewed, replaced under a higher token, or activated once under its first one, and nothing else |
| ActionIdempotency.EffectCommitsAtMostOnce | fixtures/customer-gate-1/src/action-endpoint.ts:537-634 | in every run an identity's effect commits at most once, and in every run its successes agree, exactly when its action is not export creation or the import dry run, whose handler runs again on a replay |
| ActionIdempotency.ReplayRunsAgain | modules/sales/src/server.ts:567-583 | the run that shows it: the same request twice commits two effects and answers with different data |
| ActionIdempotency.GuardedReplayFails | modules/sales/src/server.ts:567-583 | a replay of import commit or cancel, export cancel or merge, which its guard refuses, fails and commits nothing |
| ActionIdempotency.StepKeeps | fixtures/customer-gate-1/src/action-endpoint.ts:537-634 | every interleaving of requests keeps rows, effects and answers consistent; committed rows never change |
| ActionIdempotency.CommittedMeansSucceeded | fixtures/customer-gate-1/src/action-endpoint.ts:59-73 | an identity has an effect exactly when its row is committed, and every committed row is succeeded |
| ActionIdempotency.SuccessesShareTheirInput | fixtures/customer-gate-1/src/action-endpoint.ts:64 | all successes of an identity carry the same request digest |
| ActionEndpoint.Transaction.ReserveRow | fixtures/customer-gate-1/src/action-endpoint.ts:59-69 | insert or read the reservation, refuse another digest, note the data of a finished one |
| ActionEndpoint.Transaction.CompleteRow | fixtures/customer-gate-1/src/action-endpoint.ts:70-73 | only the pending row of the same digest can be finished |
| ActionEndpoint.Endpoint.Handle | fixtures/customer-gate-1/src/action-endpoint.ts:595-620 | one request, whatever its handler comes to, replays included, is the run of its four protocol steps, and answers accordingly |
| ActionEndpoint.RequestsAnswerAsTheyFind | fixtures/customer-gate-1/src/action-endpoint.ts:595-620 | every answer of a request by what it finds: it waits only for an open request of its own identity, other input conflicts, a failing handler leaves nothing, a first run commits, and a repeated one answers with the stored data, fails, or commits again, action by action |
| ActionIdempotency.OtherInputNeverRuns | fixtures/customer-gate-1/src/action-endpoint.ts:64 | after a commit a request with another digest never runs: it waits, conflicts or has failed |
| ActionIdempotency.SuccessExcludesConflict | fixtures/customer-gate-1/src/action-endpoint.ts:64 | no digest both succeeds and conflicts |
| ActionIdempotency.OnlySuccessLeavesATrace | fixtures/customer-gate-1/src/action-endpoint.ts:614-626 | every committed effect belongs to a request that answered with its data, so a failed, conflicting or unfinished request leaves none |

## Left out

- One application and environment at a time; the scoping columns of every query are not modelled.
- Text, number and date syntax of payload fields, fences, headers and evidence: one flag or an opaque payload stands for them.
- `updated_at`, `terminal_at`, `created_at`, retention dates and expiry purges, which no modelled branch reads.
- Hashing, HMAC, UUIDs, canonical JSON and base64: digests are values, cursors are decoded members.
- Waiting for row locks: `SKIP LOCKED` is a set or a list of visible rows, and an idempotency row is held until its transaction ends.
- Workflow tasks, notifications and reminders keep only key, kind, target, recipient and due time.
- Deletion or rewriting of outbox events under the engine's own ids by others, and deletion of activities.
- The limit of seven active report schedules.
- Provider operation ids: an operation is named by its idempotency digest; merges leave the related record of a queued operation as it was.
- A clock tie between a read and its timer: a read that takes as long as the timer counts as timed out.
- Import value validation, duplicate matching and permission checks: their verdicts are parameters.
- Output schemas of actions: a stored result always parses again.
- Cursors.AcceptedCursors: does not model JSON text, because a cursor is taken after decoding.
- CalendarRange.ZonedMidnight: does not model the century shift of `Date.UTC` for the years 0 to 99.
- WeeklySlots.FirstSlotIsASlot: states it for a fixed UTC offset, because time-zone rules are not modelled.
- WeeklySlots.FirstSlotIsLeast: states it for a fixed UTC offset, because time-zone rules are not modelled.
- WeeklySlots.NextSlotIsLeast: states it for a fixed UTC offset, because time-zone rules are not modelled.
- SavedView.Compile: does not model key sets, source binding, presentation and byte size, which one flag stands for.
- Pipeline.Validate: does not model key sets, names and revisions of a stage, which one flag stands for.
- ReportSlots.NoSlotIsSkipped: states it for a fixed UTC offset; daylight-saving shifts of a slot are not modelled.
- Export execution and webhook replay: further state machines of the same shape.
- Task aging buckets, conversion rates and forecast sums of the reports, which are single queries.
- Loading and revalidating saved views, pages and descriptors, user interface, boot and readiness files.
