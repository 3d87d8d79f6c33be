/**
 What the effect transaction decides, on the fields of the rows and business records it reads: which records must still
 match, which code the first mismatch gives, and which record is created otherwise.
 */
module WorkflowEffects {
  import opened Wrappers
  import opened Fencing
  import opened WorkflowModel
  import opened WorkflowTransactions
  import opened WorkflowInvariants
  import opened WorkflowClaims
  import opened WorkflowBatches
  import opened WorkflowIngestion
  import opened WorkflowExecution
  import opened WorkflowSafety

  /** The worker's fence is live, and the stored row carries exactly the claim it was handed, on a lease that still runs. */
  ghost predicate OnLiveClaim(db: Db, row: Execution, fence: Fence, now: int) {
    && db.live.Some? && db.live.value.fence == fence && db.live.value.expiresAt > now
    && row.id in db.executions
    && var stored := db.executions[row.id];
    && stored.state == Running && stored.revision == row.revision && stored.leaseRevision == row.leaseRevision
    && stored.worker == Some(fence) && stored.leaseExpiresAt.Some? && stored.leaseExpiresAt.value > now
  }

  /** Nobody has written under the two event ids the transaction mints. */
  predicate EventsFree(db: Db, stored: Execution) {
    DomainId(stored.trigger.workflow, stored.key) !in db.outbox && TransitionId(stored.id, stored.revision + 1) !in db.outbox
  }

  /** The row ended in `state`, one revision on and released, with its audit entry, ledger row and event; no other row changed. */
  ghost predicate Ended(db: Db, after: Db, stored: Execution, state: State, failure: Option<FailureCode>, at: int) {
    && stored.id in after.executions
    && var end, revision := after.executions[stored.id], stored.revision + 1;
    && end.state == state && end.failure == failure && end.revision == revision && end.attempt == stored.attempt
    && end.worker.None? && end.leaseExpiresAt.None?
    && var key := TransitionKey(stored.id, revision);
    && var entry := AuditEntry(At(Running), state, revision, stored.attempt, at, key, failure);
    && end.audit == stored.audit + [entry] && after.ledger == db.ledger[(stored.id, revision) := entry]
    && TransitionId(stored.id, revision) in after.outbox
    && after.outbox[TransitionId(stored.id, revision)] ==
         Envelope(ExecutionChanged, DurableIntegration, at, stored.trigger.actorId, true,
                  TransitionPayload(stored.id, state, revision, key, failure))
    && after.executions == db.executions[stored.id := end]
  }

  /** One record with exactly these fields, one receipt and one domain event; the row succeeded. */
  ghost predicate Created(db: Db, after: Db, stored: Execution, recipient: string, dueAt: Option<int>, at: int) {
    && Ended(db, after, stored, Succeeded, None, at)
    && after.effects == db.effects + [DomainEffect(stored.key, stored.trigger.workflow, stored.trigger.targetId, recipient, dueAt)]
    && after.effectReceipts == db.effectReceipts[stored.key := stored.id]
    && DomainId(stored.trigger.workflow, stored.key) in after.outbox
    && after.outbox[DomainId(stored.trigger.workflow, stored.key)] ==
         Envelope(DomainChanged(stored.trigger.workflow), DurableIntegration, at, stored.trigger.actorId, true,
                  DomainPayload(stored.key, stored.id))
  }

  /** No record, no receipt, no domain event; the row is dead with this code. */
  ghost predicate Refused(db: Db, after: Db, stored: Execution, code: FailureCode, at: int) {
    && Ended(db, after, stored, DeadLetter, Some(code), at)
    && after.effects == db.effects && after.effectReceipts == db.effectReceipts
    && DomainId(stored.trigger.workflow, stored.key) !in after.outbox
  }

  lemma LiveClaimMayExecute(db: Db, row: Execution, fence: Fence, now: int)
    requires Sound(db)
    ensures MayExecute(db, row, fence, now) <==> OnLiveClaim(db, row, fence, now)
  {
    if row.id in db.executions { assert RowSound(db, row.id); }
  }

  lemma LiveClaimIsStored(db: Db, row: Execution, fence: Fence, now: int)
    requires Sound(db) && OnLiveClaim(db, row, fence, now)
    ensures row.id in db.executions && db.executions[row.id].id == row.id
    ensures RunningRow(db, db.executions[row.id]) && db.executions[row.id].state == Running
  {
    StoredRow(db, row.id);
  }

  /** With both event ids free the transaction commits, and its outcome is the recheck's. */
  lemma FreeEventsCommit(db: Db, row: Execution, fence: Fence, clock: Clock)
    requires Sound(db) && OnLiveClaim(db, row, fence, clock.now) && EventsFree(db, db.executions[row.id])
    ensures var stored, tx := db.executions[row.id], ExecuteOne(db, row, fence, clock);
            && tx.outcome == Done(Executed)
            && match Recheck(db.world, stored)
               case None => Created(db, tx.db, stored, EffectOf(stored).recipientId, EffectOf(stored).dueAt, clock.at)
               case Some(code) => Refused(db, tx.db, stored, code, clock.at)
  {
    hide *;
    LiveClaimIsStored(db, row, fence, clock.now);
    var stored := db.executions[row.id];
    LiveClaimMayExecute(db, row, fence, clock.now);
    SoundHistory(db);
    FreeEventCreates(db, stored, clock.at);
    var failure := Recheck(db.world, stored);
    var mid := CreateEffect(db, stored, clock.at).db;
    var to, o := if failure.None? then Succeeded else DeadLetter, Options(stored.attempt, failure, 0, None, None);
    FreeEventAppends(db, mid, stored, to, o, clock);
    ExecutionIsItsWrites(db, row, fence, clock);
    EndIsDecided(db, mid, AppendTransition(mid, stored, Running, to, o, clock).db, stored, failure, clock.at);
  }

  lemma FreeEventCreates(db: Db, stored: Execution, at: int)
    requires Sound(db) && RunningRow(db, stored) && EventsFree(db, stored)
    ensures var tx, failure := CreateEffect(db, stored, at), Recheck(db.world, stored);
            && tx.outcome == Done(failure)
            && TransitionId(stored.id, stored.revision + 1) !in tx.db.outbox
            && tx.db == db.(effectReceipts := tx.db.effectReceipts, effects := tx.db.effects, outbox := tx.db.outbox)
            && if failure.Some? then tx.db == db && DomainId(stored.trigger.workflow, stored.key) !in tx.db.outbox
               else EffectCreated(db, tx.db, stored, at)
  {
    hide Recheck, EffectOf, DomainEnvelope, Sound;
    RunningHasNoReceipt(db, stored);
  }

  lemma ExecutionIsItsWrites(db: Db, row: Execution, fence: Fence, clock: Clock)
    requires MayExecute(db, row, fence, clock.now)
    requires var stored := db.executions[row.id];
             var effect := CreateEffect(db, stored, clock.at);
             effect.outcome.Done? &&
             AppendTransition(effect.db, stored, Running, if effect.outcome.value.None? then Succeeded else DeadLetter,
               Options(stored.attempt, effect.outcome.value, 0, None, None), clock).outcome.Done?
    ensures var stored := db.executions[row.id];
            var effect := CreateEffect(db, stored, clock.at);
            ExecuteOne(db, row, fence, clock) ==
              Tx(AppendTransition(effect.db, stored, Running, if effect.outcome.value.None? then Succeeded else DeadLetter,
                   Options(stored.attempt, effect.outcome.value, 0, None, None), clock).db, Done(Executed))
  {
    hide AppendTransition, CreateEffect, MayExecute;
  }

  lemma EndIsDecided(db: Db, mid: Db, after: Db, stored: Execution, failure: Option<FailureCode>, at: int)
    requires Ended(db, after, stored, if failure.None? then Succeeded else DeadLetter, failure, at)
    requires after.effects == mid.effects && after.effectReceipts == mid.effectReceipts
    requires forall id <- after.outbox :: id.DomainId? ==> id in mid.outbox && after.outbox[id] == mid.outbox[id]
    requires forall id <- mid.outbox :: id in after.outbox
    requires if failure.Some? then mid == db && DomainId(stored.trigger.workflow, stored.key) !in mid.outbox
             else EffectCreated(db, mid, stored, at)
    ensures match failure
            case None => Created(db, after, stored, EffectOf(stored).recipientId, EffectOf(stored).dueAt, at)
            case Some(code) => Refused(db, after, stored, code, at)
  {
    hide Ended, Recheck;
  }

  /** A transition whose ledger row and event id are free is written, released and published. */
  lemma FreeEventAppends(db: Db, mid: Db, row: Execution, to: State, o: Options, clock: Clock)
    requires HistorySound(db) && row.id in db.executions && db.executions[row.id] == row && row.state == Running
    requires mid == db.(effectReceipts := mid.effectReceipts, effects := mid.effects, outbox := mid.outbox)
    requires TransitionId(row.id, row.revision + 1) !in mid.outbox && to != Running && o.eventId.None? && o.attempt == row.attempt
    ensures var tx := AppendTransition(mid, row, Running, to, o, clock);
            && tx.outcome.Done? && Ended(db, tx.db, row, to, o.failure, clock.at)
            && tx.db.effects == mid.effects && tx.db.effectReceipts == mid.effectReceipts
            && tx.db.outbox == mid.outbox[TransitionId(row.id, row.revision + 1) := tx.db.outbox[TransitionId(row.id, row.revision + 1)]]
  {
    UntakenRevision(db, row);
    hide HistorySound, Ended, TransitionEnvelope;
    var entry := Entry(row, Running, to, o, clock.at);
    FreeEventWrites(mid, row, to, o, clock);
    var tx := AppendTransition(mid, row, Running, to, o, clock);
    hide AppendTransition, Entry;
    WrittenEnds(db, mid, tx.db, row, entry, o, clock.now);
  }

  lemma FreeEventWrites(mid: Db, row: Execution, to: State, o: Options, clock: Clock)
    requires row.id in mid.executions && mid.executions[row.id] == row && row.state == Running && |row.audit| == row.revision
    requires (row.id, row.revision + 1) !in mid.ledger && TransitionId(row.id, row.revision + 1) !in mid.outbox && o.eventId.None?
    ensures var entry := Entry(row, Running, to, o, clock.at);
            var next := Advanced(row, entry, o, clock.now);
            AppendTransition(mid, row, Running, to, o, clock) ==
              Tx(mid.(executions := mid.executions[row.id := next],
                      ledger := mid.ledger[(row.id, row.revision + 1) := entry],
                      outbox := mid.outbox[TransitionId(row.id, row.revision + 1) := TransitionEnvelope(next, entry)]), Done(next))
  {
    hide TransitionEnvelope;
  }

  lemma WrittenEnds(db: Db, mid: Db, after: Db, row: Execution, entry: AuditEntry, o: Options, now: int)
    requires row.id in db.executions && mid.executions == db.executions
    requires entry == AuditEntry(At(Running), entry.to, row.revision + 1, row.attempt, entry.occurredAt,
                                 TransitionKey(row.id, row.revision + 1), o.failure)
    requires entry.to != Running && o.attempt == row.attempt && after.ledger == db.ledger[(row.id, row.revision + 1) := entry]
    requires after.executions == mid.executions[row.id := Advanced(row, entry, o, now)]
    requires after.outbox == mid.outbox[TransitionId(row.id, row.revision + 1) := TransitionEnvelope(Advanced(row, entry, o, now), entry)]
    ensures Ended(db, after, row, entry.to, o.failure, entry.occurredAt)
  {
  }

  /**
   A follow-up task needs both authority revisions, its actor's scope, and its opportunity exactly as they were when the
   trigger was accepted; the checks are made in this order.
   */
  lemma TaskNeedsItsRecords(db: Db, row: Execution, fence: Fence, clock: Clock)
    requires Sound(db) && OnLiveClaim(db, row, fence, clock.now) && EventsFree(db, db.executions[row.id])
    requires db.executions[row.id].trigger.workflow == Task
    ensures var stored, w, after := db.executions[row.id], db.world, ExecuteOne(db, row, fence, clock).db;
            var t := stored.trigger;
            if w.authorizationRevision != t.authorizationRevision || w.lifecycleRevision != t.lifecycleRevision then
              Refused(db, after, stored, AuthRecheckFailed, clock.at)
            else if t.actorId !in w.scopes || !w.scopes[t.actorId].active || !w.scopes[t.actorId].mutationAllowed ||
                    w.scopes[t.actorId].revision != t.scopeRevision then
              Refused(db, after, stored, ScopeRecheckFailed, clock.at)
            else if t.targetId !in w.opportunities || w.opportunities[t.targetId].revision != t.targetRevision ||
                    w.opportunities[t.targetId].ownerId != t.ownerId || !w.opportunities[t.targetId].active ||
                    !w.opportunities[t.targetId].inActiveProposalStage then
              Refused(db, after, stored, TargetMissing, clock.at)
            else Created(db, after, stored, t.ownerId, None, clock.at)
  {
    hide ExecuteOne, Sound, OnLiveClaim, EventsFree, Created, Refused;
    assert row.id in db.executions by { LiveClaimIsStored(db, row, fence, clock.now); }
    FreeEventsCommit(db, row, fence, clock);
  }

  /** A notification needs its lead active, at the accepted revision and with the accepted owner, and nothing else. */
  lemma NotificationNeedsItsLead(db: Db, row: Execution, fence: Fence, clock: Clock)
    requires Sound(db) && OnLiveClaim(db, row, fence, clock.now) && EventsFree(db, db.executions[row.id])
    requires db.executions[row.id].trigger.workflow == Notification
    ensures var stored, w, after := db.executions[row.id], db.world, ExecuteOne(db, row, fence, clock).db;
            var t := stored.trigger;
            if t.targetId !in w.leads || w.leads[t.targetId].revision != t.targetRevision ||
               w.leads[t.targetId].ownerId != t.ownerId || !w.leads[t.targetId].active then
              Refused(db, after, stored, TargetMissing, clock.at)
            else Created(db, after, stored, t.recipientId, None, clock.at)
  {
    hide ExecuteOne, Sound, OnLiveClaim, EventsFree, Created, Refused;
    assert row.id in db.executions by { LiveClaimIsStored(db, row, fence, clock.now); }
    FreeEventsCommit(db, row, fence, clock);
  }

  /**
   A reminder needs its activity scheduled, by its actor, for the accepted time and at the accepted revision; it is due
   15 minutes before that time, but never before the trigger was accepted.
   */
  lemma ReminderNeedsItsActivity(db: Db, row: Execution, fence: Fence, clock: Clock)
    requires Sound(db) && OnLiveClaim(db, row, fence, clock.now) && EventsFree(db, db.executions[row.id])
    requires db.executions[row.id].trigger.workflow == Reminder
    ensures var stored, w, after := db.executions[row.id], db.world, ExecuteOne(db, row, fence, clock).db;
            var t := stored.trigger;
            if t.scheduledAt.None? || t.targetId !in w.activities || !w.activities[t.targetId].scheduled ||
               w.activities[t.targetId].revision != t.targetRevision || w.activities[t.targetId].actorId != t.actorId ||
               w.activities[t.targetId].scheduledAt != t.scheduledAt.value then
              Refused(db, after, stored, TargetMissing, clock.at)
            else
              exists due: int :: Created(db, after, stored, t.recipientId, Some(due), clock.at) &&
                due >= t.acceptedAt && due >= t.scheduledAt.value - 900_000 &&
                (due == t.acceptedAt || due == t.scheduledAt.value - 900_000)
  {
    hide ExecuteOne, Sound, OnLiveClaim, EventsFree, Created, Refused;
    assert row.id in db.executions by { LiveClaimIsStored(db, row, fence, clock.now); }
    FreeEventsCommit(db, row, fence, clock);
  }

  /** The business records still are what the accepted trigger said. */
  ghost predicate RecordsMatch(w: World, t: Trigger) {
    match t.workflow
    case Task =>
      && w.authorizationRevision == t.authorizationRevision && w.lifecycleRevision == t.lifecycleRevision
      && t.actorId in w.scopes && w.scopes[t.actorId].active && w.scopes[t.actorId].mutationAllowed
      && w.scopes[t.actorId].revision == t.scopeRevision
      && t.targetId in w.opportunities && w.opportunities[t.targetId].revision == t.targetRevision
      && w.opportunities[t.targetId].ownerId == t.ownerId && w.opportunities[t.targetId].active
      && w.opportunities[t.targetId].inActiveProposalStage
    case Notification =>
      && t.targetId in w.leads && w.leads[t.targetId].revision == t.targetRevision
      && w.leads[t.targetId].ownerId == t.ownerId && w.leads[t.targetId].active
    case Reminder =>
      && t.targetId in w.activities && w.activities[t.targetId].scheduled
      && w.activities[t.targetId].revision == t.targetRevision && w.activities[t.targetId].actorId == t.actorId
      && t.scheduledAt == Some(w.activities[t.targetId].scheduledAt)
  }

  /**
   Whoever holds which event ids, a transaction changes something only on a live claim, and creates a record only when the
   business records still match.
   */
  lemma OnlyMatchingRecordsGetTheirEffect(db: Db, row: Execution, fence: Fence, clock: Clock)
    requires Sound(db)
    ensures var tx := ExecuteOne(db, row, fence, clock);
            && (tx.outcome == Done(Stale) <==> !OnLiveClaim(db, row, fence, clock.now))
            && (!OnLiveClaim(db, row, fence, clock.now) ==> tx.db == db)
            && (tx.db.effects != db.effects || tx.db.effectReceipts != db.effectReceipts ==>
                  RecordsMatch(db.world, db.executions[row.id].trigger))
  {
    hide ExecuteOne, Sound, TablesEvolve, SameRow, LockLive, ClaimHeld, Recheck, RecordsMatch, EffectOf;
    LiveClaimMayExecute(db, row, fence, clock.now);
    ExecuteIsAtomic(db, row, fence, clock);
    var tx := ExecuteOne(db, row, fence, clock);
    if tx.outcome == Done(Executed) {
      RecheckMatchesRecords(db.world, db.executions[row.id]);
    }
  }

  lemma RecheckMatchesRecords(w: World, row: Execution)
    ensures Recheck(w, row).None? <==> RecordsMatch(w, row.trigger)
  {
  }

  // ---------- whole runs ----------

  /** The record an execution owes: a task for the owner, the others for the recipient, a reminder 15 minutes early. */
  ghost predicate Owed(e: DomainEffect, stored: Execution) {
    && e.key == stored.key && e.kind == stored.trigger.workflow && e.targetId == stored.trigger.targetId
    && e.recipientId == (if e.kind == Task then stored.trigger.ownerId else stored.trigger.recipientId)
    && (e.dueAt.Some? <==> e.kind == Reminder && stored.trigger.scheduledAt.Some?)
    && (e.dueAt.Some? ==>
          && e.dueAt.value >= stored.trigger.acceptedAt && e.dueAt.value >= stored.trigger.scheduledAt.value - 900_000
          && (e.dueAt.value == stored.trigger.acceptedAt || e.dueAt.value == stored.trigger.scheduledAt.value - 900_000))
  }

  /** Step `i` of a run executed a live claim that owed this record, while the business records matched its trigger. */
  ghost predicate JustifiedAt(start: Db, steps: seq<Step>, i: nat, e: DomainEffect) {
    && i < |steps| && steps[i].ExecuteStep?
    && var db, row := Run(start, steps[..i]), steps[i].row;
    && OnLiveClaim(db, row, steps[i].fence, steps[i].clock.now)
    && Owed(e, db.executions[row.id]) && RecordsMatch(db.world, db.executions[row.id].trigger)
  }

  lemma OnlyExecutionsCreate(db: Db, step: Step, e: DomainEffect)
    requires Sound(db) && e in Apply(db, step).effects && e !in db.effects
    ensures step.ExecuteStep? && OnLiveClaim(db, step.row, step.fence, step.clock.now)
    ensures Owed(e, db.executions[step.row.id]) && RecordsMatch(db.world, db.executions[step.row.id].trigger)
  {
    hide *;
    match step
    case IngestStep(fence, visible, clock) => IngestCreatesNothing(db, fence, visible, clock);
    case ClaimStep(fence, locked, clock) => ClaimCreatesNothing(db, fence, locked, clock);
    case FailStep(row, fence, code, terminalize, clock) => FailureCreatesNothing(db, row, fence, code, terminalize, clock);
    case Environment(outbox, world, live) => DisturbanceCreatesNothing(db, outbox, world, live);
    case ExecuteStep(row, fence, clock) => ExecutionCreatesWhatItOwes(db, row, fence, clock, e);
  }

  lemma IngestCreatesNothing(db: Db, fence: Fence, visible: seq<EventId>, clock: Clock)
    requires Sound(db)
    ensures Apply(db, IngestStep(fence, visible, clock)).effects == db.effects
  {
    hide Sound, TablesEvolve, Ingest, SettledFor, SelectTriggers;
    IngestIsAllOrNothing(db, fence, visible, clock);
  }

  lemma ClaimCreatesNothing(db: Db, fence: Fence, locked: set<nat>, clock: Clock)
    requires Sound(db)
    ensures Apply(db, ClaimStep(fence, locked, clock)).effects == db.effects
  {
    hide Sound, TablesEvolve, VisitAll, Fate, SameRow, SelectedRows, ClaimsReturned;
    if LockLive(db, fence, clock.now) {
      SelectionIsVisitable(db, Exhausted, clock.now, locked);
      SelectionIsVisitable(db, Claimable, clock.now, locked);
      var exhausted, candidates := SelectedRows(db, Exhausted, clock.now, locked), SelectedRows(db, Claimable, clock.now, locked);
      var first := VisitAll(db, Exhausted, exhausted, fence, clock).db;
      LaneIsIsolated(db, Exhausted, exhausted, fence, clock);
      LanesDoNotMeet(db, exhausted, candidates, clock.now);
      CandidatesSurvive(db, first, exhausted, candidates, fence, clock.now);
      LaneIsIsolated(first, Claimable, candidates, fence, clock);
    }
  }

  lemma FailureCreatesNothing(db: Db, row: Execution, fence: Fence, code: FailureCode, terminalize: bool, clock: Clock)
    requires Sound(db)
    ensures Apply(db, FailStep(row, fence, code, terminalize, clock)).effects == db.effects
  {
    hide Sound, Isolated, RecordFailure;
    FailureIsAtomic(db, row, fence, code, terminalize, clock);
  }

  lemma DisturbanceCreatesNothing(db: Db, outbox: map<EventId, Envelope>, world: World, live: Option<LiveFence>)
    ensures Apply(db, Environment(outbox, world, live)).effects == db.effects
  {
  }

  lemma ExecutionCreatesWhatItOwes(db: Db, row: Execution, fence: Fence, clock: Clock, e: DomainEffect)
    requires Sound(db) && e in Apply(db, ExecuteStep(row, fence, clock)).effects && e !in db.effects
    ensures OnLiveClaim(db, row, fence, clock.now)
    ensures Owed(e, db.executions[row.id]) && RecordsMatch(db.world, db.executions[row.id].trigger)
  {
    hide ExecuteOne, Sound, TablesEvolve, SameRow, LockLive, ClaimHeld, Recheck, RecordsMatch, EffectOf, Owed;
    ExecuteIsAtomic(db, row, fence, clock);
    OnlyMatchingRecordsGetTheirEffect(db, row, fence, clock);
    assert ExecuteOne(db, row, fence, clock).db.effects == db.effects + [EffectOf(db.executions[row.id])];
    EffectIsOwed(db.executions[row.id]);
  }

  lemma EffectIsOwed(stored: Execution)
    ensures Owed(EffectOf(stored), stored)
  {
  }

  /**
   In every run each created record was created by a step that held a live claim, owed exactly that record, and found the
   business records as the accepted trigger described them.
   */
  lemma {:induction false} EveryRecordWasJustified(start: Db, steps: seq<Step>, e: DomainEffect)
    requires Sound(start) && e !in start.effects && e in Run(start, steps).effects
    ensures exists i: nat :: JustifiedAt(start, steps, i, e)
    decreases |steps|
  {
    hide Sound, Apply, OnLiveClaim, Owed, RecordsMatch;
    var n := |steps| - 1;
    var before := Run(start, steps[..n]);
    RunKeeps(start, steps[..n]);
    if e in before.effects {
      EveryRecordWasJustified(start, steps[..n], e);
      var i: nat :| JustifiedAt(start, steps[..n], i, e);
      assert steps[..n][..i] == steps[..i];
      assert JustifiedAt(start, steps, i, e);
    } else {
      OnlyExecutionsCreate(before, steps[n], e);
      assert JustifiedAt(start, steps, n, e);
    }
  }
}
