/** What becomes of a due row and of a failed one, on the fields of the row, its source event and the live fence. */
module WorkflowDecisions {
  import opened Wrappers
  import opened Fencing
  import opened WorkflowModel
  import opened WorkflowTransactions
  import opened WorkflowInvariants
  import opened WorkflowClaims
  import opened WorkflowBatches
  import opened WorkflowExecution
  import opened WorkflowTriggers

  ghost predicate FenceLives(db: Db, fence: Fence, now: int) {
    db.live.Some? && db.live.value.fence == fence && db.live.value.expiresAt > now
  }

  /** Queued and due, or running on an expired lease. */
  predicate DueRow(row: Execution, now: int) {
    || (row.state == Queued && row.nextAttemptAt <= now)
    || (row.state == Running && row.leaseExpiresAt.Some? && row.leaseExpiresAt.value <= now)
  }

  /** A row that ran three times is exhausted. */
  function LaneFor(row: Execution): Lane { if row.state == Running && row.attempt >= 3 then Exhausted else Claimable }

  /** The source event is still there, as it was when the row was made, and still admissible. */
  predicate SourceIntact(db: Db, row: Execution) {
    && row.source in db.outbox && db.outbox[row.source] == row.sourceDigest
    && Admissible(row.sourceDigest) && row.sourceDigest.payload.trigger == row.trigger
  }

  /** None of the events a visit of this row could publish is there yet. */
  predicate VisitEventsFree(db: Db, row: Execution) {
    && TransitionId(row.id, row.revision + 1) !in db.outbox && TransitionId(row.id, row.revision + 2) !in db.outbox
    && ConflictId(row.id, row.revision + 1) !in db.outbox
  }

  lemma SourceIntactMatches(db: Db, row: Execution)
    requires Sound(db) && row.id in db.executions && db.executions[row.id] == row
    ensures SourceMatches(db, row) <==> SourceIntact(db, row)
  {
    hide EffectsExact, ParseTrigger, Admissible;
    assert RowSound(db, row.id);
    if row.source in db.outbox { ParsedAreAdmissible(db.outbox[row.source]); }
  }

  lemma DueRowsHaveTheirLane(db: Db, row: Execution, now: int)
    requires Sound(db) && row.id in db.executions && db.executions[row.id] == row
    ensures DueRow(row, now) <==> exists lane :: Eligible(lane, row, now)
    ensures DueRow(row, now) ==> Visitable(db, LaneFor(row), row, now)
    ensures forall lane :: Eligible(lane, row, now) ==> lane == LaneFor(row)
  {
    assert RowSound(db, row.id);
    assert DueRow(row, now) ==> Eligible(LaneFor(row), row, now);
  }

  /** A row whose source event is gone or was altered is never claimed, whatever else happens. */
  lemma AlteredSourceIsNeverClaimed(db: Db, row: Execution, fence: Fence, clock: Clock)
    requires Sound(db) && row.id in db.executions && db.executions[row.id] == row && DueRow(row, clock.now)
    requires row.source !in db.outbox || db.outbox[row.source] != row.sourceDigest
    ensures var tx := Visit(db, LaneFor(row), row, fence, clock);
            && tx.outcome == Done(None) && row.id in tx.db.executions
            && (tx.db == db ||
                  (tx.db.executions[row.id].state == DeadLetter && tx.db.executions[row.id].failure == Some(IdempotencyConflict)))
  {
    hide Sound, SourceMatches, Isolated, TerminalizeCollision;
    DueRowsHaveTheirLane(db, row, clock.now);
    SourceIntactMatches(db, row);
    assert !Terminal(row.state);
    TerminalizeIsIsolated(db, row, fence, clock);
  }

  /**
   With its event ids free every due row moves: intact, it is claimed for 30 seconds with one more attempt, or dead after
   its third; altered, it is dead with a conflict.
   */
  lemma DueRowsAreDecided(db: Db, row: Execution, fence: Fence, clock: Clock)
    requires Sound(db) && row.id in db.executions && db.executions[row.id] == row && DueRow(row, clock.now)
    requires FenceLives(db, fence, clock.now) && VisitEventsFree(db, row)
    ensures var tx := Visit(db, LaneFor(row), row, fence, clock);
            && row.id in tx.db.executions
            && var end := tx.db.executions[row.id];
            if !SourceIntact(db, row) then
              tx.outcome == Done(None) && end.state == DeadLetter && end.failure == Some(IdempotencyConflict)
            else if row.state == Running && row.attempt >= 3 then
              tx.outcome == Done(None) && end.state == DeadLetter && end.failure == Some(RetryExhausted) && end.attempt == row.attempt
            else
              && tx.outcome == Done(Some(end)) && end.state == Running && end.worker == Some(fence)
              && end.attempt == row.attempt + 1 && end.revision == row.revision + 1
              && end.leaseRevision == row.leaseRevision + 1 && end.leaseExpiresAt == Some(clock.now + 30_000)
              && end.nextAttemptAt == clock.now && end.failure.None?
  {
    hide Sound, Isolated, Visit, SourceIntact, VisitEventsFree;
    DueRowsHaveTheirLane(db, row, clock.now);
    SourceIntactMatches(db, row);
    VisitIsIsolated(db, LaneFor(row), row, fence, clock);
    if SourceIntact(db, row) {
      IntactRowAdvances(db, row, fence, clock);
    } else {
      AlteredRowDies(db, row, fence, clock);
    }
  }

  lemma IntactRowAdvances(db: Db, row: Execution, fence: Fence, clock: Clock)
    requires Sound(db) && Visitable(db, LaneFor(row), row, clock.now) && SourceMatches(db, row) && VisitEventsFree(db, row)
    ensures var tx := Visit(db, LaneFor(row), row, fence, clock);
            && row.id in tx.db.executions
            && var end := tx.db.executions[row.id];
            if LaneFor(row) == Exhausted then
              tx.outcome == Done(None) && end.state == DeadLetter && end.failure == Some(RetryExhausted) && end.attempt == row.attempt
            else tx.outcome == Done(Some(end)) && ClaimedBy(row, end, fence, clock.now)
  {
    hide Sound, Isolated, SourceMatches;
    var lane := LaneFor(row);
    LaneMoves(db, lane, row, fence, clock);
    FreeEventIsDone(db, row, LaneTarget(lane), LaneOptions(lane, row, fence), clock);
    AppendShape(db, row, row.state, LaneTarget(lane), LaneOptions(lane, row, fence), clock);
    hide AppendTransition;
  }

  lemma AlteredRowDies(db: Db, row: Execution, fence: Fence, clock: Clock)
    requires Sound(db) && Visitable(db, LaneFor(row), row, clock.now) && !SourceMatches(db, row)
    requires FenceLives(db, fence, clock.now) && VisitEventsFree(db, row)
    ensures var tx := Visit(db, LaneFor(row), row, fence, clock);
            && tx.outcome == Done(None) && row.id in tx.db.executions
            && tx.db.executions[row.id].state == DeadLetter && tx.db.executions[row.id].failure == Some(IdempotencyConflict)
  {
    hide Sound, Isolated, SourceMatches, DeadLetterQueued, DeadLetterRunning;
    if row.state == Queued {
      DeadLetterQueuedRecovers(db, row, fence, clock);
      QueuedConflictIsWritten(db, row, fence, clock);
    } else {
      DeadLetterRunningRecovers(db, row, ConflictEvent(row), clock);
      RunningConflictIsWritten(db, row, ConflictEvent(row), clock);
    }
  }

  /** A transition under an event id nobody has taken commits. */
  lemma FreeEventCommits(db: Db, row: Execution, to: State, o: Options, clock: Clock)
    requires HistorySound(db) && row.id in db.executions && db.executions[row.id] == row
    requires EventIdOf(row.id, Entry(row, row.state, to, o, clock.at)) !in db.outbox
    ensures AppendTransition(db, row, row.state, to, o, clock).outcome.Done?
    ensures AppendTransition(db, row, row.state, to, o, clock).db.outbox.Keys ==
            db.outbox.Keys + {EventIdOf(row.id, Entry(row, row.state, to, o, clock.at))}
  {
    UntakenRevision(db, row);
    hide HistorySound, TransitionEnvelope, EventIdOf, Entry, Advanced;
    EntryCountsUp(row, row.state, to, o, clock.at);
    FreeEventIsInserted(db, row, to, o, clock);
  }

  lemma FreeEventIsInserted(db: Db, row: Execution, to: State, o: Options, clock: Clock)
    requires row.id in db.executions && db.executions[row.id] == row && |row.audit| == row.revision
    requires var entry := Entry(row, row.state, to, o, clock.at);
             (row.id, entry.revision) !in db.ledger && EventIdOf(row.id, entry) !in db.outbox
    ensures AppendTransition(db, row, row.state, to, o, clock).outcome.Done?
    ensures AppendTransition(db, row, row.state, to, o, clock).db.outbox.Keys ==
            db.outbox.Keys + {EventIdOf(row.id, Entry(row, row.state, to, o, clock.at))}
  {
    hide TransitionEnvelope, EventIdOf, Entry;
    assert Advanced(row, Entry(row, row.state, to, o, clock.at), o, clock.now).id == row.id;
    hide Advanced;
  }

  lemma EntryCountsUp(row: Execution, from: State, to: State, o: Options, at: int)
    ensures Entry(row, from, to, o, at).revision == row.revision + 1 && Entry(row, from, to, o, at).to == to
    ensures EventIdOf(row.id, Entry(row, from, to, o, at)) ==
            if o.eventId.Some? then o.eventId.value else TransitionId(row.id, row.revision + 1)
  {
  }

  lemma RunningConflictIsWritten(db: Db, row: Execution, eventId: Option<EventId>, clock: Clock)
    requires Sound(db) && row.id in db.executions && db.executions[row.id] == row && row.state == Running
    requires (if eventId.Some? then eventId.value else TransitionId(row.id, row.revision + 1)) !in db.outbox
    ensures DeadLetterRunning(db, row, eventId, clock).outcome.Done?
  {
    SoundHistory(db);
    hide Sound, AppendTransition;
    EntryCountsUp(row, Running, DeadLetter, DeadLetterOptions(row, IdempotencyConflict, eventId), clock.at);
    FreeEventCommits(db, row, DeadLetter, DeadLetterOptions(row, IdempotencyConflict, eventId), clock);
  }

  lemma ConflictClaimIsLegal(db: Db, row: Execution, fence: Fence)
    requires HistorySound(db) && row.id in db.executions && db.executions[row.id] == row && row.state == Queued
    ensures LegalMove(row, Running, ClaimOptions(row, fence, ConflictEvent(row)))
  {
    assert RowSound(db, row.id);
  }

  lemma AdvancedIsNext(row: Execution, entry: AuditEntry, o: Options, now: int)
    ensures var next := Advanced(row, entry, o, now); next.id == row.id && next.state == entry.to && next.revision == entry.revision
  {
  }

  lemma QueuedConflictIsWritten(db: Db, row: Execution, fence: Fence, clock: Clock)
    requires Sound(db) && row.id in db.executions && db.executions[row.id] == row && row.state == Queued
    requires VisitEventsFree(db, row)
    ensures DeadLetterQueued(db, row, fence, clock).outcome.Done?
  {
    hide Sound, AppendTransition, DeadLetterRunning, VisitEventsFree, ClaimOptions;
    ConflictClaimIsStored(db, row, fence, clock);
    var claimed := AppendTransition(db, row, Queued, Running, ClaimOptions(row, fence, ConflictEvent(row)), clock);
    RunningConflictIsWritten(claimed.db, claimed.outcome.value, None, clock);
  }

  /** The claim a conflicting queued row passes through. */
  lemma ConflictClaimIsStored(db: Db, row: Execution, fence: Fence, clock: Clock)
    requires Sound(db) && row.id in db.executions && db.executions[row.id] == row && row.state == Queued
    requires VisitEventsFree(db, row)
    ensures var claimed := AppendTransition(db, row, Queued, Running, ClaimOptions(row, fence, ConflictEvent(row)), clock);
            && claimed.outcome.Done? && Sound(claimed.db)
            && var next := claimed.outcome.value;
            && next.id == row.id && next.state == Running && next.id in claimed.db.executions && claimed.db.executions[next.id] == next
            && TransitionId(next.id, next.revision + 1) !in claimed.db.outbox
  {
    hide *;
    var o := ClaimOptions(row, fence, ConflictEvent(row));
    SoundHistory(db);
    ConflictClaimIsLegal(db, row, fence);
    ConflictEventIsFree(db, row, fence, clock.at);
    FreeEventCommits(db, row, Running, o, clock);
    OneAppendIsIsolated(db, row, Running, o, clock);
    AdvancedIsNext(row, Entry(row, Queued, Running, o, clock.at), o, clock.now);
    IsolatedIsSound(db, AppendTransition(db, row, Queued, Running, o, clock).db, row.id);
  }

  lemma ConflictEventIsFree(db: Db, row: Execution, fence: Fence, at: int)
    requires VisitEventsFree(db, row)
    ensures var entry := Entry(row, Queued, Running, ClaimOptions(row, fence, ConflictEvent(row)), at);
            && entry.revision == row.revision + 1 && entry.to == Running
            && EventIdOf(row.id, entry) == ConflictId(row.id, row.revision + 1) && EventIdOf(row.id, entry) !in db.outbox
    ensures TransitionId(row.id, row.revision + 2) !in db.outbox
  {
  }

  lemma IsolatedIsSound(db: Db, after: Db, id: nat)
    requires Isolated(db, after, id)
    ensures Sound(after)
  {
  }

  /** The stored row still carries the claim the worker was handed; its lease may have run out. */
  ghost predicate ClaimStored(db: Db, row: Execution, fence: Fence) {
    && row.id in db.executions
    && var stored := db.executions[row.id];
    && stored.state == Running && stored.revision == row.revision && stored.leaseRevision == row.leaseRevision
    && stored.worker == Some(fence)
  }

  /**
   A failure is recorded exactly under a live fence and a stored claim, unless its event id is taken.  The row is queued
   again after 15 seconds for each attempt, or dead: after its third, or at once on a transition collision.
   */
  lemma FailureNeedsItsClaim(db: Db, row: Execution, fence: Fence, code: FailureCode, terminalize: bool, clock: Clock)
    requires Sound(db)
    ensures var tx := RecordFailure(db, row, fence, code, terminalize, clock);
            if FenceLives(db, fence, clock.now) && ClaimStored(db, row, fence) && tx.outcome.Done? then
              && row.id in tx.db.executions && tx.db.effects == db.effects
              && var end := tx.db.executions[row.id];
              && end.revision == row.revision + 1 && end.worker.None?
              && if terminalize then end.state == DeadLetter && end.failure == Some(IdempotencyConflict)
                 else if db.executions[row.id].attempt >= 3 then
                   end.state == DeadLetter && end.failure == Some(if code == IdempotencyConflict then IdempotencyConflict else RetryExhausted)
                 else
                   end.state == Queued && end.failure == Some(code) &&
                   end.nextAttemptAt == clock.now + db.executions[row.id].attempt * 15_000
            else tx.db == db
    ensures ClaimStored(db, row, fence) && VisitEventsFree(db, db.executions[row.id]) ==>
              RecordFailure(db, row, fence, code, terminalize, clock).outcome.Done?
  {
    hide Sound, RecordFailure, Isolated, VisitEventsFree;
    FailureIsAtomic(db, row, fence, code, terminalize, clock);
    IdIsKey(db, row.id);
    if ClaimStored(db, row, fence) && VisitEventsFree(db, db.executions[row.id]) {
      FreeFailureCommits(db, row, fence, code, terminalize, clock);
    }
  }

  lemma FreeFailureCommits(db: Db, row: Execution, fence: Fence, code: FailureCode, terminalize: bool, clock: Clock)
    requires Sound(db) && ClaimStored(db, row, fence) && db.executions[row.id].id == row.id
    requires VisitEventsFree(db, db.executions[row.id])
    ensures RecordFailure(db, row, fence, code, terminalize, clock).outcome.Done?
  {
    hide *;
    assert row.id in db.executions by { ClaimIsStored(db, row, fence); }
    var current := db.executions[row.id];
    SoundHistory(db);
    ClaimIsStored(db, row, fence);
    FailureEventIsFree(db, current, code, terminalize, clock.at);
    FreeEventCommits(db, current, FailureTarget(current, terminalize), FailureOptions(current, code, terminalize), clock);
    CommittedFailureIsDone(db, row, fence, code, terminalize, clock);
  }

  lemma ClaimIsStored(db: Db, row: Execution, fence: Fence)
    requires ClaimStored(db, row, fence)
    ensures row.id in db.executions && db.executions[row.id].state == Running
  {
  }

  lemma FailureEventIsFree(db: Db, row: Execution, code: FailureCode, terminalize: bool, at: int)
    requires VisitEventsFree(db, row)
    ensures EventIdOf(row.id, Entry(row, Running, FailureTarget(row, terminalize), FailureOptions(row, code, terminalize), at)) !in db.outbox
  {
  }

  lemma CommittedFailureIsDone(db: Db, row: Execution, fence: Fence, code: FailureCode, terminalize: bool, clock: Clock)
    requires ClaimStored(db, row, fence)
    requires var current := db.executions[row.id];
             AppendTransition(db, current, Running, FailureTarget(current, terminalize), FailureOptions(current, code, terminalize), clock).outcome.Done?
    ensures RecordFailure(db, row, fence, code, terminalize, clock).outcome.Done?
  {
    hide AppendTransition, LockLive;
  }

  predicate MayMove(db: Db, row: Execution, from: State) {
    && row.id in db.executions && db.executions[row.id].state == from
    && db.executions[row.id].revision == row.revision && |db.executions[row.id].audit| == row.revision
  }

  /**
   A transition is a compare-and-set: it needs the stored row in the state it starts from, at the revision the caller read
   and with an audit entry for each revision; otherwise it fails and writes nothing.
   */
  lemma MovesNeedTheRevisionRead(db: Db, row: Execution, from: State, to: State, o: Options, clock: Clock)
    ensures var tx := AppendTransition(db, row, from, to, o, clock);
            && (!MayMove(db, row, from) ==> tx == Tx(db, Failed))
            && (tx.outcome.Failed? ==> tx.db == db)
            && (tx.outcome.Done? ==>
                  && (row.id, row.revision + 1) !in db.ledger && (row.id, row.revision + 1) in tx.db.ledger
                  && row.id in tx.db.executions && tx.db.executions[row.id].revision == row.revision + 1
                  && tx.db.executions[row.id].state == to)
  {
    hide TransitionEnvelope, EventIdOf;
  }

  /** Between two transactions of a worker the business records and the fence may become anything, and so may foreign events. */
  lemma OthersAreUnrestricted(db: Db, outbox: map<EventId, Envelope>, world: World, live: Option<LiveFence>)
    ensures var after := Apply(db, Environment(outbox, world, live));
            && after.world == world && after.live == live
            && (forall k <- outbox :: k in after.outbox && (k !in db.outbox || k.ExternalId? ==> after.outbox[k] == outbox[k]))
            && (forall k <- after.outbox :: k in outbox || (k in db.outbox && !k.ExternalId?))
            && after == db.(outbox := after.outbox, world := world, live := live)
  {
  }
}
