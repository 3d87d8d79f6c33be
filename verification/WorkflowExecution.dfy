/** The effect transaction: at most one effect per key, and a worker whose claim moved changes nothing. */
module WorkflowExecution {
  import opened Wrappers
  import opened Fencing
  import opened WorkflowModel
  import opened WorkflowTransactions
  import opened WorkflowInvariants
  import opened WorkflowClaims
  import opened WorkflowIngestion

  /** A running row of a sound table, as the effect transaction reads it. */
  ghost predicate RunningRow(db: Db, row: Execution) {
    row.id in db.executions && db.executions[row.id] == row && row.state == Running
  }

  ghost predicate EffectCreated(before: Db, after: Db, row: Execution, at: int) {
    && Recheck(before.world, row).None?
    && row.key !in before.effectReceipts
    && DomainId(row.trigger.workflow, row.key) !in before.outbox
    && after == before.(effectReceipts := before.effectReceipts[row.key := row.id],
                        effects := before.effects + [EffectOf(row)],
                        outbox := before.outbox[DomainId(row.trigger.workflow, row.key) := DomainEnvelope(row, at)])
  }

  /** A running row has no receipt yet, so only a foreign domain event can stop its effect. */
  lemma EffectShape(db: Db, row: Execution, at: int)
    requires Sound(db) && RunningRow(db, row)
    ensures var tx := CreateEffect(db, row, at);
            match tx.outcome
            case Done(failure) =>
              failure == Recheck(db.world, row) && (if failure.Some? then tx.db == db else EffectCreated(db, tx.db, row, at))
            case Collision => DomainId(row.trigger.workflow, row.key) in db.outbox && Recheck(db.world, row).None?
            case _ => false
  {
    hide HistorySound, EffectRecords;
    RunningHasNoReceipt(db, row);
  }

  lemma RunningHasNoReceipt(db: Db, row: Execution)
    requires Sound(db) && RunningRow(db, row)
    ensures row.key !in db.effectReceipts && row.id !in db.effectReceipts.Values
  {
    hide EffectRecords, HistorySound;
    if row.key in db.effectReceipts {
      KeysAreDistinct(db, db.effectReceipts[row.key], row.id);
    }
    forall k <- db.effectReceipts ensures db.effectReceipts[k] != row.id {}
  }

  lemma EffectKeepsHistory(db: Db, after: Db, row: Execution, at: int)
    requires HistorySound(db) && EffectCreated(db, after, row, at)
    ensures HistorySound(after)
  {
    hide Recheck, EffectOf, DomainEnvelope, RowSound, LedgerExact, ReceiptsExact;
    forall id <- after.executions ensures RowSound(after, id) {
      RowFrame(db, after, id);
    }
    assert LedgerExact(after) by { LedgerFrame(db, after); }
    assert ReceiptsExact(after) by { ReceiptsFrame(db, after); }
  }

  lemma LedgerFrame(db: Db, after: Db)
    requires LedgerExact(db) && after.ledger == db.ledger && after.executions == db.executions
    ensures LedgerExact(after)
  {
  }

  lemma ReceiptsFrame(db: Db, after: Db)
    requires ReceiptsExact(db) && after.triggerReceipts == db.triggerReceipts && after.executions == db.executions
    ensures ReceiptsExact(after)
  {
  }

  /** The receipt, the record and the succeeded row together keep the effect tables exact. */
  lemma SucceededIsExact(db: Db, mid: Db, after: Db, row: Execution, next: Execution, at: int)
    requires Sound(db) && RunningRow(db, row) && EffectCreated(db, mid, row, at)
    requires next.state == Succeeded && next.key == row.key && next.trigger == row.trigger
    requires after == mid.(executions := mid.executions[row.id := next], ledger := after.ledger, outbox := after.outbox)
    ensures EffectsExact(after)
  {
    hide HistorySound, RowSound, Recheck;
    RunningHasNoReceipt(db, row);
    SucceededReceipts(db, after, row, next);
    SucceededRecords(db, after, row, next);
  }

  lemma SucceededReceipts(db: Db, after: Db, row: Execution, next: Execution)
    requires Sound(db) && RunningRow(db, row) && row.key !in db.effectReceipts
    requires next.state == Succeeded && next.key == row.key
    requires after.executions == db.executions[row.id := next] && after.effectReceipts == db.effectReceipts[row.key := row.id]
    ensures forall k <- after.effectReceipts ::
              var id := after.effectReceipts[k];
              id in after.executions && after.executions[id].key == k && after.executions[id].state == Succeeded
    ensures forall id <- after.executions :: after.executions[id].state == Succeeded ==>
              after.executions[id].key in after.effectReceipts && after.effectReceipts[after.executions[id].key] == id
  {
    hide EffectRecords;
    forall id <- db.executions | id != row.id ensures db.executions[id].key != row.key {
      KeysAreDistinct(db, id, row.id);
    }
  }

  lemma SucceededRecords(db: Db, after: Db, row: Execution, next: Execution)
    requires EffectsExact(db) && RunningRow(db, row) && row.key !in db.effectReceipts
    requires next.key == row.key && next.trigger == row.trigger
    requires after.executions == db.executions[row.id := next] && after.effectReceipts == db.effectReceipts[row.key := row.id]
    requires after.effects == db.effects + [EffectOf(row)]
    ensures EffectRecords(after)
  {
    RecordsStayMatched(db, after, row, next);
    RecordsStayComplete(db, after, row);
  }

  /** Every record is the one its execution owes, and no two share a key. */
  lemma RecordsStayMatched(db: Db, after: Db, row: Execution, next: Execution)
    requires EffectsExact(db) && RunningRow(db, row) && row.key !in db.effectReceipts
    requires next.key == row.key && next.trigger == row.trigger
    requires after.executions == db.executions[row.id := next] && after.effectReceipts == db.effectReceipts[row.key := row.id]
    requires after.effects == db.effects + [EffectOf(row)]
    ensures forall i | 0 <= i < |after.effects| ::
              after.effects[i].key in after.effectReceipts && after.effectReceipts[after.effects[i].key] in after.executions &&
              after.effects[i] == EffectOf(after.executions[after.effectReceipts[after.effects[i].key]])
    ensures forall i, j | 0 <= i < j < |after.effects| :: after.effects[i].key != after.effects[j].key
  {
    assert EffectOf(next) == EffectOf(row) && EffectOf(row).key == row.key;
    hide EffectOf;
    forall i | 0 <= i < |db.effects| ensures db.effects[i].key in db.effectReceipts && db.effects[i].key != row.key {}
  }

  /** Every receipt has its record. */
  lemma RecordsStayComplete(db: Db, after: Db, row: Execution)
    requires EffectRecords(db) && after.effectReceipts == db.effectReceipts[row.key := row.id]
    requires after.effects == db.effects + [EffectOf(row)]
    ensures forall k <- after.effectReceipts :: exists i :: 0 <= i < |after.effects| && after.effects[i].key == k
  {
    var n := |db.effects|;
    forall k <- after.effectReceipts ensures exists i :: 0 <= i <= n && after.effects[i].key == k {
      if k != row.key {
        var i :| 0 <= i < n && db.effects[i].key == k;
        assert after.effects[i].key == k;
      } else {
        assert after.effects[n].key == k;
      }
    }
  }

  /** What a committed execution did: either the effect and the success, or a dead letter with the recheck's code. */
  ghost predicate Finished(db: Db, after: Db, row: Execution) {
    && Sound(after) && TablesEvolve(db, after)
    && row.id in after.executions
    && (forall other: nat :: other != row.id ==> SameRow(db, after, other))
    && var end := after.executions[row.id];
    && end.revision == row.revision + 1 && end.attempt == row.attempt && end.failure == Recheck(db.world, row)
    && match Recheck(db.world, row)
       case None => end.state == Succeeded && after.effects == db.effects + [EffectOf(row)] &&
                    after.effectReceipts == db.effectReceipts[row.key := row.id]
       case Some(_) => end.state == DeadLetter && after.effects == db.effects && after.effectReceipts == db.effectReceipts
  }

  lemma FinishWithEffect(db: Db, mid: Db, row: Execution, clock: Clock)
    requires Sound(db) && RunningRow(db, row) && EffectCreated(db, mid, row, clock.at)
    ensures var tx := AppendTransition(mid, row, Running, Succeeded, Options(row.attempt, None, 0, None, None), clock);
            && (tx.outcome.Done? || tx.outcome.TransitionCollision?)
            && (tx.outcome.Done? ==> Finished(db, tx.db, row))
  {
    hide Recheck, EffectOf, DomainEnvelope, EffectsExact;
    var o := Options(row.attempt, None, 0, None, None);
    var tx := AppendTransition(mid, row, Running, Succeeded, o, clock);
    EffectKeepsHistory(db, mid, row, clock.at);
    AppendNeverLosesItsRow(mid, row, Succeeded, o, clock);
    if tx.outcome.Done? {
      RunningMayFinish(mid, row, Succeeded, o);
      FinishedWithEffect(db, mid, tx.db, row, tx.outcome.value, o, clock) by {
        AppendShape(mid, row, Running, Succeeded, o, clock);
        MoveIsSuccessor(mid, row, Succeeded, o, clock);
      }
    }
  }

  lemma RunningMayFinish(db: Db, row: Execution, to: State, o: Options)
    requires HistorySound(db) && RunningRow(db, row) && Terminal(to)
    requires o.attempt == row.attempt && o.fence.None? && (o.eventId.Some? ==> o.eventId == ConflictEvent(row))
    ensures LegalMove(row, to, o)
  {
    assert RowSound(db, row.id);
  }

  lemma FinishedWithEffect(db: Db, mid: Db, after: Db, row: Execution, next: Execution, o: Options, clock: Clock)
    requires Sound(db) && RunningRow(db, row) && EffectCreated(db, mid, row, clock.at) && HistorySound(mid)
    requires o == Options(row.attempt, None, 0, None, None)
    requires var entry := Entry(row, Running, Succeeded, o, clock.at);
             Successor(row, next, entry) && Appended(mid, after, row, next, entry) && (row.id, entry.revision) !in mid.ledger &&
             next == Advanced(row, entry, o, clock.now)
    ensures Finished(db, after, row)
  {
    var entry := Entry(row, Running, Succeeded, o, clock.at);
    AppendedIsSound(mid, after, row, next, entry);
    SucceededIsExact(db, mid, after, row, next, clock.at);
    AppendEvolves(mid, after, row, next, entry);
    AppendedTouchesOneRow(mid, after, row, next, entry);
    hide Sound, HistorySound, EffectsExact, TablesEvolve, SameRow, Recheck, EffectOf, DomainEnvelope, TransitionEnvelope;
    assert Sound(after) by { SoundFromParts(after); }
    EffectEvolves(db, mid, row, clock.at);
    EvolvesTrans(db, mid, after);
    SameThrough(db, mid, after, row.id);
    assert after.executions[row.id] == next;
  }

  lemma SoundFromParts(db: Db)
    requires HistorySound(db) && EffectsExact(db)
    ensures Sound(db)
  {
  }

  lemma EffectEvolves(db: Db, mid: Db, row: Execution, at: int)
    requires EffectCreated(db, mid, row, at)
    ensures TablesEvolve(db, mid)
  {
    hide Recheck, EffectOf, DomainEnvelope;
  }

  lemma SameThrough(a: Db, b: Db, c: Db, id: nat)
    requires a.executions == b.executions && a.ledger == b.ledger
    requires forall other: nat :: other != id ==> SameRow(b, c, other)
    ensures forall other: nat :: other != id ==> SameRow(a, c, other)
  {
    forall other: nat | other != id ensures SameRow(a, c, other) {
      assert SameRow(b, c, other);
    }
  }

  lemma SoundHistory(db: Db)
    requires Sound(db)
    ensures HistorySound(db)
  {
  }

  lemma FinishWithFailure(db: Db, row: Execution, clock: Clock)
    requires Sound(db) && RunningRow(db, row) && Recheck(db.world, row).Some?
    ensures var tx := AppendTransition(db, row, Running, DeadLetter,
                        Options(row.attempt, Recheck(db.world, row), 0, None, None), clock);
            && (tx.outcome.Done? || tx.outcome.TransitionCollision?)
            && (tx.outcome.Done? ==> Finished(db, tx.db, row))
  {
    hide Recheck, Sound, TablesEvolve, SameRow;
    var o := Options(row.attempt, Recheck(db.world, row), 0, None, None);
    assert HistorySound(db) by { SoundHistory(db); }
    hide HistorySound;
    RunningMayFinish(db, row, DeadLetter, o);
    AppendNeverLosesItsRow(db, row, DeadLetter, o, clock);
    AppendShape(db, row, Running, DeadLetter, o, clock);
    var tx := AppendTransition(db, row, Running, DeadLetter, o, clock);
    if tx.outcome.Done? {
      OneAppendIsIsolated(db, row, DeadLetter, o, clock);
    }
  }

  /**
   The whole effect transaction: a stale worker changes nothing, a collision is rolled back without a trace, and
   otherwise the row is finished together with at most one effect.
   */
  lemma ExecuteIsAtomic(db: Db, row: Execution, fence: Fence, clock: Clock)
    requires Sound(db)
    ensures var tx := ExecuteOne(db, row, fence, clock);
            match tx.outcome
            case Done(Stale) => !MayExecute(db, row, fence, clock.now) && tx.db == db
            case Done(Executed) => MayExecute(db, row, fence, clock.now) && Finished(db, tx.db, db.executions[row.id])
            case Failed => false
            case _ => MayExecute(db, row, fence, clock.now) && tx.db == db
  {
    hide EffectsExact, HistorySound, Recheck, CreateEffect, AppendTransition, Finished, RowSound;
    if MayExecute(db, row, fence, clock.now) {
      var current := db.executions[row.id];
      StoredRow(db, row.id);
      EffectShape(db, current, clock.at);
      var effect := CreateEffect(db, current, clock.at);
      if effect.outcome == Done(None) {
        FinishWithEffect(db, effect.db, current, clock);
        ExecuteRollsBack(db, row, fence, clock);
      } else if effect.outcome.Done? {
        FinishWithFailure(db, current, clock);
        ExecuteRollsBack(db, row, fence, clock);
      } else {
        ExecuteRollsBack(db, row, fence, clock);
      }
    }
  }

  lemma StoredRow(db: Db, id: nat)
    requires HistorySound(db) && id in db.executions
    ensures RowSound(db, id) && db.executions[id].id == id
  {
  }

  /** No write of the effect transaction survives its rollback. */
  lemma ExecuteRollsBack(db: Db, row: Execution, fence: Fence, clock: Clock)
    ensures Rollback(db, ExecuteWrites(db, row, fence, clock).db) == db
  {
    hide Recheck, EffectOf, DomainEnvelope, Entry, Advanced, TransitionEnvelope;
    if MayExecute(db, row, fence, clock.now) {
      var current := db.executions[row.id];
      var effect := CreateEffect(db, current, clock.at);
      if effect.outcome.Done? {
        var failure := effect.outcome.value;
        AppendRollsBack(effect.db, current, Running, if failure.None? then Succeeded else DeadLetter,
          Options(current.attempt, failure, 0, None, None), clock);
      }
    }
  }

  /** What recording a failure does to the row a live worker still holds. */
  ghost predicate FailureRecorded(db: Db, after: Db, row: Execution, code: FailureCode, terminalize: bool, now: int) {
    && Isolated(db, after, row.id) && row.id in after.executions
    && after.effects == db.effects
    && var end := after.executions[row.id];
    && end.revision == row.revision + 1 && end.attempt == row.attempt && end.worker.None?
    && if terminalize then end.state == DeadLetter && end.failure == Some(IdempotencyConflict)
       else if row.attempt >= MAX_ATTEMPTS then
         end.state == DeadLetter && end.failure == Some(if code == IdempotencyConflict then code else RetryExhausted)
       else end.state == Queued && end.failure == Some(code) && end.nextAttemptAt == now + row.attempt * RETRY_STEP_SECONDS * 1000
  }

  lemma FailureIsAtomic(db: Db, row: Execution, fence: Fence, code: FailureCode, terminalize: bool, clock: Clock)
    requires Sound(db)
    ensures var tx := RecordFailure(db, row, fence, code, terminalize, clock);
            if LockLive(db, fence, clock.now) && ClaimHeld(db, row, fence) && tx.outcome.Done? then
              FailureRecorded(db, tx.db, db.executions[row.id], code, terminalize, clock.now)
            else tx.db == db && (tx.outcome.Done? || tx.outcome.TransitionCollision?)
  {
    hide EffectsExact, HistorySound, AppendTransition, RowSound, Isolated;
    if LockLive(db, fence, clock.now) && ClaimHeld(db, row, fence) {
      var current := db.executions[row.id];
      StoredRow(db, row.id);
      var to, o := FailureTarget(current, terminalize), FailureOptions(current, code, terminalize);
      FailureIsLegal(db, current, code, terminalize);
      AppendNeverLosesItsRow(db, current, to, o, clock);
      AppendRollsBack(db, current, Running, to, o, clock);
      if AppendTransition(db, current, Running, to, o, clock).outcome.Done? {
        OneAppendIsIsolated(db, current, to, o, clock);
        AppendedIsRecorded(db, current, code, terminalize, clock);
      }
    }
  }

  function FailureTarget(row: Execution, terminalize: bool): State {
    if terminalize || row.attempt >= MAX_ATTEMPTS then DeadLetter else Queued
  }

  function FailureOptions(row: Execution, code: FailureCode, terminalize: bool): Options {
    if terminalize then DeadLetterOptions(row, IdempotencyConflict, ConflictEvent(row))
    else if row.attempt >= MAX_ATTEMPTS then
      DeadLetterOptions(row, if code == IdempotencyConflict then code else RetryExhausted, None)
    else Options(row.attempt, Some(code), row.attempt * RETRY_STEP_SECONDS, None, None)
  }

  lemma FailureIsLegal(db: Db, row: Execution, code: FailureCode, terminalize: bool)
    requires HistorySound(db) && RunningRow(db, row)
    ensures LegalMove(row, FailureTarget(row, terminalize), FailureOptions(row, code, terminalize))
  {
    assert RowSound(db, row.id);
  }

  lemma AppendedIsRecorded(db: Db, row: Execution, code: FailureCode, terminalize: bool, clock: Clock)
    requires Sound(db) && RunningRow(db, row)
    requires AppendTransition(db, row, Running, FailureTarget(row, terminalize), FailureOptions(row, code, terminalize), clock).outcome.Done?
    ensures FailureRecorded(db,
              AppendTransition(db, row, Running, FailureTarget(row, terminalize), FailureOptions(row, code, terminalize), clock).db,
              row, code, terminalize, clock.now)
  {
    var to, o := FailureTarget(row, terminalize), FailureOptions(row, code, terminalize);
    FailureIsLegal(db, row, code, terminalize);
    OneAppendIsIsolated(db, row, to, o, clock);
    hide Sound, TablesEvolve, SameRow;
    AppendShape(db, row, Running, to, o, clock);
  }

  /** A claim is void once its row has moved at all: same row id, any later tables, any fence. */
  lemma MovedClaimIsStale(then_: Db, now_: Db, row: Execution, fence: Fence)
    requires Sound(then_) && Sound(now_) && TablesEvolve(then_, now_)
    requires row.id in then_.executions && then_.executions[row.id] == row
    requires now_.executions[row.id] != row
    ensures !ClaimHeld(now_, row, fence)
  {
    hide EffectsExact;
    assert RowSound(then_, row.id) && RowSound(now_, row.id);
    assert Evolves(row, now_.executions[row.id]);
  }
}
