/** Claim batches: collisions are isolated to one row, and every due row is in exactly one lane. */
module WorkflowClaims {
  import opened Wrappers
  import opened Fencing
  import opened WorkflowModel
  import opened WorkflowTransactions
  import opened WorkflowInvariants

  // ---------- evolution of rows and tables ----------

  /** History only grows, and a terminal row never changes. */
  ghost predicate Evolves(a: Execution, b: Execution) {
    && a.id == b.id && a.source == b.source && a.sourceDigest == b.sourceDigest && a.key == b.key && a.trigger == b.trigger
    && a.audit <= b.audit
    && (a == b || |a.audit| < |b.audit|)
    && (Terminal(a.state) ==> a == b)
  }

  /** `b` is a later state of the tables `a`: evidence is never removed or rewritten. */
  ghost predicate TablesEvolve(a: Db, b: Db) {
    && (forall id <- a.executions :: id in b.executions && Evolves(a.executions[id], b.executions[id]))
    && (forall p <- a.ledger :: p in b.ledger && b.ledger[p] == a.ledger[p])
    && (forall s <- a.triggerReceipts :: s in b.triggerReceipts && b.triggerReceipts[s] == a.triggerReceipts[s])
    && (forall k <- a.effectReceipts :: k in b.effectReceipts && b.effectReceipts[k] == a.effectReceipts[k])
    && a.effects <= b.effects
    && EventsKept(a, b)
  }

  lemma EvolvesTrans(a: Db, b: Db, c: Db)
    requires TablesEvolve(a, b) && TablesEvolve(b, c)
    ensures TablesEvolve(a, c)
  {
    forall id <- a.executions ensures id in c.executions && Evolves(a.executions[id], c.executions[id]) {
      assert Evolves(a.executions[id], b.executions[id]) && Evolves(b.executions[id], c.executions[id]);
    }
  }

  lemma AppendEvolves(db: Db, after: Db, row: Execution, next: Execution, entry: AuditEntry)
    requires row.id in db.executions && db.executions[row.id] == row && !Terminal(row.state)
    requires Successor(row, next, entry) && Appended(db, after, row, next, entry)
    requires (row.id, entry.revision) !in db.ledger
    ensures TablesEvolve(db, after)
  {
    assert row.audit <= next.audit;
  }

  /** A row that neither was nor becomes succeeded leaves the effect tables exact. */
  lemma EffectsFrame(db: Db, after: Db, id: nat)
    requires EffectsExact(db) && id in db.executions && id in after.executions
    requires after == db.(executions := after.executions, ledger := after.ledger, outbox := after.outbox)
    requires after.executions == db.executions[id := after.executions[id]]
    requires db.executions[id].state != Succeeded && after.executions[id].state != Succeeded
    ensures EffectsExact(after)
  {
    forall i | 0 <= i < |after.effects|
      ensures after.effects[i].key in after.effectReceipts && after.effectReceipts[after.effects[i].key] in after.executions &&
              after.effects[i] == EffectOf(after.executions[after.effectReceipts[after.effects[i].key]])
    {
      assert db.effects[i].key in db.effectReceipts;
    }
  }

  // ---------- one row of a batch ----------

  predicate DeadLettered(before: Execution, after: Execution, code: FailureCode) {
    after.state == DeadLetter && after.failure == Some(code) && after.worker.None?
  }

  predicate ClaimedBy(before: Execution, after: Execution, fence: Fence, now: int) {
    && after.state == Running && after.worker == Some(fence) && after.failure.None?
    && after.attempt == before.attempt + 1 && after.revision == before.revision + 1
    && after.leaseRevision == before.leaseRevision + 1 && after.leaseExpiresAt == Some(now + LEASE_MILLIS)
    && after.nextAttemptAt == now
  }

  /** The possible fates of a visited row. */
  predicate Fate(lane: Lane, before: Execution, after: Execution, fence: Fence, now: int) {
    || after == before
    || DeadLettered(before, after, IdempotencyConflict)
    || (lane == Exhausted && DeadLettered(before, after, RetryExhausted))
    || (lane == Claimable && ClaimedBy(before, after, fence, now))
  }

  /** What a batch is entitled to assume of a row it selected. */
  ghost predicate Visitable(db: Db, lane: Lane, row: Execution, now: int) {
    row.id in db.executions && db.executions[row.id] == row && Eligible(lane, row, now)
  }

  /** `after` kept everything but row `id`, is sound again, and history only grew. */
  ghost predicate Isolated(db: Db, after: Db, id: nat) {
    Sound(after) && OnlyRow(db, after, id) && TablesEvolve(db, after)
  }

  lemma AppendedTouchesOneRow(db: Db, after: Db, row: Execution, next: Execution, entry: AuditEntry)
    requires row.id in db.executions && Appended(db, after, row, next, entry)
    ensures OnlyRow(db, after, row.id)
  {
  }

  lemma AppendedIsIsolated(db: Db, after: Db, row: Execution, next: Execution, entry: AuditEntry)
    requires Sound(db) && row.id in db.executions && db.executions[row.id] == row && !Terminal(row.state)
    requires Successor(row, next, entry) && Appended(db, after, row, next, entry) && next.state != Succeeded
    requires (row.id, entry.revision) !in db.ledger
    ensures Isolated(db, after, row.id)
  {
    AppendedIsSound(db, after, row, next, entry);
    AppendEvolves(db, after, row, next, entry);
    AppendedTouchesOneRow(db, after, row, next, entry);
    assert EffectsExact(after) by { EffectsFrame(db, after, row.id); }
  }

  lemma OneAppendIsIsolated(db: Db, row: Execution, to: State, o: Options, clock: Clock)
    requires Sound(db) && row.id in db.executions && db.executions[row.id] == row
    requires LegalMove(row, to, o) && to != Succeeded
    requires AppendTransition(db, row, row.state, to, o, clock).outcome.Done?
    ensures var tx := AppendTransition(db, row, row.state, to, o, clock);
            && Isolated(db, tx.db, row.id)
            && tx.outcome.value == Advanced(row, Entry(row, row.state, to, o, clock.at), o, clock.now)
            && row.id in tx.db.executions && tx.db.executions[row.id] == tx.outcome.value
  {
    var entry := Entry(row, row.state, to, o, clock.at);
    var next := Advanced(row, entry, o, clock.now);
    MoveIsSuccessor(db, row, to, o, clock);
    AppendShape(db, row, row.state, to, o, clock);
    AppendedIsIsolated(db, AppendTransition(db, row, row.state, to, o, clock).db, row, next, entry);
  }

  lemma IsolatedTrans(a: Db, b: Db, c: Db, id: nat)
    requires Isolated(a, b, id) && Isolated(b, c, id)
    ensures Isolated(a, c, id)
  {
    EvolvesTrans(a, b, c);
    forall other: nat | other != id ensures SameRow(a, c, other) {
      assert SameRow(a, b, other) && SameRow(b, c, other);
    }
  }

  lemma UnchangedIsIsolated(db: Db, id: nat)
    requires Sound(db)
    ensures Isolated(db, db, id)
  {
  }

  /** The writes of a collision recovery either dead-letter the row or can be rolled back without a trace. */
  ghost predicate Recovered(db: Db, tx: Tx<()>, id: nat)
    requires id in db.executions
  {
    && (tx.outcome.Done? || tx.outcome.TransitionCollision?)
    && Rollback(db, tx.db) == db
    && (tx.outcome.Done? ==>
          Isolated(db, tx.db, id) && id in tx.db.executions &&
          DeadLettered(db.executions[id], tx.db.executions[id], IdempotencyConflict))
  }

  lemma DeadLetterRunningRecovers(db: Db, row: Execution, eventId: Option<EventId>, clock: Clock)
    requires Sound(db) && row.id in db.executions && db.executions[row.id] == row && row.state == Running
    requires eventId.None? || eventId == ConflictEvent(row)
    ensures Recovered(db, DeadLetterRunning(db, row, eventId, clock), row.id)
  {
    var o := DeadLetterOptions(row, IdempotencyConflict, eventId);
    assert RowSound(db, row.id);
    AppendNeverLosesItsRow(db, row, DeadLetter, o, clock);
    AppendRollsBack(db, row, Running, DeadLetter, o, clock);
    if AppendTransition(db, row, Running, DeadLetter, o, clock).outcome.Done? {
      OneAppendIsIsolated(db, row, DeadLetter, o, clock);
    }
  }

  lemma DeadLetterQueuedRecovers(db: Db, row: Execution, fence: Fence, clock: Clock)
    requires Sound(db) && row.id in db.executions && db.executions[row.id] == row && row.state == Queued
    ensures Recovered(db, DeadLetterQueued(db, row, fence, clock), row.id)
  {
    var o := ClaimOptions(row, fence, ConflictEvent(row));
    var claimed := AppendTransition(db, row, Queued, Running, o, clock);
    assert RowSound(db, row.id);
    AppendNeverLosesItsRow(db, row, Running, o, clock);
    AppendRollsBack(db, row, Queued, Running, o, clock);
    if claimed.outcome.Done? {
      OneAppendIsIsolated(db, row, Running, o, clock);
      RecoveredAfter(db, claimed.db, claimed.outcome.value, row.id, clock);
    }
  }

  lemma RecoveredAfter(before: Db, db: Db, next: Execution, id: nat, clock: Clock)
    requires id in before.executions && Isolated(before, db, id) && Rollback(before, db) == before
    requires next.id == id && id in db.executions && db.executions[id] == next && next.state == Running
    ensures Recovered(before, DeadLetterRunning(db, next, None, clock), id)
  {
    DeadLetterRunningRecovers(db, next, None, clock);
    var dead := DeadLetterRunning(db, next, None, clock);
    if dead.outcome.Done? {
      IsolatedTrans(before, db, dead.db, id);
    }
  }

  /** A collision either dead-letters the row or leaves every table exactly as it was. */
  lemma TerminalizeIsIsolated(db: Db, row: Execution, fence: Fence, clock: Clock)
    requires Sound(db) && row.id in db.executions && db.executions[row.id] == row && !Terminal(row.state)
    ensures var tx := TerminalizeCollision(db, row, fence, clock);
            && tx.outcome.Done? && Isolated(db, tx.db, row.id)
            && row.id in tx.db.executions
            && (tx.db == db || DeadLettered(row, tx.db.executions[row.id], IdempotencyConflict))
  {
    UnchangedIsIsolated(db, row.id);
    if LockLive(db, fence, clock.now) {
      if row.state == Queued {
        DeadLetterQueuedRecovers(db, row, fence, clock);
      } else {
        DeadLetterRunningRecovers(db, row, ConflictEvent(row), clock);
      }
    }
  }

  // ---------- visiting one row ----------

  /** What one visit did to its row, with or without a collision. */
  ghost predicate Visited(db: Db, tx: Tx<Option<Execution>>, lane: Lane, row: Execution, fence: Fence, now: int) {
    && tx.outcome.Done? && Isolated(db, tx.db, row.id)
    && row.id in tx.db.executions
    && var after := tx.db.executions[row.id];
    && after.id == row.id && Fate(lane, row, after, fence, now)
    && (after == row ==> tx.db == db)
    && (tx.outcome.value.Some? <==> ClaimedBy(row, after, fence, now))
    && (tx.outcome.value.Some? ==> tx.outcome.value.value == after)
  }

  lemma VisitIsIsolated(db: Db, lane: Lane, row: Execution, fence: Fence, clock: Clock)
    requires Sound(db) && Visitable(db, lane, row, clock.now)
    ensures Visited(db, Visit(db, lane, row, fence, clock), lane, row, fence, clock.now)
  {
    if SourceMatches(db, row) {
      MoveIsIsolated(db, lane, row, fence, clock);
    } else {
      UnclaimedIsVisited(db, lane, row, fence, clock);
    }
  }

  lemma UnclaimedIsVisited(db: Db, lane: Lane, row: Execution, fence: Fence, clock: Clock)
    requires Sound(db) && Visitable(db, lane, row, clock.now)
    ensures Visited(db, AsUnclaimed(TerminalizeCollision(db, row, fence, clock)), lane, row, fence, clock.now)
  {
    TerminalizeIsIsolated(db, row, fence, clock);
    assert RowSound(TerminalizeCollision(db, row, fence, clock).db, row.id);
  }

  lemma LaneMoveIsLegal(db: Db, lane: Lane, row: Execution, fence: Fence, now: int)
    requires Sound(db) && Visitable(db, lane, row, now)
    ensures LegalMove(row, LaneTarget(lane), LaneOptions(lane, row, fence))
  {
    assert RowSound(db, row.id);
  }

  /** What one lane transition did, as its savepoint sees it. */
  ghost predicate Moved(db: Db, tx: Tx<Execution>, lane: Lane, row: Execution, fence: Fence, now: int) {
    && (tx.outcome.Done? || tx.outcome.TransitionCollision?)
    && Rollback(db, tx.db) == db
    && (tx.outcome.Done? ==>
          && Isolated(db, tx.db, row.id) && tx.outcome.value.id == row.id && row.id in tx.db.executions && tx.db.executions[row.id] == tx.outcome.value
          && (if lane == Exhausted then DeadLettered(row, tx.outcome.value, RetryExhausted)
              else ClaimedBy(row, tx.outcome.value, fence, now)))
  }

  lemma LaneMoves(db: Db, lane: Lane, row: Execution, fence: Fence, clock: Clock)
    requires Sound(db) && Visitable(db, lane, row, clock.now)
    ensures Moved(db, AppendTransition(db, row, row.state, LaneTarget(lane), LaneOptions(lane, row, fence), clock),
              lane, row, fence, clock.now)
  {
    var to, o := LaneTarget(lane), LaneOptions(lane, row, fence);
    AppendNeverLosesItsRow(db, row, to, o, clock);
    AppendRollsBack(db, row, row.state, to, o, clock);
    LaneMoveIsLegal(db, lane, row, fence, clock.now);
    if AppendTransition(db, row, row.state, to, o, clock).outcome.Done? {
      OneAppendIsIsolated(db, row, to, o, clock);
    }
  }

  lemma MoveIsIsolated(db: Db, lane: Lane, row: Execution, fence: Fence, clock: Clock)
    requires Sound(db) && Visitable(db, lane, row, clock.now)
    ensures Visited(db, IsolatedMove(db, lane, row, fence, clock), lane, row, fence, clock.now)
  {
    LaneMoves(db, lane, row, fence, clock);
    IsolateIsVisited(db, AppendTransition(db, row, row.state, LaneTarget(lane), LaneOptions(lane, row, fence), clock),
      lane, row, fence, clock);
  }

  lemma IsolateIsVisited(db: Db, tx: Tx<Execution>, lane: Lane, row: Execution, fence: Fence, clock: Clock)
    requires Sound(db) && Visitable(db, lane, row, clock.now) && Moved(db, tx, lane, row, fence, clock.now)
    ensures Visited(db, Isolate(db, tx, lane, row, fence, clock), lane, row, fence, clock.now)
  {
    hide Isolated, TerminalizeCollision, Sound;
    if tx.outcome.TransitionCollision? {
      UnclaimedIsVisited(db, lane, row, fence, clock);
    }
  }

  /** A due row whose source is intact and whose next event id is free is always moved on. */
  lemma UncontestedRowAdvances(db: Db, lane: Lane, row: Execution, fence: Fence, clock: Clock)
    requires Sound(db) && Visitable(db, lane, row, clock.now)
    requires SourceMatches(db, row) && TransitionId(row.id, row.revision + 1) !in db.outbox
    ensures var after := Visit(db, lane, row, fence, clock).db;
            && row.id in after.executions
            && (if lane == Exhausted then DeadLettered(row, after.executions[row.id], RetryExhausted)
                else ClaimedBy(row, after.executions[row.id], fence, clock.now))
  {
    LaneMoves(db, lane, row, fence, clock);
    FreeEventIsDone(db, row, LaneTarget(lane), LaneOptions(lane, row, fence), clock);
  }

  lemma FreeEventIsDone(db: Db, row: Execution, to: State, o: Options, clock: Clock)
    requires Sound(db) && row.id in db.executions && db.executions[row.id] == row
    requires o.eventId.None? && TransitionId(row.id, row.revision + 1) !in db.outbox
    ensures AppendTransition(db, row, row.state, to, o, clock).outcome.Done?
  {
    assert RowSound(db, row.id);
    AppendNeverLosesItsRow(db, row, to, o, clock);
  }

  // ---------- a whole lane ----------

  ghost predicate DistinctIds(rows: seq<Execution>) {
    forall i, j :: 0 <= i < j < |rows| ==> rows[i].id != rows[j].id
  }

  ghost predicate AllVisitable(db: Db, lane: Lane, rows: seq<Execution>, now: int) {
    forall row <- rows :: Visitable(db, lane, row, now)
  }

  /** Every visited row met one of its fates, and every other row is exactly as it was. */
  ghost predicate LaneDone(db: Db, after: Db, lane: Lane, rows: seq<Execution>, fence: Fence, now: int) {
    && Sound(after) && TablesEvolve(db, after)
    && (forall row <- rows :: row.id in after.executions && Fate(lane, row, after.executions[row.id], fence, now))
    && (forall id: nat :: (forall row <- rows :: row.id != id) ==> SameRow(db, after, id))
    && after == db.(executions := after.executions, ledger := after.ledger, outbox := after.outbox)
  }

  /** The returned rows are the stored rows of exactly the claims this lane made. */
  ghost predicate ClaimsReturned(after: Db, rows: seq<Execution>, claimed: seq<Execution>, fence: Fence, now: int) {
    && (forall c <- claimed :: c.id in after.executions && after.executions[c.id] == c &&
          exists row <- rows :: row.id == c.id && ClaimedBy(row, c, fence, now))
    && (forall row <- rows :: row.id in after.executions && ClaimedBy(row, after.executions[row.id], fence, now) ==>
          after.executions[row.id] in claimed)
    && |claimed| <= |rows|
  }

  lemma {:induction false} LaneIsIsolated(db: Db, lane: Lane, rows: seq<Execution>, fence: Fence, clock: Clock)
    requires Sound(db) && AllVisitable(db, lane, rows, clock.now) && DistinctIds(rows)
    ensures var tx := VisitAll(db, lane, rows, fence, clock);
            && tx.outcome.Done?
            && LaneDone(db, tx.db, lane, rows, fence, clock.now)
            && ClaimsReturned(tx.db, rows, tx.outcome.value, fence, clock.now)
    decreases |rows|
  {
    hide Sound, Visit, LaneDone, ClaimsReturned, Visitable, Isolated, TablesEvolve, SameRow, Fate, DistinctIds;
    if rows == [] {
      EmptyLane(db, lane, fence, clock.now);
    } else {
      VisitIsIsolated(db, lane, rows[0], fence, clock);
      VisitedIsIsolated(db, Visit(db, lane, rows[0], fence, clock), lane, rows[0], fence, clock.now);
      var one := Visit(db, lane, rows[0], fence, clock);
      RestStaysVisitable(db, one.db, lane, rows, clock.now);
      LaneIsIsolated(one.db, lane, rows[1..], fence, clock);
      var rest := VisitAll(one.db, lane, rows[1..], fence, clock);
      LaneJoins(db, one, rest, lane, rows, fence, clock.now);
    }
  }

  lemma EmptyLane(db: Db, lane: Lane, fence: Fence, now: int)
    requires Sound(db)
    ensures LaneDone(db, db, lane, [], fence, now) && ClaimsReturned(db, [], [], fence, now)
  {
    UnchangedIsIsolated(db, 0);
    hide Sound;
  }

  lemma VisitedIsIsolated(db: Db, tx: Tx<Option<Execution>>, lane: Lane, row: Execution, fence: Fence, now: int)
    requires Visited(db, tx, lane, row, fence, now)
    ensures tx.outcome.Done? && Sound(tx.db) && OnlyRow(db, tx.db, row.id)
  {
    hide Sound, OnlyRow, TablesEvolve;
  }

  lemma RestStaysVisitable(db: Db, after: Db, lane: Lane, rows: seq<Execution>, now: int)
    requires rows != [] && AllVisitable(db, lane, rows, now) && DistinctIds(rows) && OnlyRow(db, after, rows[0].id)
    ensures AllVisitable(after, lane, rows[1..], now) && DistinctIds(rows[1..])
  {
    forall row <- rows[1..] ensures Visitable(after, lane, row, now) {
      assert row in rows && Visitable(db, lane, row, now);
      assert SameRow(db, after, row.id);
    }
  }

  lemma LaneJoins(db: Db, one: Tx<Option<Execution>>, rest: Tx<seq<Execution>>, lane: Lane, rows: seq<Execution>, fence: Fence, now: int)
    requires rows != [] && DistinctIds(rows)
    requires Visited(db, one, lane, rows[0], fence, now)
    requires rest.outcome.Done? && LaneDone(one.db, rest.db, lane, rows[1..], fence, now)
    requires ClaimsReturned(rest.db, rows[1..], rest.outcome.value, fence, now)
    ensures LaneDone(db, rest.db, lane, rows, fence, now)
    ensures ClaimsReturned(rest.db, rows,
              (if one.outcome.value.Some? then [one.outcome.value.value] else []) + rest.outcome.value, fence, now)
  {
    hide Sound, ClaimsReturned, SameRow, TablesEvolve, Fate;
    assert forall row <- rows[1..] :: row.id != rows[0].id;
    EvolvesTrans(db, one.db, rest.db);
    FatesJoin(one.db, rest.db, lane, rows, fence, now);
    assert rest.db.executions[rows[0].id] == one.db.executions[rows[0].id] by {
      KeptRow(one.db, rest.db, rows[0].id);
    }
    forall id: nat | forall row <- rows :: row.id != id ensures SameRow(db, rest.db, id) {
      OthersUntouched(db, one.db, rest.db, rows, id);
    }
    ClaimsJoin(rest.db, one.outcome.value, rest.outcome.value, rows, fence, now);
  }

  lemma KeptRow(b: Db, c: Db, id: nat)
    requires SameRow(b, c, id) && id in b.executions
    ensures id in c.executions && c.executions[id] == b.executions[id]
  {
  }

  lemma FatesJoin(b: Db, c: Db, lane: Lane, rows: seq<Execution>, fence: Fence, now: int)
    requires rows != [] && rows[0].id in b.executions && Fate(lane, rows[0], b.executions[rows[0].id], fence, now)
    requires SameRow(b, c, rows[0].id)
    requires forall row <- rows[1..] :: row.id in c.executions && Fate(lane, row, c.executions[row.id], fence, now)
    ensures forall row <- rows :: row.id in c.executions && Fate(lane, row, c.executions[row.id], fence, now)
  {
    assert rows == [rows[0]] + rows[1..];
  }

  lemma OthersUntouched(a: Db, b: Db, c: Db, rows: seq<Execution>, id: nat)
    requires rows != [] && OnlyRow(a, b, rows[0].id)
    requires forall other: nat :: (forall row <- rows[1..] :: row.id != other) ==> SameRow(b, c, other)
    requires forall row <- rows :: row.id != id
    ensures SameRow(a, c, id)
  {
    assert rows[0] in rows;
    assert forall row <- rows[1..] :: row in rows;
    assert SameRow(a, b, id) && SameRow(b, c, id);
  }

  lemma ClaimsJoin(after: Db, head: Option<Execution>, tail: seq<Execution>, rows: seq<Execution>, fence: Fence, now: int)
    requires rows != [] && rows[0].id in after.executions
    requires head.Some? <==> ClaimedBy(rows[0], after.executions[rows[0].id], fence, now)
    requires head.Some? ==> head.value == after.executions[rows[0].id] && head.value.id == rows[0].id
    requires ClaimsReturned(after, rows[1..], tail, fence, now)
    ensures ClaimsReturned(after, rows, (if head.Some? then [head.value] else []) + tail, fence, now)
  {
    var claimed := (if head.Some? then [head.value] else []) + tail;
    forall c <- claimed
      ensures c.id in after.executions && after.executions[c.id] == c &&
              exists row <- rows :: row.id == c.id && ClaimedBy(row, c, fence, now)
    {
      if c in tail {
        var row :| row in rows[1..] && row.id == c.id && ClaimedBy(row, c, fence, now);
        assert row in rows;
      } else {
        assert rows[0] in rows;
      }
    }
    forall row <- rows | row.id in after.executions && ClaimedBy(row, after.executions[row.id], fence, now)
      ensures after.executions[row.id] in claimed
    {
      if row != rows[0] {
        assert row in rows[1..];
      }
    }
  }
}
