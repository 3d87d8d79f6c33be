/** A claim batch leaves no due row behind: every selected row whose event ids are free is moved on. */
module WorkflowProgress {
  import opened Wrappers
  import opened Fencing
  import opened WorkflowModel
  import opened WorkflowTransactions
  import opened WorkflowInvariants
  import opened WorkflowClaims
  import opened WorkflowBatches
  import opened WorkflowTriggers
  import opened WorkflowDecisions

  /** What a claim must make of a due row. */
  predicate Decided(intact: bool, row: Execution, end: Execution, fence: Fence, now: int) {
    if !intact then end.state == DeadLetter && end.failure == Some(IdempotencyConflict)
    else if row.state == Running && row.attempt >= 3 then end.state == DeadLetter && end.failure == Some(RetryExhausted)
    else
      && end.state == Running && end.worker == Some(fence) && end.attempt == row.attempt + 1 && end.revision == row.revision + 1
      && end.leaseRevision == row.leaseRevision + 1 && end.leaseExpiresAt == Some(now + 30_000)
  }

  // ---------- which events a visit writes ----------

  /** New events are transition events of execution `id`; earlier ones stay. */
  ghost predicate Minted(before: Db, after: Db, id: nat) {
    && (forall k <- before.outbox :: k in after.outbox && after.outbox[k] == before.outbox[k])
    && (forall k <- after.outbox :: k in before.outbox ||
          ((k.TransitionId? || k.ConflictId?) && k.execution == id && after.outbox[k].messageClass == DurableIntegration))
  }

  lemma MintedTrans(a: Db, b: Db, c: Db, id: nat)
    requires Minted(a, b, id) && Minted(b, c, id)
    ensures Minted(a, c, id)
  {
  }

  lemma AppendMints(db: Db, row: Execution, from: State, to: State, o: Options, clock: Clock)
    requires row.id in db.executions ==> db.executions[row.id].id == row.id
    requires o.eventId.Some? ==> o.eventId == ConflictEvent(row)
    ensures Minted(db, AppendTransition(db, row, from, to, o, clock).db, row.id)
    ensures AppendTransition(db, row, from, to, o, clock).outcome.Done? ==>
              AppendTransition(db, row, from, to, o, clock).outcome.value.id == row.id
  {
  }

  lemma TerminalizeMints(db: Db, row: Execution, fence: Fence, clock: Clock)
    requires Sound(db)
    ensures Minted(db, TerminalizeCollision(db, row, fence, clock).db, row.id)
  {
    hide Sound, AppendTransition, Minted;
    assert Minted(db, db, row.id) by { NothingMinted(db, db, row.id); }
    if row.id in db.executions {
      IdIsKey(db, row.id);
      WritesMint(db, db.executions[row.id], fence, clock);
    }
    NothingMinted(db, Rollback(db, TerminalWrites(db, row, fence, clock).db), row.id);
  }

  lemma NothingMinted(before: Db, after: Db, id: nat)
    requires after.outbox == before.outbox
    ensures Minted(before, after, id)
  {
  }

  lemma WritesMint(db: Db, current: Execution, fence: Fence, clock: Clock)
    requires current.id in db.executions && db.executions[current.id] == current
    ensures Minted(db, DeadLetterRunning(db, current, ConflictEvent(current), clock).db, current.id)
    ensures Minted(db, DeadLetterQueued(db, current, fence, clock).db, current.id)
  {
    hide Minted;
    AppendMints(db, current, Running, DeadLetter, DeadLetterOptions(current, IdempotencyConflict, ConflictEvent(current)), clock);
    var o := ClaimOptions(current, fence, ConflictEvent(current));
    AppendMints(db, current, Queued, Running, o, clock);
    var claimed := AppendTransition(db, current, Queued, Running, o, clock);
    if claimed.outcome.Done? {
      assert claimed.db.executions[current.id].id == current.id;
      AppendMints(claimed.db, claimed.outcome.value, Running, DeadLetter,
        DeadLetterOptions(claimed.outcome.value, IdempotencyConflict, None), clock);
      MintedTrans(db, claimed.db, DeadLetterQueued(db, current, fence, clock).db, current.id);
    }
  }

  lemma VisitMints(db: Db, lane: Lane, row: Execution, fence: Fence, clock: Clock)
    requires Sound(db) && row.id in db.executions && db.executions[row.id] == row
    ensures Minted(db, Visit(db, lane, row, fence, clock).db, row.id)
  {
    hide Sound, AppendTransition, Minted, TerminalizeCollision, SourceMatches;
    TerminalizeMints(db, row, fence, clock);
    var tx := AppendTransition(db, row, row.state, LaneTarget(lane), LaneOptions(lane, row, fence), clock);
    AppendMints(db, row, row.state, LaneTarget(lane), LaneOptions(lane, row, fence), clock);
    NothingMinted(db, Rollback(db, tx.db), row.id);
    AppendRollsBack(db, row, row.state, LaneTarget(lane), LaneOptions(lane, row, fence), clock);
  }

  // ---------- rows still to be visited ----------

  /** A row that waits while another is visited meets its own visit as it would have met it before. */
  lemma OthersAreUnaffected(db: Db, after: Db, id: nat, row: Execution)
    requires Minted(db, after, id) && row.id != id
    ensures VisitEventsFree(db, row) ==> VisitEventsFree(after, row)
    ensures SourceIntact(db, row) <==> SourceIntact(after, row)
  {
    if row.source in after.outbox && row.source !in db.outbox {
      assert after.outbox[row.source].messageClass == DurableIntegration;
    }
  }

  lemma {:induction false} LaneDecidesEveryRow(db: Db, lane: Lane, rows: seq<Execution>, fence: Fence, clock: Clock)
    requires Sound(db) && AllVisitable(db, lane, rows, clock.now) && DistinctIds(rows) && FenceLives(db, fence, clock.now)
    ensures var after := VisitAll(db, lane, rows, fence, clock).db;
            forall row <- rows :: VisitEventsFree(db, row) ==>
              row.id in after.executions && Decided(SourceIntact(db, row), row, after.executions[row.id], fence, clock.now)
    decreases |rows|
  {
    hide *;
    if rows != [] {
      FirstIsVisited(db, lane, rows, fence, clock);
      var one := Visit(db, lane, rows[0], fence, clock).db;
      LaneDecidesEveryRow(one, lane, rows[1..], fence, clock);
      LaneIsIsolated(one, lane, rows[1..], fence, clock);
      forall row <- rows | VisitEventsFree(db, row)
        ensures row.id in VisitAll(db, lane, rows, fence, clock).db.executions
        ensures Decided(SourceIntact(db, row), row, VisitAll(db, lane, rows, fence, clock).db.executions[row.id], fence, clock.now)
      {
        if row == rows[0] {
          FirstIsDecided(db, lane, row, fence, clock);
          FirstStays(one, VisitAll(one, lane, rows[1..], fence, clock).db, lane, rows, fence, clock.now);
        } else {
          OthersAreUnaffected(db, one, rows[0].id, row);
        }
      }
    }
  }

  /** After the first visit the rest of the lane is as visitable as before. */
  lemma FirstIsVisited(db: Db, lane: Lane, rows: seq<Execution>, fence: Fence, clock: Clock)
    requires Sound(db) && rows != [] && AllVisitable(db, lane, rows, clock.now) && DistinctIds(rows) && FenceLives(db, fence, clock.now)
    ensures var one := Visit(db, lane, rows[0], fence, clock).db;
            && Sound(one) && AllVisitable(one, lane, rows[1..], clock.now) && DistinctIds(rows[1..]) && FenceLives(one, fence, clock.now)
            && Minted(db, one, rows[0].id) && Visitable(db, lane, rows[0], clock.now)
            && VisitAll(db, lane, rows, fence, clock).db == VisitAll(one, lane, rows[1..], fence, clock).db
            && (forall row <- rows :: row == rows[0] || (row in rows[1..] && row.id != rows[0].id))
  {
    var one := Visit(db, lane, rows[0], fence, clock);
    hide Sound, Visit, Isolated, Minted, Eligible, OnlyRow, FenceLives;
    assert Visitable(db, lane, rows[0], clock.now);
    VisitIsIsolated(db, lane, rows[0], fence, clock);
    VisitedIsIsolated(db, one, lane, rows[0], fence, clock.now);
    RestStaysVisitable(db, one.db, lane, rows, clock.now);
    VisitMints(db, lane, rows[0], fence, clock);
    FenceStays(db, one.db, rows[0].id, fence, clock.now);
    LaneContinues(db, lane, rows, fence, clock);
    hide AllVisitable, Visitable, VisitAll;
    FirstIsApart(rows);
  }

  lemma FenceStays(db: Db, after: Db, id: nat, fence: Fence, now: int)
    requires OnlyRow(db, after, id) && FenceLives(db, fence, now)
    ensures FenceLives(after, fence, now)
  {
  }

  lemma LaneContinues(db: Db, lane: Lane, rows: seq<Execution>, fence: Fence, clock: Clock)
    requires rows != [] && Visit(db, lane, rows[0], fence, clock).outcome.Done?
    ensures VisitAll(db, lane, rows, fence, clock).db == VisitAll(Visit(db, lane, rows[0], fence, clock).db, lane, rows[1..], fence, clock).db
  {
    hide Visit;
  }

  lemma FirstIsApart(rows: seq<Execution>)
    requires rows != [] && DistinctIds(rows)
    ensures forall row <- rows :: row == rows[0] || (row in rows[1..] && row.id != rows[0].id)
  {
    forall row <- rows ensures row == rows[0] || (row in rows[1..] && row.id != rows[0].id) {
      var i :| 0 <= i < |rows| && rows[i] == row;
      if i > 0 { assert rows[1..][i - 1] == row; }
    }
  }

  lemma FirstIsDecided(db: Db, lane: Lane, row: Execution, fence: Fence, clock: Clock)
    requires Sound(db) && Visitable(db, lane, row, clock.now) && FenceLives(db, fence, clock.now) && VisitEventsFree(db, row)
    ensures var one := Visit(db, lane, row, fence, clock).db;
            row.id in one.executions && Decided(SourceIntact(db, row), row, one.executions[row.id], fence, clock.now)
  {
    hide Sound, Visit, SourceIntact, FenceLives, VisitEventsFree, DueRow, Eligible;
    DueRowsHaveTheirLane(db, row, clock.now);
    assert lane == LaneFor(row);
    DueRowsAreDecided(db, row, fence, clock);
  }

  lemma FirstStays(one: Db, after: Db, lane: Lane, rows: seq<Execution>, fence: Fence, now: int)
    requires rows != [] && DistinctIds(rows) && LaneDone(one, after, lane, rows[1..], fence, now) && rows[0].id in one.executions
    ensures rows[0].id in after.executions && after.executions[rows[0].id] == one.executions[rows[0].id]
  {
    hide Sound, TablesEvolve, Fate, SameRow;
    FirstIsApart(rows);
    assert forall row <- rows[1..] :: row.id != rows[0].id;
    KeptRow(one, after, rows[0].id);
  }

  /** A lane leaves the rows outside it as free to move as they were. */
  lemma {:induction false} LaneLeavesOthers(db: Db, lane: Lane, rows: seq<Execution>, fence: Fence, clock: Clock, row: Execution)
    requires Sound(db) && AllVisitable(db, lane, rows, clock.now) && DistinctIds(rows) && FenceLives(db, fence, clock.now)
    requires forall r <- rows :: r.id != row.id
    ensures var after := VisitAll(db, lane, rows, fence, clock).db;
            && FenceLives(after, fence, clock.now)
            && (VisitEventsFree(db, row) ==> VisitEventsFree(after, row)) && (SourceIntact(db, row) <==> SourceIntact(after, row))
    decreases |rows|
  {
    hide *;
    if rows == [] {
      EmptyVisit(db, lane, fence, clock);
    } else {
      FirstIsVisited(db, lane, rows, fence, clock);
      var one := Visit(db, lane, rows[0], fence, clock).db;
      OthersAreUnaffected(db, one, rows[0].id, row);
      LaneLeavesOthers(one, lane, rows[1..], fence, clock, row);
    }
  }

  lemma EmptyVisit(db: Db, lane: Lane, fence: Fence, clock: Clock)
    ensures VisitAll(db, lane, [], fence, clock) == Tx(db, Done([]))
  {
  }

  // ---------- the whole batch ----------

  /**
   A claim under a live fence moves on every unlocked due row whose event ids are free, unless sixteen rows of its lane
   come before it.
   */
  lemma ClaimMovesEveryDueRow(db: Db, fence: Fence, locked: set<nat>, clock: Clock, id: nat)
    requires Sound(db) && FenceLives(db, fence, clock.now) && id in db.executions && id !in locked
    requires DueRow(db.executions[id], clock.now) && VisitEventsFree(db, db.executions[id])
    ensures var row, after := db.executions[id], ClaimBatch(db, fence, locked, clock).db;
            var before := SelectRows(db, LaneFor(row), clock.now, locked, 0, 16);
            || (|before| == 16 && forall s <- before :: s < id)
            || (id in after.executions && Decided(SourceIntact(db, row), row, after.executions[id], fence, clock.now))
  {
    hide *;
    var row := db.executions[id];
    IdIsKey(db, id);
    DueRowsHaveTheirLane(db, row, clock.now);
    DueRowIsSelected(db, LaneFor(row), row, clock.now, locked);
    if row in SelectedRows(db, LaneFor(row), clock.now, locked) { SelectedRowIsDecided(db, row, fence, locked, clock); }
  }

  lemma DueRowIsSelected(db: Db, lane: Lane, row: Execution, now: int, locked: set<nat>)
    requires Sound(db) && Visitable(db, lane, row, now) && row.id !in locked
    ensures var before := SelectRows(db, lane, now, locked, 0, 16);
            (|before| == 16 && forall s <- before :: s < row.id) || row in SelectedRows(db, lane, now, locked)
  {
    hide EffectsExact, Eligible, SelectRows;
    assert RowSound(db, row.id);
    hide RowSound;
    ScanIsComplete(db, lane, now, locked, 0, BATCH_SIZE);
    var ids := SelectRows(db, lane, now, locked, 0, BATCH_SIZE);
    if row.id in ids {
      var i :| 0 <= i < |ids| && ids[i] == row.id;
      assert SelectedRows(db, lane, now, locked)[i] == row;
    }
  }

  lemma SelectedRowIsDecided(db: Db, row: Execution, fence: Fence, locked: set<nat>, clock: Clock)
    requires Sound(db) && FenceLives(db, fence, clock.now) && VisitEventsFree(db, row)
    requires row in SelectedRows(db, LaneFor(row), clock.now, locked)
    ensures var after := ClaimBatch(db, fence, locked, clock).db;
            row.id in after.executions && Decided(SourceIntact(db, row), row, after.executions[row.id], fence, clock.now)
  {
    hide *;
    var now := clock.now;
    var exhausted, candidates := SelectedRows(db, Exhausted, now, locked), SelectedRows(db, Claimable, now, locked);
    var first := VisitAll(db, Exhausted, exhausted, fence, clock).db;
    SelectionIsVisitable(db, Exhausted, now, locked);
    SelectionIsVisitable(db, Claimable, now, locked);
    LanesDoNotMeet(db, exhausted, candidates, now);
    LaneIsIsolated(db, Exhausted, exhausted, fence, clock);
    LaneDecidesEveryRow(db, Exhausted, exhausted, fence, clock);
    CandidatesSurvive(db, first, exhausted, candidates, fence, now);
    BatchIsTwoLanes(db, fence, locked, clock);
    LaneKeepsSound(db, first, Exhausted, exhausted, fence, now);
    if LaneFor(row) == Exhausted {
      ExhaustedRowStays(db, first, candidates, row, fence, clock);
    } else {
      LaneLeavesOthers(db, Exhausted, exhausted, fence, clock, row);
      LaneDecidesEveryRow(first, Claimable, candidates, fence, clock);
    }
  }

  lemma BatchIsTwoLanes(db: Db, fence: Fence, locked: set<nat>, clock: Clock)
    requires Sound(db) && FenceLives(db, fence, clock.now)
    ensures var first := VisitAll(db, Exhausted, SelectedRows(db, Exhausted, clock.now, locked), fence, clock);
            ClaimBatch(db, fence, locked, clock).db ==
            VisitAll(first.db, Claimable, SelectedRows(db, Claimable, clock.now, locked), fence, clock).db
  {
    hide Sound, SelectedRows, VisitAll, LaneDone, ClaimsReturned;
    ClaimIsIsolated(db, fence, locked, clock);
    SelectionIsVisitable(db, Exhausted, clock.now, locked);
    LaneIsIsolated(db, Exhausted, SelectedRows(db, Exhausted, clock.now, locked), fence, clock);
  }

  lemma LaneKeepsSound(db: Db, after: Db, lane: Lane, rows: seq<Execution>, fence: Fence, now: int)
    requires LaneDone(db, after, lane, rows, fence, now)
    ensures Sound(after) && (FenceLives(db, fence, now) ==> FenceLives(after, fence, now))
  {
    hide Sound;
  }

  lemma ExhaustedRowStays(db: Db, first: Db, candidates: seq<Execution>, row: Execution, fence: Fence, clock: Clock)
    requires Sound(first) && AllVisitable(first, Claimable, candidates, clock.now) && DistinctIds(candidates)
    requires row.id in first.executions && forall c <- candidates :: c.id != row.id
    ensures var after := VisitAll(first, Claimable, candidates, fence, clock).db;
            row.id in after.executions && after.executions[row.id] == first.executions[row.id]
  {
    hide Sound, TablesEvolve, Fate, SameRow, ClaimsReturned, VisitAll;
    LaneIsIsolated(first, Claimable, candidates, fence, clock);
    KeptRow(first, VisitAll(first, Claimable, candidates, fence, clock).db, row.id);
  }
}
