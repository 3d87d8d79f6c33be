/** A whole claim transaction: which rows it selects and what it does to every row of the table. */
module WorkflowBatches {
  import opened Wrappers
  import opened Fencing
  import opened WorkflowModel
  import opened WorkflowTransactions
  import opened WorkflowInvariants
  import opened WorkflowClaims

  ghost predicate Ascending(ids: seq<nat>) { forall i, j :: 0 <= i < j < |ids| ==> ids[i] < ids[j] }

  /** The rows a claim must eventually touch: queued and due, or running on an expired lease. */
  predicate Due(row: Execution, now: int) {
    (row.state == Queued && row.nextAttemptAt <= now) || (row.state == Running && LeaseExpired(row, now))
  }

  /** The two selections are disjoint and together are exactly the due rows. */
  lemma LanesPartitionDueRows(db: Db, id: nat, now: int)
    requires Sound(db) && id in db.executions
    ensures var row := db.executions[id];
            && !(Eligible(Exhausted, row, now) && Eligible(Claimable, row, now))
            && (Due(row, now) <==> Eligible(Exhausted, row, now) || Eligible(Claimable, row, now))
            && (Due(row, now) ==> !Terminal(row.state))
  {
    assert RowSound(db, id);
  }

  lemma AscendingCons(first: nat, rest: seq<nat>)
    requires Ascending(rest) && forall s <- rest :: first < s
    ensures Ascending([first] + rest)
  {
    var all := [first] + rest;
    forall i, j | 0 <= i < j < |all| ensures all[i] < all[j] {
      assert all[j] == rest[j - 1] && rest[j - 1] in rest;
    }
  }

  /** A scan returns eligible unlocked ids in order, and leaves one out only when the limit was reached before it. */
  lemma {:induction false} ScanIsComplete(db: Db, lane: Lane, now: int, locked: set<nat>, from: nat, limit: nat)
    ensures var ids := SelectRows(db, lane, now, locked, from, limit);
            && Ascending(ids) && |ids| <= limit
            && (forall id <- ids :: from <= id && id in db.executions && id !in locked && Eligible(lane, db.executions[id], now))
            && (forall id: nat |
                  from <= id < db.sequence && id in db.executions && id !in locked && Eligible(lane, db.executions[id], now) && id !in ids ::
                  |ids| == limit && forall s <- ids :: s < id)
    decreases db.sequence - from
  {
    if from < db.sequence && limit != 0 {
      if from in db.executions && from !in locked && Eligible(lane, db.executions[from], now) {
        ScanIsComplete(db, lane, now, locked, from + 1, limit - 1);
        var rest := SelectRows(db, lane, now, locked, from + 1, limit - 1);
        AscendingCons(from, rest);
      } else {
        ScanIsComplete(db, lane, now, locked, from + 1, limit);
      }
    }
  }

  lemma SelectionIsVisitable(db: Db, lane: Lane, now: int, locked: set<nat>)
    requires Sound(db)
    ensures var rows := SelectedRows(db, lane, now, locked);
            AllVisitable(db, lane, rows, now) && DistinctIds(rows) && |rows| <= BATCH_SIZE
  {
    ScanIsComplete(db, lane, now, locked, 0, BATCH_SIZE);
    var ids := SelectRows(db, lane, now, locked, 0, BATCH_SIZE);
    var rows := SelectedRows(db, lane, now, locked);
    forall i | 0 <= i < |rows| ensures Visitable(db, lane, rows[i], now) && rows[i].id == ids[i] {
      assert ids[i] in ids && RowSound(db, ids[i]);
    }
  }

  /** What a committed claim did to row `id`. */
  ghost predicate ClaimFate(db: Db, after: Db, id: nat, fence: Fence, locked: set<nat>, now: int)
    requires id in db.executions
  {
    id in after.executions &&
    var row := db.executions[id];
    if row in SelectedRows(db, Exhausted, now, locked) then Fate(Exhausted, row, after.executions[id], fence, now)
    else if row in SelectedRows(db, Claimable, now, locked) then Fate(Claimable, row, after.executions[id], fence, now)
    else SameRow(db, after, id)
  }

  /**
   A claim never aborts: collisions stay inside their own row, every selected row meets one of its fates, every other
   row is untouched, and the returned rows are exactly the stored claims.
   */
  lemma ClaimIsIsolated(db: Db, fence: Fence, locked: set<nat>, clock: Clock)
    requires Sound(db) && LockLive(db, fence, clock.now)
    ensures var tx := ClaimBatch(db, fence, locked, clock);
            && tx.outcome.Done? && Sound(tx.db) && TablesEvolve(db, tx.db)
            && (forall id <- db.executions :: ClaimFate(db, tx.db, id, fence, locked, clock.now))
            && ClaimsReturned(tx.db, SelectedRows(db, Claimable, clock.now, locked), tx.outcome.value, fence, clock.now)
            && |tx.outcome.value| <= BATCH_SIZE
  {
    hide Sound, TablesEvolve, Fate, SelectedRows, ClaimsReturned, VisitAll, LockLive, SameRow;
    var now := clock.now;
    var exhausted, candidates := SelectedRows(db, Exhausted, now, locked), SelectedRows(db, Claimable, now, locked);
    SelectionIsVisitable(db, Exhausted, now, locked);
    SelectionIsVisitable(db, Claimable, now, locked);
    var first := VisitAll(db, Exhausted, exhausted, fence, clock);
    LaneIsIsolated(db, Exhausted, exhausted, fence, clock);
    LanesDoNotMeet(db, exhausted, candidates, now);
    CandidatesSurvive(db, first.db, exhausted, candidates, fence, now);
    LaneIsIsolated(first.db, Claimable, candidates, fence, clock);
    var second := VisitAll(first.db, Claimable, candidates, fence, clock);
    assert ClaimBatch(db, fence, locked, clock) == second;
    EvolvesTrans(db, first.db, second.db);
    forall id <- db.executions ensures ClaimFate(db, second.db, id, fence, locked, now) {
      LanesDecideFate(db, first.db, second.db, id, exhausted, candidates, fence, now);
    }
    assert |second.outcome.value| <= |candidates| by { ClaimCount(second.db, candidates, second.outcome.value, fence, now); }
  }

  lemma ClaimCount(after: Db, rows: seq<Execution>, claimed: seq<Execution>, fence: Fence, now: int)
    requires ClaimsReturned(after, rows, claimed, fence, now)
    ensures |claimed| <= |rows|
  {
  }

  lemma LanesDoNotMeet(db: Db, exhausted: seq<Execution>, candidates: seq<Execution>, now: int)
    requires AllVisitable(db, Exhausted, exhausted, now) && AllVisitable(db, Claimable, candidates, now)
    ensures forall a <- exhausted, b <- candidates :: a.id != b.id
  {
    forall a <- exhausted, b <- candidates ensures a.id != b.id {
      assert Visitable(db, Exhausted, a, now) && Visitable(db, Claimable, b, now);
    }
  }

  lemma CandidatesSurvive(db: Db, after: Db, exhausted: seq<Execution>, candidates: seq<Execution>, fence: Fence, now: int)
    requires AllVisitable(db, Claimable, candidates, now)
    requires forall a <- exhausted, b <- candidates :: a.id != b.id
    requires LaneDone(db, after, Exhausted, exhausted, fence, now)
    ensures AllVisitable(after, Claimable, candidates, now)
  {
    forall row <- candidates ensures Visitable(after, Claimable, row, now) {
      assert Visitable(db, Claimable, row, now);
      assert SameRow(db, after, row.id);
    }
  }

  lemma LaneDecides(a: Db, b: Db, lane: Lane, rows: seq<Execution>, id: nat, fence: Fence, now: int)
    requires id in a.executions && a.executions[id].id == id
    requires AllVisitable(a, lane, rows, now) && LaneDone(a, b, lane, rows, fence, now)
    ensures id in b.executions
    ensures a.executions[id] in rows ==> Fate(lane, a.executions[id], b.executions[id], fence, now)
    ensures a.executions[id] !in rows ==> SameRow(a, b, id)
  {
    hide Sound, Fate, SameRow;
    if a.executions[id] !in rows {
      forall row <- rows ensures row.id != id {
        assert Visitable(a, lane, row, now);
      }
    }
  }

  lemma LanesDecideFate(a: Db, b: Db, c: Db, id: nat, exhausted: seq<Execution>, candidates: seq<Execution>, fence: Fence, now: int)
    requires id in a.executions && Sound(a) && Sound(b)
    requires AllVisitable(a, Exhausted, exhausted, now) && AllVisitable(b, Claimable, candidates, now)
    requires AllVisitable(a, Claimable, candidates, now)
    requires LaneDone(a, b, Exhausted, exhausted, fence, now) && LaneDone(b, c, Claimable, candidates, fence, now)
    requires forall x <- exhausted, y <- candidates :: x.id != y.id
    ensures id in c.executions
    ensures a.executions[id] in exhausted ==> Fate(Exhausted, a.executions[id], c.executions[id], fence, now)
    ensures a.executions[id] !in exhausted && a.executions[id] in candidates ==>
              Fate(Claimable, a.executions[id], c.executions[id], fence, now)
    ensures a.executions[id] !in exhausted && a.executions[id] !in candidates ==> SameRow(a, c, id)
  {
    hide Sound, Fate, LaneDone, AllVisitable;
    var row := a.executions[id];
    IdIsKey(a, id);
    IdIsKey(b, id);
    LaneDecides(a, b, Exhausted, exhausted, id, fence, now);
    LaneDecides(b, c, Claimable, candidates, id, fence, now);
    if row in exhausted {
      assert b.executions[id] !in candidates;
    }
  }

  lemma IdIsKey(db: Db, id: nat)
    requires Sound(db)
    ensures id in db.executions ==> db.executions[id].id == id
  {
    if id in db.executions { assert RowSound(db, id); }
  }
}
