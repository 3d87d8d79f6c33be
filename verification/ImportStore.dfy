/** The import worker over mutable tables: claim, row by row, complete, fail. */
module ImportStore {
  import opened Wrappers
  import opened Fencing
  import opened ImportModel
  import opened ImportSafety
  import opened ImportDecisions

  /** The row is what its effect makes of a pending one. */
  predicate Met(row: Outcome, effect: Effect) {
    match effect
    case Insert => row.Accepted?
    case Refuse(code) => row == Rejected(code)
  }

  /** Of the rows from `from` to `next` each pending one became what it met; the later rows are untouched. */
  ghost predicate MetUpTo(before: seq<Outcome>, after: seq<Outcome>, from: nat, next: nat, effect: nat -> Effect) {
    && |after| == |before| && from <= next <= |after|
    && (forall i | from <= i < next :: before[i].Pending? ==> Met(after[i], effect(i)))
    && (forall i | next <= i < |after| :: after[i] == before[i])
  }

  lemma NothingMet(rows: seq<Outcome>, from: nat, effect: nat -> Effect)
    requires from <= |rows|
    ensures MetUpTo(rows, rows, from, from, effect)
  {
  }

  lemma OneMoreMet(start: seq<Outcome>, before: seq<Outcome>, after: seq<Outcome>, from: nat, next: nat, effect: nat -> Effect)
    requires MetUpTo(start, before, from, next, effect) && next < |before| == |after|
    requires forall i | 0 <= i < |after| && i != next :: after[i] == before[i]
    requires before[next].Pending? ==> Met(after[next], effect(next))
    ensures MetUpTo(start, after, from, next + 1, effect)
  {
  }

  /** Where a pass over the rows of chunk `k` stands: every row it has passed is settled by what it met. */
  ghost predicate Underway(start: Job, job: Job, s: Session, k: nat, effect: nat -> Effect) {
    && k < |start.chunks| && s.chunk == k && job.chunks == start.chunks && job.state == start.state
    && JobSound(job) && Evolves(start, job) && SessionSound(job, s)
    && MetUpTo(start.rows, job.rows, start.chunks[k].start, s.next, effect)
  }

  lemma Begun(job: Job, k: nat, fence: Fence, effect: nat -> Effect)
    requires JobSound(job) && k < |job.chunks|
    ensures Underway(job, job, Session(k, fence, job.chunks[k].leaseRevision, job.chunks[k].start, false), k, effect)
    ensures job.chunks[k].start <= job.chunks[k].end
  {
    assert ChunkSound(job, k);
    BeginIsSound(job, k, fence, true);
    EvolvesRefl(job);
    hide JobSound, Evolves;
    NothingMet(job.rows, job.chunks[k].start, effect);
  }

  lemma OneRowOn(start: Job, job: Job, s: Session, k: nat, effect: nat -> Effect, intact: bool, now: int)
    requires Underway(start, job, s, k, effect) && s.next < start.chunks[k].end
    ensures var (after, end) := CommitRow(job, s, effect(s.next), intact, now);
            Underway(start, after, if end.Committed? then s.(next := s.next + 1) else s, k, effect)
  {
    hide JobSound, Evolves, SessionSound, MetUpTo, CommitRow;
    var (after, end) := CommitRow(job, s, effect(s.next), intact, now);
    RowKeeps(job, s, effect(s.next), intact, now);
    EvolvesTrans(start, job, after);
    RowShape(job, s, effect(s.next), intact, now);
    if end.Committed? { OneMoreMet(start.rows, job.rows, after.rows, start.chunks[k].start, s.next, effect); }
  }

  lemma RowShape(job: Job, s: Session, effect: Effect, intact: bool, now: int)
    ensures var (after, end) := CommitRow(job, s, effect, intact, now);
            && after.chunks == job.chunks && after.state == job.state
            && if end.Committed? then
                 && s.next < |job.rows| == |after.rows| && (job.rows[s.next].Pending? ==> Met(after.rows[s.next], effect))
                 && forall i | 0 <= i < |after.rows| && i != s.next :: after.rows[i] == job.rows[i]
               else after == job
  {
  }

  class Store {
    var state: JobState
    var revision: nat
    var rows: seq<Outcome>
    var chunks: seq<Chunk>
    var accepted: nat
    var rejected: nat
    var diagnostics: map<nat, Code>
    var artifact: Option<map<nat, Code>>
    var records: map<nat, nat>
    var recordSequence: nat
    var audit: seq<Transition>
    var receipt: Option<Evidence>
    var authorized: bool
    var expiresAt: int
    var live: LiveFence

    function Snapshot(): Job
      reads this
    {
      Job(state, revision, rows, chunks, accepted, rejected, diagnostics, artifact, records, recordSequence, audit, receipt,
          authorized, expiresAt, live)
    }

    constructor (job: Job)
      ensures Snapshot() == job
    {
      state, revision, rows, chunks := job.state, job.revision, job.rows, job.chunks;
      accepted, rejected, diagnostics, artifact := job.accepted, job.rejected, job.diagnostics, job.artifact;
      records, recordSequence, audit, receipt := job.records, job.recordSequence, job.audit, job.receipt;
      authorized, expiresAt, live := job.authorized, job.expiresAt, job.live;
    }

    method Move(to: JobState)
      modifies this
      ensures Snapshot() == Moved(old(Snapshot()), to)
    {
      audit := audit + [Transition(state, to, revision + 1)];
      state, revision := to, revision + 1;
    }

    /** `UPDATE ... WHERE state IN ('queued', 'claimed')`, chunk by chunk. */
    method AbandonChunks()
      modifies this
      ensures Snapshot() == old(Snapshot()).(chunks := AbandonAll(old(chunks)))
    {
      var k := 0;
      while k < |chunks|
        invariant k <= |chunks| == |old(chunks)|
        invariant forall j | 0 <= j < k :: chunks[j] == Abandon(old(chunks[j]))
        invariant forall j | k <= j < |chunks| :: chunks[j] == old(chunks[j])
        invariant Snapshot() == old(Snapshot()).(chunks := chunks)
      {
        chunks := chunks[k := Abandon(chunks[k])];
        k := k + 1;
      }
      assert chunks == AbandonAll(old(chunks));
    }

    /** Moving a job and setting its counts do not interfere. */
    static lemma CountsMove(job: Job, accepted: nat, rejected: nat, to: JobState)
      ensures Moved(job.(accepted := accepted, rejected := rejected), to) == Moved(job, to).(accepted := accepted, rejected := rejected)
      ensures Moved(job, to).rows == job.rows && Moved(job, to).diagnostics == job.diagnostics && Moved(job, to).artifact == job.artifact
      ensures Moved(job, to).state == to
    {
    }

    /** Rejects each pending row; returns whether some row was accepted. */
    method RejectRows(code: Code) returns (anyAccepted: bool)
      modifies this
      ensures Snapshot() == old(Snapshot()).(rows := RejectPending(old(rows), code))
      ensures anyAccepted <==> exists r <- rows :: r.Accepted?
    {
      var i := 0;
      anyAccepted := false;
      while i < |rows|
        invariant i <= |rows| == |old(rows)|
        invariant forall j | 0 <= j < i :: rows[j] == Reject(old(rows[j]), code)
        invariant forall j | i <= j < |rows| :: rows[j] == old(rows[j])
        invariant anyAccepted <==> exists j | 0 <= j < i :: rows[j].Accepted?
        invariant Snapshot() == old(Snapshot()).(rows := rows)
      {
        rows := rows[i := Reject(rows[i], code)];
        if rows[i].Accepted? { anyAccepted := true; }
        i := i + 1;
      }
      assert rows == RejectPending(old(rows), code);
    }

    method End(to: JobState, failure: Option<Code>)
      modifies this
      ensures Snapshot() == Finish(old(Snapshot()), to, failure)
    {
      hide Moved, AcceptedCount, RejectedCount;
      accepted, rejected := AcceptedCount(rows), RejectedCount(rows);
      CountsMove(old(Snapshot()), accepted, rejected, to);
      Move(to);
      if diagnostics != map[] { artifact := Some(diagnostics); }
      receipt := Some(Evidence(state, revision, accepted, rejected, failure));
    }

    method Fail(code: Code)
      modifies this
      ensures Snapshot() == FailImport(old(Snapshot()), code)
    {
      if !Open(state) { return; }
      var anyAccepted := RejectRows(code);
      diagnostics := Diagnosed(diagnostics, rows, code);
      AbandonChunks();
      End(if anyAccepted then PartiallyFailed else Failed, Some(code));
    }

    method FailFromRunning(code: Code)
      modifies this
      ensures Snapshot() == TerminalFailure(old(Snapshot()), code)
    {
      if state == Queued { Move(Running); }
      Fail(code);
    }

    method Claim(k: nat, fence: Fence, lease: nat, now: int) returns (claimed: bool)
      modifies this
      ensures Snapshot() == ClaimChunk(old(Snapshot()), k, fence, lease, now)
      ensures claimed ==> k < |chunks| && chunks[k].worker == Some(fence) && chunks[k].leaseExpiresAt == now + lease
    {
      if !Claimable(Snapshot(), k, fence, now) { return false; }
      var c := chunks[k];
      if !authorized {
        FailFromRunning(ActionForbidden);
        return false;
      }
      if c.attempt + 1 > MAX_ATTEMPTS {
        FailFromRunning(RetryExhausted);
        return false;
      }
      chunks := chunks[k := c.(state := Claimed, attempt := c.attempt + 1, worker := Some(fence),
                               leaseRevision := c.leaseRevision + 1, leaseExpiresAt := now + lease)];
      if state == Queued { Move(Running); }
      return true;
    }

    method Row(s: Session, effect: Effect, intact: bool, now: int) returns (end: RowEnd)
      modifies this
      ensures (Snapshot(), end) == CommitRow(old(Snapshot()), s, effect, intact, now)
      ensures end.Committed? <==> LeaseHeld(old(Snapshot()), s, now) && intact && s.next < |old(rows)|
      ensures end.Committed? && old(rows)[s.next].Pending? ==> s.next < |rows| && Met(rows[s.next], effect)
      ensures |rows| == |old(rows)| && forall i | 0 <= i < |rows| && i != s.next :: rows[i] == old(rows)[i]
      ensures state == old(state) && chunks == old(chunks)
    {
      if !Holds(Snapshot(), s, now) || !intact || s.next >= |rows| { return if IsLive(live, s.fence, now) then Doomed else Lost; }
      if !rows[s.next].Pending? { return Committed; }
      match effect {
        case Insert =>
          rows := rows[s.next := Accepted(recordSequence)];
          records := records[recordSequence := s.next];
          recordSequence := recordSequence + 1;
        case Refuse(code) =>
          rows := rows[s.next := Rejected(code)];
          diagnostics := diagnostics[s.next := code];
      }
      return Committed;
    }

    method Complete(s: Session, now: int) returns (end: RowEnd)
      modifies this
      ensures (Snapshot(), end) == CompleteChunk(old(Snapshot()), s, now)
      ensures rows == old(rows)
    {
      if !Holds(Snapshot(), s, now) { return if IsLive(live, s.fence, now) then Doomed else Lost; }
      chunks := chunks[s.chunk := chunks[s.chunk].(state := Completed, worker := None)];
      if AllCompleted(chunks) && state == Running {
        End(if exists r <- rows :: r.Rejected? then PartiallyFailed else Succeeded, None);
      }
      return Committed;
    }

    /** The rows of a chunk, one transaction each, up to the first whose claim is lost. */
    method ExecuteRows(k: nat, fence: Fence, effect: nat -> Effect, intact: nat -> bool, now: nat -> int) returns (s: Session, end: RowEnd)
      requires k < |chunks| && JobSound(Snapshot())
      modifies this
      ensures Underway(old(Snapshot()), Snapshot(), s, k, effect)
      ensures end.Committed? ==> s.next == chunks[k].end && s.fence == fence
    {
      ghost var start := Snapshot();
      s := Session(k, fence, chunks[k].leaseRevision, chunks[k].start, false);
      end := Committed;
      Begun(start, k, fence, effect);
      hide JobSound, Underway, CommitRow, Met, LeaseHeld;
      while s.next < chunks[k].end
        invariant k < |chunks| && s.fence == fence && end.Committed? && s.next <= chunks[k].end
        invariant Underway(start, Snapshot(), s, k, effect)
        decreases chunks[k].end - s.next
      {
        OneRowOn(start, Snapshot(), s, k, effect, intact(s.next), now(s.next));
        end := Row(s, effect(s.next), intact(s.next), now(s.next));
        if !end.Committed? { return; }
        s := s.(next := s.next + 1);
      }
    }

    /**
     A worker's pass over its chunk with nobody in between: `mapped` says whether the mapping checks out at the start,
     `effect(i)` and `intact(i)` are what row `i` meets, and `now(i)` is when.  It ends with every row of the chunk settled
     by what it met, or, its claim lost under a live fence, with the job failed, or with its fence gone.
     */
    method ExecuteChunk(k: nat, fence: Fence, mapped: bool, effect: nat -> Effect, intact: nat -> bool, now: nat -> int) returns (end: RowEnd)
      requires k < |chunks| && JobSound(Snapshot())
      modifies this
      ensures JobSound(Snapshot()) && Evolves(old(Snapshot()), Snapshot()) && k < |chunks| && |rows| == |old(rows)|
      ensures end.Committed? ==> chunks[k].state == Completed && Processed(rows, chunks[k].start, chunks[k].end)
      ensures end.Committed? ==> MetUpTo(old(rows), rows, chunks[k].start, chunks[k].end, effect)
      ensures end.Doomed? ==> !Open(state)
      ensures end.Lost? ==> old(state) == state
    {
      EvolvesRefl(Snapshot());
      hide JobSound, Evolves, CompleteChunk, FailImport, MetUpTo, SessionSound;
      if !mapped {
        FailDoomed();
        ChunksStay(old(Snapshot()), Snapshot());
        return Doomed;
      }
      var s;
      s, end := ExecuteRows(k, fence, effect, intact, now);
      ghost var executed := Snapshot();
      if end.Committed? {
        CompleteKeeps(executed, s, now(s.next));
        CompletionShape(executed, s, now(s.next));
        end := Complete(s, now(s.next));
        EvolvesTrans(old(Snapshot()), executed, Snapshot());
        PassedRowsStay(executed, Snapshot(), s);
      }
      if end.Doomed? {
        ghost var lost := Snapshot();
        FailDoomed();
        EvolvesTrans(old(Snapshot()), lost, Snapshot());
      }
      ChunksStay(old(Snapshot()), Snapshot());
    }

    lemma CompletionShape(job: Job, s: Session, now: int)
      ensures var (after, end) := CompleteChunk(job, s, now);
              if end.Committed? then s.chunk < |after.chunks| && after.chunks[s.chunk].state == Completed else after == job
    {
    }

    lemma PassedRowsStay(a: Job, b: Job, s: Session)
      requires SessionSound(a, s) && s.next == a.chunks[s.chunk].end && Evolves(a, b)
      ensures s.chunk < |b.chunks| && Processed(b.rows, b.chunks[s.chunk].start, b.chunks[s.chunk].end)
    {
      SessionFrame(a, b, s);
    }

    /** The second, unfenced transaction of a worker that lost its claim. */
    method FailDoomed()
      requires JobSound(Snapshot())
      modifies this
      ensures Snapshot() == FailImport(old(Snapshot()), ActionForbidden)
      ensures JobSound(Snapshot()) && Evolves(old(Snapshot()), Snapshot()) && !Open(state)
    {
      FailImportKeeps(Snapshot(), ActionForbidden);
      hide JobSound, Evolves;
      Fail(ActionForbidden);
    }

    lemma ChunksStay(a: Job, b: Job)
      requires Evolves(a, b)
      ensures |b.rows| == |a.rows| && |b.chunks| == |a.chunks|
      ensures forall k | 0 <= k < |a.chunks| :: a.chunks[k].start == b.chunks[k].start && a.chunks[k].end == b.chunks[k].end
    {
    }
  }
}
