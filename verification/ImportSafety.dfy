/** Conservation of import rows over every run: crashes between rows, takeovers, failures and cancellations. */
module ImportSafety {
  import opened Wrappers
  import opened Fencing
  import opened ImportModel

  // ---------- chunks cover the rows ----------

  /** Each row lies in exactly one chunk. */
  lemma ChunksPartitionRows(rows: nat, i: nat)
    requires i < rows
    ensures i / CHUNK_ROWS < ChunkCount(rows) && InChunk(ChunksFor(rows)[i / CHUNK_ROWS], i)
    ensures forall k: nat | k < ChunkCount(rows) :: InChunk(ChunksFor(rows)[k], i) ==> k == i / CHUNK_ROWS
  {
  }

  // ---------- counting ----------

  lemma {:induction false} CountsSplitRows(rows: seq<Outcome>)
    requires forall r <- rows :: !r.Pending?
    ensures AcceptedCount(rows) + RejectedCount(rows) == |rows|
    decreases |rows|
  {
    if rows != [] {
      assert rows == [rows[0]] + rows[1..];
      CountsSplitRows(rows[1..]);
    }
  }

  lemma {:induction false} CountsAreZeroIffNone(rows: seq<Outcome>)
    ensures AcceptedCount(rows) == 0 <==> forall r <- rows :: !r.Accepted?
    ensures RejectedCount(rows) == 0 <==> forall r <- rows :: !r.Rejected?
    decreases |rows|
  {
    if rows != [] {
      assert rows == [rows[0]] + rows[1..];
      CountsAreZeroIffNone(rows[1..]);
    }
  }

  lemma {:induction false} OneMoreAccepted(rows: seq<Outcome>, i: nat, record: nat)
    requires i < |rows| && rows[i].Pending?
    ensures AcceptedCount(rows[i := Accepted(record)]) == AcceptedCount(rows) + 1
    decreases |rows|
  {
    var after := rows[i := Accepted(record)];
    if i == 0 {
      assert after[1..] == rows[1..];
    } else {
      assert after[1..] == rows[1..][i - 1 := Accepted(record)];
      OneMoreAccepted(rows[1..], i - 1, record);
    }
  }

  lemma {:induction false} SameAccepted(a: seq<Outcome>, b: seq<Outcome>)
    requires |a| == |b| && forall i | 0 <= i < |a| :: a[i].Accepted? <==> b[i].Accepted?
    ensures AcceptedCount(a) == AcceptedCount(b)
    decreases |a|
  {
    if a != [] { SameAccepted(a[1..], b[1..]); }
  }

  // ---------- invariants ----------

  /** Accepted rows and created records are in one-to-one correspondence. */
  ghost predicate RecordsExact(job: Job) { RecordsMatch(job) && |job.records| == AcceptedCount(job.rows) }

  ghost predicate RecordsMatch(job: Job) {
    && (forall id <- job.records ::
          id < job.recordSequence && job.records[id] < |job.rows| && job.rows[job.records[id]] == Accepted(id))
    && (forall i | 0 <= i < |job.rows| :: job.rows[i].Accepted? ==>
          job.rows[i].record in job.records && job.records[job.rows[i].record] == i)
  }

  /** Rejected rows and diagnostics name each other. */
  ghost predicate DiagnosticsExact(job: Job) {
    && (forall i <- job.diagnostics :: i < |job.rows| && job.rows[i] == Rejected(job.diagnostics[i]))
    && (forall i | 0 <= i < |job.rows| :: job.rows[i].Rejected? ==> i in job.diagnostics)
  }

  ghost predicate Processed(rows: seq<Outcome>, from: nat, to: nat) {
    to <= |rows| && forall i | from <= i < to :: !rows[i].Pending?
  }

  ghost predicate ChunkSound(job: Job, k: nat)
    requires k < |job.chunks|
  {
    var c := job.chunks[k];
    && k < ChunkCount(|job.rows|) && c.start == ChunkAt(|job.rows|, k).start && c.end == ChunkAt(|job.rows|, k).end
    && c.attempt <= MAX_ATTEMPTS
    && (c.state == Claimed <==> c.worker.Some?) && (c.state == Claimed ==> c.attempt >= 1)
    && (c.state == Completed ==> Processed(job.rows, c.start, c.end))
    && (c.state == Claimed || c.state == Completed ==> job.state != Validated && job.state != Queued)
    && (c.state == Abandoned ==> Terminal(job.state))
    && (Terminal(job.state) ==> c.state == Completed || c.state == Abandoned)
  }

  ghost predicate ChunksSound(job: Job) {
    |job.chunks| == ChunkCount(|job.rows|) && forall k: nat | k < |job.chunks| :: ChunkSound(job, k)
  }

  /** One audit entry for each revision after validation, each starting where the one before ended. */
  ghost predicate AuditSound(job: Job) {
    && job.revision == 2 + |job.audit|
    && (forall i | 0 <= i < |job.audit| :: job.audit[i].revision == 3 + i)
    && (|job.audit| > 0 ==> job.audit[0].from == Validated)
    && (forall i | 1 <= i < |job.audit| :: job.audit[i].from == job.audit[i - 1].to)
    && job.state == (if |job.audit| == 0 then Validated else job.audit[|job.audit| - 1].to)
    && (match job.state case Validated => |job.audit| == 0 case Queued => |job.audit| == 1 case Running => |job.audit| == 2
        case _ => |job.audit| <= 3)
  }

  /** Counts, state and receipt of an ended job. */
  ghost predicate EndSound(job: Job) {
    && (!Terminal(job.state) <==> job.receipt.None?)
    && (Terminal(job.state) && job.state != Cancelled ==>
          Processed(job.rows, 0, |job.rows|) &&
          job.accepted == AcceptedCount(job.rows) && job.rejected == RejectedCount(job.rows))
    && (job.receipt.Some? ==>
          var e := job.receipt.value;
          e.state == job.state && e.revision == job.revision && e.accepted == job.accepted && e.rejected == job.rejected)
    && (job.state == Succeeded ==> job.rejected == 0)
    && (job.state == Failed ==> job.accepted == 0)
    && (job.state == Running ==> !AllCompleted(job.chunks))
  }

  ghost predicate JobSound(job: Job) {
    RecordsExact(job) && DiagnosticsExact(job) && ChunksSound(job) && AuditSound(job) && EndSound(job)
  }

  /** A worker has left no pending row behind it. */
  ghost predicate SessionSound(job: Job, s: Session) {
    && s.chunk < |job.chunks| && job.chunks[s.chunk].start <= s.next <= job.chunks[s.chunk].end
    && Processed(job.rows, job.chunks[s.chunk].start, s.next)
  }

  ghost predicate Sound(sys: System) {
    JobSound(sys.job) && forall s <- sys.sessions :: s.Some? ==> SessionSound(sys.job, s.value)
  }

  /** Rows leave `pending` once; records stay; an ended job never changes. */
  ghost predicate Evolves(a: Job, b: Job) {
    && |a.rows| == |b.rows| && (forall i | 0 <= i < |a.rows| :: a.rows[i].Pending? || b.rows[i] == a.rows[i])
    && |a.chunks| == |b.chunks|
    && (forall k | 0 <= k < |a.chunks| :: a.chunks[k].start == b.chunks[k].start && a.chunks[k].end == b.chunks[k].end)
    && (forall id <- a.records :: id in b.records && b.records[id] == a.records[id])
    && a.audit <= b.audit
    && (Terminal(a.state) ==>
          b == a.(authorized := b.authorized, live := b.live, recordSequence := b.recordSequence))
  }

  lemma EvolvesTrans(a: Job, b: Job, c: Job)
    requires Evolves(a, b) && Evolves(b, c)
    ensures Evolves(a, c)
  {
  }

  lemma SessionFrame(a: Job, b: Job, s: Session)
    requires SessionSound(a, s) && Evolves(a, b)
    ensures SessionSound(b, s)
  {
    forall i | b.chunks[s.chunk].start <= i < s.next ensures !b.rows[i].Pending? {
      assert !a.rows[i].Pending?;
    }
  }

  lemma SessionsFrame(a: System, job: Job)
    requires Sound(a) && JobSound(job) && Evolves(a.job, job)
    ensures Sound(a.(job := job))
  {
    hide JobSound, Evolves, SessionSound;
    forall s <- a.sessions | s.Some? ensures SessionSound(job, s.value) {
      SessionFrame(a.job, job, s.value);
    }
  }

  // ---------- transitions of the job ----------

  lemma MovedAudit(job: Job, to: JobState)
    requires AuditSound(job)
    requires (job.state == Validated && to == Queued) || (job.state == Queued && to == Running) || (!Terminal(job.state) && Terminal(to))
    ensures AuditSound(Moved(job, to))
  {
  }

  lemma CommitKeeps(job: Job, revision: nat)
    requires JobSound(job)
    ensures JobSound(Commit(job, revision)) && Evolves(job, Commit(job, revision))
  {
    if job.state == Validated && job.revision == revision {
      hide AuditSound, RecordsExact, DiagnosticsExact;
      var after := Commit(job, revision);
      MovedAudit(job, Queued);
      forall k: nat | k < |after.chunks| ensures ChunkSound(after, k) { assert ChunkSound(job, k); }
      RowsFrame(job, after);
    }
  }

  lemma RowsFrame(a: Job, b: Job)
    requires RecordsExact(a) && DiagnosticsExact(a)
    requires b.rows == a.rows && b.records == a.records && b.recordSequence >= a.recordSequence && b.diagnostics == a.diagnostics
    ensures RecordsExact(b) && DiagnosticsExact(b)
  {
  }

  lemma CancelKeeps(job: Job, revision: nat)
    requires JobSound(job)
    ensures JobSound(Cancel(job, revision)) && Evolves(job, Cancel(job, revision))
  {
    if (job.state == Validated || job.state == Queued) && job.revision == revision {
      hide AuditSound, RecordsExact, DiagnosticsExact, ChunksSound, EndSound, Evolves;
      var after := Cancel(job, revision);
      MovedAudit(job, Cancelled);
      AuditFrame(Moved(job, Cancelled), after);
      AbandonedChunks(job, after);
      RowsFrame(job, after);
      CancelledEnd(job, revision);
    }
  }

  lemma CancelledEnd(job: Job, revision: nat)
    requires (job.state == Validated || job.state == Queued) && job.revision == revision
    ensures EndSound(Cancel(job, revision)) && Evolves(job, Cancel(job, revision))
  {
  }

  lemma AbandonedChunks(a: Job, b: Job)
    requires ChunksSound(a) && b.chunks == AbandonAll(a.chunks) && Terminal(b.state)
    requires |b.rows| == |a.rows| && forall i | 0 <= i < |a.rows| :: a.rows[i].Pending? || !b.rows[i].Pending?
    ensures ChunksSound(b)
  {
    forall k: nat | k < |b.chunks| ensures ChunkSound(b, k) {
      assert ChunkSound(a, k);
      assert b.chunks[k] == Abandon(a.chunks[k]);
    }
  }

  lemma AuditFrame(a: Job, b: Job)
    requires AuditSound(a) && a.audit == b.audit && a.state == b.state && a.revision == b.revision
    ensures AuditSound(b)
  {
  }

  // ---------- failing ----------

  lemma FailImportKeeps(job: Job, code: Code)
    requires JobSound(job)
    ensures JobSound(FailImport(job, code)) && Evolves(job, FailImport(job, code))
    ensures Open(job.state) ==> Terminal(FailImport(job, code).state)
  {
    hide AuditSound, RecordsExact, RecordsMatch, DiagnosticsExact, ChunksSound, EndSound, Evolves, FailImport, Processed, AcceptedCount, RejectedCount;
    if Open(job.state) {
      var after := FailImport(job, code);
      FailShape(job, code);
      FailedAudit(job, code);
      AbandonedChunks(job, after);
      FailedRecords(job, after, code);
      FailedDiagnostics(job, after, code);
      FailedEnd(job, code);
    } else {
      EndedIsNotFailed(job, code);
    }
  }

  lemma EndedIsNotFailed(job: Job, code: Code)
    requires !Open(job.state)
    ensures FailImport(job, code) == job && Evolves(job, FailImport(job, code))
  {
  }

  lemma FailShape(job: Job, code: Code)
    requires Open(job.state)
    ensures var after := FailImport(job, code);
            && after.rows == RejectPending(job.rows, code) && after.chunks == AbandonAll(job.chunks)
            && after.diagnostics == Diagnosed(job.diagnostics, after.rows, code)
            && after.records == job.records && after.recordSequence == job.recordSequence
            && Terminal(after.state)
  {
  }

  lemma FailedAudit(job: Job, code: Code)
    requires AuditSound(job) && Open(job.state)
    ensures AuditSound(FailImport(job, code))
  {
    hide AuditSound;
    var after := FailImport(job, code);
    MovedAudit(job, after.state);
    AuditFrame(Moved(job, after.state), after);
  }

  lemma FailedEnd(job: Job, code: Code)
    requires Open(job.state)
    ensures EndSound(FailImport(job, code)) && Evolves(job, FailImport(job, code))
  {
    hide AcceptedCount, RejectedCount;
    CountsAreZeroIffNone(RejectPending(job.rows, code));
  }

  lemma FailedRecords(a: Job, b: Job, code: Code)
    requires RecordsExact(a) && b.rows == RejectPending(a.rows, code)
    requires b.records == a.records && b.recordSequence == a.recordSequence
    ensures RecordsExact(b)
  {
    SameAccepted(a.rows, b.rows);
    forall i | 0 <= i < |b.rows| && b.rows[i].Accepted?
      ensures b.rows[i].record in b.records && b.records[b.rows[i].record] == i
    {
      assert a.rows[i].Accepted?;
    }
  }

  lemma FailedDiagnostics(a: Job, b: Job, code: Code)
    requires DiagnosticsExact(a) && b.rows == RejectPending(a.rows, code)
    requires b.diagnostics == Diagnosed(a.diagnostics, b.rows, code)
    ensures DiagnosticsExact(b)
  {
    forall i <- b.diagnostics ensures i < |b.rows| && b.rows[i] == Rejected(b.diagnostics[i]) {
      if i in a.diagnostics { assert a.rows[i] == Rejected(a.diagnostics[i]); }
    }
    forall i | 0 <= i < |b.rows| && b.rows[i].Rejected? ensures i in b.diagnostics {
      if a.rows[i].Rejected? { assert i in a.diagnostics; }
    }
  }

  lemma StartedKeeps(job: Job, k: nat)
    requires JobSound(job) && job.state == Queued && k < |job.chunks|
    ensures JobSound(Moved(job, Running)) && Evolves(job, Moved(job, Running))
  {
    hide AuditSound, RecordsExact, DiagnosticsExact;
    var after := Moved(job, Running);
    MovedAudit(job, Running);
    forall k: nat | k < |after.chunks| ensures ChunkSound(after, k) { assert ChunkSound(job, k); }
    RowsFrame(job, after);
    assert ChunkSound(job, k) && job.chunks[k] in after.chunks;
  }

  lemma TerminalFailureKeeps(job: Job, k: nat, code: Code)
    requires JobSound(job) && Open(job.state) && k < |job.chunks|
    ensures JobSound(TerminalFailure(job, code)) && Evolves(job, TerminalFailure(job, code))
  {
    hide JobSound, Evolves, FailImport;
    if job.state == Queued {
      StartedKeeps(job, k);
      FailImportKeeps(Moved(job, Running), code);
      EvolvesTrans(job, Moved(job, Running), TerminalFailure(job, code));
    } else {
      FailImportKeeps(job, code);
    }
  }

  // ---------- claiming ----------

  lemma ClaimKeeps(job: Job, k: nat, fence: Fence, lease: nat, now: int)
    requires JobSound(job)
    ensures JobSound(ClaimChunk(job, k, fence, lease, now)) && Evolves(job, ClaimChunk(job, k, fence, lease, now))
  {
    EvolvesRefl(job);
    hide JobSound, Evolves, TerminalFailure;
    if Claimable(job, k, fence, now) {
      var c := job.chunks[k];
      if !job.authorized {
        TerminalFailureKeeps(job, k, ActionForbidden);
      } else if c.attempt + 1 > MAX_ATTEMPTS {
        TerminalFailureKeeps(job, k, RetryExhausted);
      } else if job.state == Queued {
        StartedKeeps(job, k);
        ClaimedChunk(Moved(job, Running), k, fence, now + lease);
        EvolvesTrans(job, Moved(job, Running), ClaimChunk(job, k, fence, lease, now));
      } else {
        ClaimedChunk(job, k, fence, now + lease);
      }
    }
  }

  lemma ClaimedChunk(job: Job, k: nat, fence: Fence, leaseExpiresAt: int)
    requires JobSound(job) && job.state == Running && k < |job.chunks|
    requires job.chunks[k].attempt < MAX_ATTEMPTS && (job.chunks[k].state == Waiting || job.chunks[k].state == Claimed)
    ensures var c := job.chunks[k];
            var after := job.(chunks := job.chunks[k := c.(state := Claimed, attempt := c.attempt + 1, worker := Some(fence),
                                                           leaseRevision := c.leaseRevision + 1, leaseExpiresAt := leaseExpiresAt)]);
            JobSound(after) && Evolves(job, after)
  {
    hide AuditSound, RecordsExact, DiagnosticsExact;
    var c := job.chunks[k];
    var after := job.(chunks := job.chunks[k := c.(state := Claimed, attempt := c.attempt + 1, worker := Some(fence),
                                                   leaseRevision := c.leaseRevision + 1, leaseExpiresAt := leaseExpiresAt)]);
    forall j: nat | j < |after.chunks| ensures ChunkSound(after, j) { assert ChunkSound(job, j); }
    RowsFrame(job, after);
    AuditFrame(job, after);
    assert after.chunks[k] in after.chunks;
  }

  // ---------- one row ----------

  lemma AcceptKeeps(job: Job, row: nat)
    requires JobSound(job) && row < |job.rows| && job.rows[row].Pending? && job.state == Running
    ensures JobSound(AcceptRow(job, row)) && Evolves(job, AcceptRow(job, row))
  {
    hide AuditSound, ChunksSound, RecordsExact, DiagnosticsExact, AcceptedCount;
    var after := AcceptRow(job, row);
    ChunksAfterRow(job, after, row);
    AuditFrame(job, after);
    assert job.recordSequence !in job.records by { RecordsAreMatched(job); FreshRecord(job); }
    AcceptedRecords(job, row);
    AcceptedDiagnostics(job, row);
  }

  lemma AcceptedDiagnostics(job: Job, row: nat)
    requires DiagnosticsExact(job) && row < |job.rows| && job.rows[row].Pending?
    ensures DiagnosticsExact(AcceptRow(job, row))
  {
  }

  lemma AcceptedRecords(job: Job, row: nat)
    requires RecordsExact(job) && row < |job.rows| && job.rows[row].Pending?
    ensures RecordsExact(AcceptRow(job, row))
  {
    hide RecordsMatch, AcceptedCount;
    FreshRecord(job);
    OneMoreAccepted(job.rows, row, job.recordSequence);
    OneMoreRecord(job.records, job.recordSequence, row);
    AcceptedMatch(job, row);
  }

  lemma AcceptedMatch(job: Job, row: nat)
    requires RecordsMatch(job) && row < |job.rows| && job.rows[row].Pending?
    ensures RecordsMatch(AcceptRow(job, row))
  {
  }

  lemma RecordsAreMatched(job: Job)
    requires RecordsExact(job)
    ensures RecordsMatch(job)
  {
  }

  lemma FreshRecord(job: Job)
    requires RecordsMatch(job)
    ensures job.recordSequence !in job.records
  {
  }

  lemma OneMoreRecord(records: map<nat, nat>, id: nat, row: nat)
    ensures id !in records ==> |records[id := row]| == |records| + 1
  {
    if id !in records {
      assert records[id := row].Keys == records.Keys + {id};
      assert |records[id := row].Keys| == |records[id := row]|;
    }
  }

  lemma RefuseKeeps(job: Job, row: nat, code: Code)
    requires JobSound(job) && row < |job.rows| && job.rows[row].Pending? && job.state == Running
    ensures JobSound(RefuseRow(job, row, code)) && Evolves(job, RefuseRow(job, row, code))
  {
    hide AuditSound, ChunksSound, RecordsExact, DiagnosticsExact, AcceptedCount;
    var after := RefuseRow(job, row, code);
    ChunksAfterRow(job, after, row);
    AuditFrame(job, after);
    RefusedRecords(job, row, code);
    RefusedDiagnostics(job, row, code);
  }

  lemma RefusedRecords(job: Job, row: nat, code: Code)
    requires RecordsExact(job) && row < |job.rows| && job.rows[row].Pending?
    ensures RecordsExact(RefuseRow(job, row, code))
  {
    SameAccepted(job.rows, RefuseRow(job, row, code).rows);
  }

  lemma RefusedDiagnostics(job: Job, row: nat, code: Code)
    requires DiagnosticsExact(job) && row < |job.rows| && job.rows[row].Pending?
    ensures DiagnosticsExact(RefuseRow(job, row, code))
  {
  }

  lemma ChunksAfterRow(a: Job, b: Job, row: nat)
    requires ChunksSound(a) && row < |a.rows| && b.chunks == a.chunks && b.state == a.state
    requires |b.rows| == |a.rows| && !b.rows[row].Pending? && forall i | 0 <= i < |a.rows| :: i != row ==> b.rows[i] == a.rows[i]
    ensures ChunksSound(b)
  {
    forall k: nat | k < |b.chunks| ensures ChunkSound(b, k) { assert ChunkSound(a, k); }
  }

  /** A row transaction: the row is no longer pending, or nothing happened. */
  lemma RowKeeps(job: Job, s: Session, effect: Effect, intact: bool, now: int)
    requires JobSound(job) && SessionSound(job, s) && s.next < job.chunks[s.chunk].end
    ensures var (after, end) := CommitRow(job, s, effect, intact, now);
            && JobSound(after) && Evolves(job, after)
            && (end.Committed? ==> SessionSound(after, s.(next := s.next + 1)))
            && (!end.Committed? ==> after == job)
  {
    hide RecordsExact, DiagnosticsExact, AuditSound, EndSound, Evolves, AcceptRow, RefuseRow;
    assert ChunkSound(job, s.chunk);
    EvolvesRefl(job);
    if Holds(job, s, now) && intact {
      assert job.state == Running by { ClaimedIsRunning(job, s.chunk); }
      if job.rows[s.next].Pending? {
        match effect {
          case Insert =>
            AcceptKeeps(job, s.next);
            StepPastRow(job, AcceptRow(job, s.next), s);
          case Refuse(code) =>
            RefuseKeeps(job, s.next, code);
            StepPastRow(job, RefuseRow(job, s.next, code), s);
        }
      } else {
        StepPastRow(job, job, s);
      }
    }
  }

  lemma EvolvesRefl(job: Job)
    ensures Evolves(job, job)
  {
  }

  lemma ClaimedIsRunning(job: Job, k: nat)
    requires JobSound(job) && k < |job.chunks| && job.chunks[k].state == Claimed
    ensures job.state == Running
  {
    assert ChunkSound(job, k);
  }

  lemma StepPastRow(a: Job, b: Job, s: Session)
    requires SessionSound(a, s) && Evolves(a, b) && s.next < a.chunks[s.chunk].end && s.next < |b.rows| && !b.rows[s.next].Pending?
    ensures SessionSound(b, s.(next := s.next + 1))
  {
    SessionFrame(a, b, s);
  }

  // ---------- completing a chunk ----------

  lemma CompleteKeeps(job: Job, s: Session, now: int)
    requires JobSound(job) && SessionSound(job, s) && s.next == job.chunks[s.chunk].end
    ensures JobSound(CompleteChunk(job, s, now).0) && Evolves(job, CompleteChunk(job, s, now).0)
  {
    hide RecordsExact, DiagnosticsExact, AuditSound, Evolves, Finish;
    EvolvesRefl(job);
    if Holds(job, s, now) {
      ClaimedIsRunning(job, s.chunk);
      var done := job.(chunks := job.chunks[s.chunk := job.chunks[s.chunk].(state := Completed, worker := None)]);
      CompletedChunks(job, done, s);
      CompletedRest(job, done);
      if AllCompleted(done.chunks) {
        LastChunkEnds(job, done);
      }
    }
  }

  lemma CompletedChunks(job: Job, done: Job, s: Session)
    requires ChunksSound(job) && SessionSound(job, s) && s.next == job.chunks[s.chunk].end && job.state == Running
    requires done == job.(chunks := job.chunks[s.chunk := job.chunks[s.chunk].(state := Completed, worker := None)])
    ensures ChunksSound(done) && Evolves(job, done)
  {
    forall k: nat | k < |done.chunks| ensures ChunkSound(done, k) { assert ChunkSound(job, k); }
  }

  lemma CompletedRest(job: Job, done: Job)
    requires JobSound(job) && done == job.(chunks := done.chunks)
    ensures RecordsExact(done) && DiagnosticsExact(done) && AuditSound(done)
  {
    hide ChunksSound;
    RowsFrame(job, done);
    AuditFrame(job, done);
  }

  /** When the last chunk completes, no row is pending and the counts are final. */
  lemma LastChunkEnds(job: Job, done: Job)
    requires ChunksSound(done) && AllCompleted(done.chunks) && done.state == Running && done.receipt.None?
    requires RecordsExact(done) && DiagnosticsExact(done) && AuditSound(done)
    requires done == job.(chunks := done.chunks) && Evolves(job, done)
    ensures var state := if exists r <- done.rows :: r.Rejected? then PartiallyFailed else Succeeded;
            JobSound(Finish(done, state, None)) && Evolves(job, Finish(done, state, None))
  {
    hide RecordsExact, DiagnosticsExact, AuditSound;
    var state := if exists r <- done.rows :: r.Rejected? then PartiallyFailed else Succeeded;
    var after := Finish(done, state, None);
    NoRowPending(done);
    CountsAreZeroIffNone(done.rows);
    MovedAudit(done, state);
    AuditFrame(Moved(done, state), after);
    RowsFrame(done, after);
    forall k: nat | k < |after.chunks| ensures ChunkSound(after, k) {
      assert ChunkSound(done, k) && done.chunks[k] in done.chunks;
    }
  }

  lemma NoRowPending(job: Job)
    requires ChunksSound(job) && AllCompleted(job.chunks)
    ensures Processed(job.rows, 0, |job.rows|)
  {
    forall i | 0 <= i < |job.rows| ensures !job.rows[i].Pending? {
      ChunksPartitionRows(|job.rows|, i);
      var k := i / CHUNK_ROWS;
      assert ChunkSound(job, k) && job.chunks[k] in job.chunks;
    }
  }

  // ---------- runs ----------

  lemma {:induction false} CountMatches(parsed: seq<Option<Code>>, rows: seq<Outcome>)
    requires |rows| == |parsed| && forall i | 0 <= i < |rows| :: rows[i].Rejected? <==> parsed[i].Some?
    requires forall i | 0 <= i < |rows| :: !rows[i].Accepted?
    ensures RejectedCount(rows) == Count(parsed) && AcceptedCount(rows) == 0
    decreases |rows|
  {
    if rows != [] { CountMatches(parsed[1..], rows[1..]); }
  }

  lemma DryRunIsSound(parsed: seq<Option<Code>>, live: LiveFence, expiresAt: int)
    ensures JobSound(DryRun(parsed, live, expiresAt))
    ensures var job := DryRun(parsed, live, expiresAt); job.rejected == RejectedCount(job.rows)
  {
    var job := DryRun(parsed, live, expiresAt);
    CountMatches(parsed, job.rows);
    forall k: nat | k < |job.chunks| ensures ChunkSound(job, k) {}
    hide ChunksSound;
    assert RecordsExact(job) && DiagnosticsExact(job);
  }

  lemma EnvironmentKeeps(job: Job, authorized: bool, live: LiveFence, sequence: nat)
    requires JobSound(job) && sequence >= job.recordSequence
    ensures var after := job.(authorized := authorized, live := live, recordSequence := sequence);
            JobSound(after) && Evolves(job, after)
  {
    hide AuditSound, RecordsExact, DiagnosticsExact;
    var after := job.(authorized := authorized, live := live, recordSequence := sequence);
    RowsFrame(job, after);
    AuditFrame(job, after);
    forall k: nat | k < |after.chunks| ensures ChunkSound(after, k) { assert ChunkSound(job, k); }
  }

  lemma StepKeeps(sys: System, step: Step)
    requires Sound(sys)
    ensures Sound(Apply(sys, step)) && Evolves(sys.job, Apply(sys, step).job)
  {
    hide JobSound, SessionSound, Evolves, Commit, Cancel, ClaimChunk, CommitRow, CompleteChunk, FailImport, Begin;
    EvolvesRefl(sys.job);
    match step
    case CommitStep(revision) =>
      CommitKeeps(sys.job, revision);
      SessionsFrame(sys, Commit(sys.job, revision));
    case CancelStep(revision) =>
      CancelKeeps(sys.job, revision);
      SessionsFrame(sys, Cancel(sys.job, revision));
    case ClaimStep(k, fence, lease, now) =>
      ClaimKeeps(sys.job, k, fence, lease, now);
      SessionsFrame(sys, ClaimChunk(sys.job, k, fence, lease, now));
    case BeginStep(k, fence, intact) => BeginIsSound(sys.job, k, fence, intact);
    case Environment(authorized, live, sequence) =>
      var job := Apply(sys, step).job;
      EnvironmentKeeps(sys.job, job.authorized, job.live, job.recordSequence);
      SessionsFrame(sys, job);
    case _ => SessionStepKeeps(sys, step);
  }

  lemma BeginIsSound(job: Job, k: nat, fence: Fence, intact: bool)
    requires JobSound(job)
    ensures var s := Begin(job, k, fence, intact); s.Some? ==> SessionSound(job, s.value)
  {
    if k < |job.chunks| { assert ChunkSound(job, k); }
  }

  lemma SessionStepKeeps(sys: System, step: Step)
    requires Sound(sys) && (step.RowStep? || step.CompleteStep? || step.FailStep? || step.CrashStep?)
    ensures Sound(Apply(sys, step)) && Evolves(sys.job, Apply(sys, step).job)
  {
    hide JobSound, SessionSound, Evolves, CommitRow, CompleteChunk, FailImport;
    EvolvesRefl(sys.job);
    var sid := step.sid;
    if sid < |sys.sessions| && sys.sessions[sid].Some? {
      var s := sys.sessions[sid].value;
      assert sys.sessions[sid] in sys.sessions;
      DoomedIsSound(sys.job, s);
      match step
      case RowStep(_, effect, intact, now) =>
        if !s.doomed && s.chunk < |sys.job.chunks| && s.next < sys.job.chunks[s.chunk].end {
          RowKeeps(sys.job, s, effect, intact, now);
          SessionsFrame(sys, CommitRow(sys.job, s, effect, intact, now).0);
        }
      case CompleteStep(_, now) =>
        if !s.doomed && s.chunk < |sys.job.chunks| && s.next >= sys.job.chunks[s.chunk].end {
          AtTheEnd(sys.job, s);
          CompleteKeeps(sys.job, s, now);
          var job := CompleteChunk(sys.job, s, now).0;
          SessionsFrame(sys, job);
          SessionFrame(sys.job, job, s);
          DoomedIsSound(job, s);
        }
      case FailStep(_) =>
        FailImportKeeps(sys.job, ActionForbidden);
        SessionsFrame(sys, FailImport(sys.job, ActionForbidden));
      case CrashStep(_) =>
    }
  }

  lemma DoomedIsSound(job: Job, s: Session)
    requires SessionSound(job, s)
    ensures SessionSound(job, s.(doomed := true))
  {
  }

  lemma AtTheEnd(job: Job, s: Session)
    requires SessionSound(job, s) && s.next >= job.chunks[s.chunk].end
    ensures s.next == job.chunks[s.chunk].end
  {
  }

  lemma {:induction false} RunKeeps(sys: System, steps: seq<Step>)
    requires Sound(sys)
    ensures Sound(Run(sys, steps)) && Evolves(sys.job, Run(sys, steps).job)
    decreases |steps|
  {
    hide Sound, Evolves, Apply;
    EvolvesRefl(sys.job);
    if steps != [] {
      var n := |steps| - 1;
      RunKeeps(sys, steps[..n]);
      StepKeeps(Run(sys, steps[..n]), steps[n]);
      EvolvesTrans(sys.job, Run(sys, steps[..n]).job, Run(sys, steps).job);
    }
  }

  /** The import of a parsed file after any run of owners, workers, crashes and promotions. */
  function Reached(parsed: seq<Option<Code>>, live: LiveFence, expiresAt: int, steps: seq<Step>): Job {
    Run(System(DryRun(parsed, live, expiresAt), []), steps).job
  }

  lemma ReachedIsSound(parsed: seq<Option<Code>>, live: LiveFence, expiresAt: int, steps: seq<Step>)
    ensures JobSound(Reached(parsed, live, expiresAt, steps))
    ensures Evolves(DryRun(parsed, live, expiresAt), Reached(parsed, live, expiresAt, steps))
  {
    hide JobSound, Evolves;
    DryRunIsSound(parsed, live, expiresAt);
    RunKeeps(System(DryRun(parsed, live, expiresAt), []), steps);
  }

  /** Conservation: an ended import accounts for every row of the file, and its state says how. */
  lemma EndedImportAccountsForEveryRow(parsed: seq<Option<Code>>, live: LiveFence, expiresAt: int, steps: seq<Step>)
    ensures var job := Reached(parsed, live, expiresAt, steps);
            && |job.rows| == |parsed|
            && (job.state in {Succeeded, PartiallyFailed, Failed} ==>
                  && (forall r <- job.rows :: !r.Pending?)
                  && job.accepted == AcceptedCount(job.rows) == |job.records|
                  && job.rejected == RejectedCount(job.rows)
                  && job.accepted + job.rejected == |parsed|
                  && job.receipt.Some? && job.receipt.value.accepted == job.accepted && job.receipt.value.rejected == job.rejected)
            && (job.state == Succeeded ==> job.rejected == 0 && forall r <- job.rows :: r.Accepted?)
            && (job.state == Failed ==> job.accepted == 0 && forall r <- job.rows :: r.Rejected?)
  {
    var job := Reached(parsed, live, expiresAt, steps);
    ReachedIsSound(parsed, live, expiresAt, steps);
    hide Reached, ChunksSound, AuditSound, DiagnosticsExact;
    if job.state in {Succeeded, PartiallyFailed, Failed} {
      CountsSplitRows(job.rows);
      CountsAreZeroIffNone(job.rows);
    }
  }

  /** Each accepted row has exactly one record, each record of the job exactly one row, and each rejected row its diagnostic. */
  lemma RowsAndRecordsCorrespond(parsed: seq<Option<Code>>, live: LiveFence, expiresAt: int, steps: seq<Step>, i: nat)
    requires i < |parsed|
    ensures var job := Reached(parsed, live, expiresAt, steps);
            && |job.rows| == |parsed|
            && (job.rows[i].Accepted? <==> i in job.records.Values)
            && (forall a, b | a in job.records && b in job.records :: job.records[a] == i == job.records[b] ==> a == b)
            && (job.rows[i].Rejected? <==> i in job.diagnostics)
            && (job.rows[i].Rejected? ==> job.diagnostics[i] == job.rows[i].code)
  {
    ReachedIsSound(parsed, live, expiresAt, steps);
    hide Reached, ChunksSound, AuditSound, EndSound;
  }

  /** A row leaves `pending` at most once, and what it became is final. */
  lemma RowsSettleOnce(sys: System, steps: seq<Step>, i: nat)
    requires Sound(sys) && i < |sys.job.rows| && !sys.job.rows[i].Pending?
    ensures i < |Run(sys, steps).job.rows| && Run(sys, steps).job.rows[i] == sys.job.rows[i]
  {
    RunKeeps(sys, steps);
    hide Sound;
  }

  /** An ended import never changes again, whatever stale workers still try. */
  lemma EndIsFinal(sys: System, steps: seq<Step>)
    requires Sound(sys) && sys.job.state != Validated && sys.job.state != Queued && sys.job.state != Running
    ensures var job := Run(sys, steps).job;
            job == sys.job.(authorized := job.authorized, live := job.live, recordSequence := job.recordSequence)
  {
    RunKeeps(sys, steps);
    hide Sound;
  }

  /** Committing or cancelling at a revision the job has left changes nothing, ever after. */
  lemma LeftRevisionIsRefused(sys: System, steps: seq<Step>, revision: nat)
    requires Sound(sys) && sys.job.revision > revision
    ensures var job := Run(sys, steps).job; Commit(job, revision) == job && Cancel(job, revision) == job
  {
    RunKeeps(sys, steps);
    hide RecordsExact, DiagnosticsExact, ChunksSound, EndSound, Run;
  }

  /** So repeating a commit or a cancellation that went through is refused by its revision guard. */
  lemma RepeatedRequestIsRefused(sys: System, steps: seq<Step>, step: Step, revision: nat)
    requires Sound(sys) && (step == CommitStep(revision) || step == CancelStep(revision)) && Apply(sys, step).job != sys.job
    ensures var job := Run(Apply(sys, step), steps).job; Commit(job, revision) == job && Cancel(job, revision) == job
  {
    StepKeeps(sys, step);
    hide Sound;
    LeftRevisionIsRefused(Apply(sys, step), steps, revision);
  }

  /** The audit is a chain from `validated` with one entry for each later revision; chunks are tried at most three times. */
  lemma AuditIsAChain(parsed: seq<Option<Code>>, live: LiveFence, expiresAt: int, steps: seq<Step>)
    ensures var job := Reached(parsed, live, expiresAt, steps);
            && AuditSound(job) && job.revision <= 5
            && (forall c <- job.chunks :: c.attempt <= 3)
            && (job.state == Running ==> exists c <- job.chunks :: c.state == Waiting || c.state == Claimed)
  {
    ReachedIsSound(parsed, live, expiresAt, steps);
    var job := Reached(parsed, live, expiresAt, steps);
    hide Reached, RecordsExact, DiagnosticsExact;
    forall c <- job.chunks ensures c.attempt <= MAX_ATTEMPTS && (job.state == Running ==> c.state != Abandoned) {
      var k :| 0 <= k < |job.chunks| && job.chunks[k] == c;
      assert ChunkSound(job, k);
    }
  }

  lemma FailCounts(job: Job, code: Code)
    requires Open(job.state)
    ensures var after := FailImport(job, code);
            var rows := RejectPending(job.rows, code);
            && after.rejected == RejectedCount(rows)
            && (after.state == PartiallyFailed <==> exists r <- rows :: r.Accepted?)
  {
  }

  /** Partial failure does not mean that a row was rejected: a job can fail after its last row was accepted. */
  lemma PartialFailureWithoutRejection(job: Job, code: Code)
    requires Open(job.state)
    ensures var after := FailImport(job, code);
            after.state == PartiallyFailed && after.rejected == 0 <==>
              |job.rows| > 0 && forall r <- job.rows :: r.Accepted?
  {
    hide FailImport;
    var rows := RejectPending(job.rows, code);
    FailCounts(job, code);
    CountsAreZeroIffNone(rows);
    if forall r <- job.rows :: r.Accepted? {
      forall r <- rows ensures r.Accepted? {
        var i :| 0 <= i < |rows| && rows[i] == r;
        assert job.rows[i] in job.rows;
      }
    } else {
      var i :| 0 <= i < |job.rows| && !job.rows[i].Accepted?;
      assert rows[i].Rejected? && rows[i] in rows;
    }
    if |job.rows| > 0 { assert rows[0] in rows; }
  }
}
