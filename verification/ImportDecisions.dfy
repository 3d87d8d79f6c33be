/** What each import transaction decides, on the fields of the job, its rows and its chunks. */
module ImportDecisions {
  import opened Wrappers
  import opened Fencing
  import opened ImportModel
  import opened ImportSafety

  /** The worker's fence and authority are current, and its chunk carries the lease it read, which still runs. */
  ghost predicate LeaseHeld(job: Job, s: Session, now: int) {
    && job.authorized && job.live.fence == s.fence && job.live.expiresAt > now && s.chunk < |job.chunks|
    && job.chunks[s.chunk].state == Claimed && job.chunks[s.chunk].worker == Some(s.fence)
    && job.chunks[s.chunk].leaseRevision == s.leaseRevision && job.chunks[s.chunk].leaseExpiresAt > now
  }

  /** Row `i` changed, and no other row. */
  ghost predicate OnlyRowChanged(before: Job, after: Job, i: nat) {
    |after.rows| == |before.rows| && forall j | 0 <= j < |before.rows| && j != i :: after.rows[j] == before.rows[j]
  }

  /**
   A pending row under a held, intact claim becomes what it met: inserted, it is accepted with one new record that names
   it; refused, it is rejected with that code and its diagnostic and creates nothing.  Any other row transaction changes
   nothing, and tells a worker whose fence still lives to fail the job when its claim is gone.
   */
  lemma RowsBecomeWhatTheyMeet(job: Job, s: Session, effect: Effect, intact: bool, now: int)
    requires JobSound(job)
    ensures var (after, end) := CommitRow(job, s, effect, intact, now);
            if !LeaseHeld(job, s, now) || !intact || s.next >= |job.rows| then
              after == job && end == if job.live.fence == s.fence && job.live.expiresAt > now then Doomed else Lost
            else if !job.rows[s.next].Pending? then after == job && end == Committed
            else
              && end == Committed && OnlyRowChanged(job, after, s.next)
              && after == job.(rows := after.rows, records := after.records, recordSequence := after.recordSequence,
                               diagnostics := after.diagnostics)
              && match effect
                 case Insert =>
                   var id := job.recordSequence;
                   && after.rows[s.next] == Accepted(id) && id !in job.records
                   && after.records == job.records[id := s.next] && after.recordSequence == id + 1
                   && after.diagnostics == job.diagnostics && s.next !in after.diagnostics
                 case Refuse(code) =>
                   && after.rows[s.next] == Rejected(code) && s.next !in job.diagnostics
                   && after.diagnostics == job.diagnostics[s.next := code]
                   && after.records == job.records && after.recordSequence == job.recordSequence
  {
    RecordsAreMatched(job);
    FreshRecord(job);
    hide RecordsExact, ChunksSound, AuditSound, EndSound;
  }

  // ---------- failing and completing ----------

  /** Ended, with the counts of the rows, its next revision and a receipt that repeats them. */
  ghost predicate EndedAs(before: Job, after: Job, state: JobState, failure: Option<Code>) {
    && after.state == state && after.revision == before.revision + 1
    && after.audit == before.audit + [Transition(before.state, state, before.revision + 1)]
    && after.accepted == AcceptedCount(after.rows) && after.rejected == RejectedCount(after.rows)
    && after.receipt == Some(Evidence(state, after.revision, after.accepted, after.rejected, failure))
    && after.records == before.records && after.recordSequence == before.recordSequence
    && after.artifact == if after.diagnostics == map[] then before.artifact else Some(after.diagnostics)
  }

  /**
   Failing an open job rejects exactly its pending rows, each with the code and a diagnostic, abandons exactly its
   unfinished chunks and keeps every accepted row; the job is partially failed exactly when one was accepted.
   */
  lemma FailingRejectsWhatIsPending(job: Job, code: Code)
    requires JobSound(job) && Open(job.state)
    ensures var after := FailImport(job, code);
            && |after.rows| == |job.rows| && |after.chunks| == |job.chunks|
            && (forall i | 0 <= i < |job.rows| :: after.rows[i] == if job.rows[i].Pending? then Rejected(code) else job.rows[i])
            && (forall k | 0 <= k < |job.chunks| ::
                  after.chunks[k].state == if job.chunks[k].state == Completed then Completed else Abandoned)
            && after.diagnostics.Keys == (set i: nat | 0 <= i < |job.rows| && !job.rows[i].Accepted?)
            && (forall i <- job.diagnostics :: i in after.diagnostics && after.diagnostics[i] == job.diagnostics[i])
            && EndedAs(job, after, if exists i :: 0 <= i < |job.rows| && job.rows[i].Accepted? then PartiallyFailed else Failed, Some(code))
  {
    FailedRows(job, code);
    FailedChunks(job, code);
    FailedKeys(job, code);
    FailedEnds(job, code);
  }

  lemma FailedRows(job: Job, code: Code)
    requires Open(job.state)
    ensures var after := FailImport(job, code);
            && after.rows == RejectPending(job.rows, code) && after.diagnostics == Diagnosed(job.diagnostics, after.rows, code)
            && forall i | 0 <= i < |job.rows| :: after.rows[i] == if job.rows[i].Pending? then Rejected(code) else job.rows[i]
  {
  }

  lemma FailedChunks(job: Job, code: Code)
    requires JobSound(job) && Open(job.state)
    ensures var after := FailImport(job, code);
            && |after.chunks| == |job.chunks|
            && forall k | 0 <= k < |job.chunks| ::
                 after.chunks[k].state == if job.chunks[k].state == Completed then Completed else Abandoned
  {
    hide RecordsExact, DiagnosticsExact, AuditSound, EndSound;
    forall k: nat | k < |job.chunks| ensures job.chunks[k].state != Abandoned { assert ChunkSound(job, k); }
  }

  lemma FailedKeys(job: Job, code: Code)
    requires JobSound(job) && Open(job.state)
    ensures var after := FailImport(job, code);
            && after.diagnostics.Keys == (set i: nat | 0 <= i < |job.rows| && !job.rows[i].Accepted?)
            && (forall i <- job.diagnostics :: i in after.diagnostics && after.diagnostics[i] == job.diagnostics[i])
  {
    hide *;
    FailedRows(job, code);
    SoundDiagnostics(job);
    FailedDiagnostics(job, FailImport(job, code), code);
    RejectedKeys(job, FailImport(job, code));
    EarlierDiagnosticsWin(job.diagnostics, FailImport(job, code).rows, code);
  }

  lemma SoundDiagnostics(job: Job)
    requires JobSound(job)
    ensures DiagnosticsExact(job)
  {
  }

  lemma RejectedKeys(a: Job, b: Job)
    requires DiagnosticsExact(b) && |b.rows| == |a.rows|
    requires forall i | 0 <= i < |a.rows| :: b.rows[i].Rejected? <==> !a.rows[i].Accepted?
    ensures b.diagnostics.Keys == (set i: nat | 0 <= i < |a.rows| && !a.rows[i].Accepted?)
  {
  }

  lemma EarlierDiagnosticsWin(diagnostics: map<nat, Code>, rows: seq<Outcome>, code: Code)
    ensures forall i <- diagnostics :: i in Diagnosed(diagnostics, rows, code) && Diagnosed(diagnostics, rows, code)[i] == diagnostics[i]
  {
  }

  lemma FailedEnds(job: Job, code: Code)
    requires Open(job.state)
    ensures var after := FailImport(job, code);
            EndedAs(job, after, if exists i :: 0 <= i < |job.rows| && job.rows[i].Accepted? then PartiallyFailed else Failed, Some(code))
  {
    hide *;
    var done := Rejecting(job, code);
    var state := if exists r <- done.rows :: r.Accepted? then PartiallyFailed else Failed;
    FailureIsFinish(job, code);
    FinishedAs(done, state, Some(code));
    RejectingKeeps(job, code, FailImport(job, code), state);
    SomeRow(done.rows);
  }

  /** The job just before its terminal update. */
  function Rejecting(job: Job, code: Code): Job {
    var rows := RejectPending(job.rows, code);
    job.(rows := rows, diagnostics := Diagnosed(job.diagnostics, rows, code), chunks := AbandonAll(job.chunks))
  }

  lemma FailureIsFinish(job: Job, code: Code)
    requires Open(job.state)
    ensures FailImport(job, code) ==
            Finish(Rejecting(job, code), if exists r <- Rejecting(job, code).rows :: r.Accepted? then PartiallyFailed else Failed, Some(code))
  {
    hide Finish;
  }

  lemma RejectingKeeps(job: Job, code: Code, after: Job, state: JobState)
    requires EndedAs(Rejecting(job, code), after, state, Some(code))
    ensures EndedAs(job, after, state, Some(code))
    ensures forall i :: 0 <= i < |Rejecting(job, code).rows| && Rejecting(job, code).rows[i].Accepted? <==> 0 <= i < |job.rows| && job.rows[i].Accepted?
  {
  }

  /**
   A chunk is completed exactly under its held lease; with the last one the job ends, succeeded exactly when no row was
   rejected.  Otherwise nothing changes, and a worker whose fence still lives is to fail the job.
   */
  lemma LastChunkEndsTheJob(job: Job, s: Session, now: int)
    requires JobSound(job)
    ensures var (after, end) := CompleteChunk(job, s, now);
            if !LeaseHeld(job, s, now) then
              after == job && end == if job.live.fence == s.fence && job.live.expiresAt > now then Doomed else Lost
            else
              && end == Committed && |after.chunks| == |job.chunks|
              && after.chunks[s.chunk].state == Completed && after.chunks[s.chunk].worker.None?
              && (forall k | 0 <= k < |job.chunks| && k != s.chunk :: after.chunks[k] == job.chunks[k])
              && after.rows == job.rows && after.records == job.records && after.diagnostics == job.diagnostics
              && if exists k :: 0 <= k < |job.chunks| && k != s.chunk && job.chunks[k].state != Completed then
                   after == job.(chunks := after.chunks)
                 else EndedAs(job, after, if exists i :: 0 <= i < |job.rows| && job.rows[i].Rejected? then PartiallyFailed else Succeeded, None)
  {
    hide JobSound, Finish, AllCompleted, EndedAs;
    if LeaseHeld(job, s, now) {
      ClaimedIsRunning(job, s.chunk);
      CompletionIsClosing(job, s, now);
      hide CompleteChunk, LeaseHeld;
      var done, state := Closed(job, s.chunk), if exists r <- job.rows :: r.Rejected? then PartiallyFailed else Succeeded;
      LastOpenChunk(job.chunks, done.chunks, s.chunk);
      SomeRow(job.rows);
      FinishedAs(done, state, None);
      ClosingKeeps(job, s.chunk, Finish(done, state, None), state);
    }
  }

  lemma CompletionIsClosing(job: Job, s: Session, now: int)
    requires LeaseHeld(job, s, now) && job.state == Running
    ensures var done := Closed(job, s.chunk);
            CompleteChunk(job, s, now) ==
            (if AllCompleted(done.chunks) then Finish(done, if exists r <- job.rows :: r.Rejected? then PartiallyFailed else Succeeded, None)
             else done, Committed)
  {
    hide Finish, AllCompleted;
  }

  lemma ClosingKeeps(job: Job, chunk: nat, after: Job, state: JobState)
    requires chunk < |job.chunks| && EndedAs(Closed(job, chunk), after, state, None)
    ensures EndedAs(job, after, state, None)
  {
  }

  function Closed(job: Job, chunk: nat): Job
    requires chunk < |job.chunks|
  {
    job.(chunks := job.chunks[chunk := job.chunks[chunk].(state := Completed, worker := None)])
  }

  lemma FinishedAs(done: Job, state: JobState, failure: Option<Code>)
    ensures var after := Finish(done, state, failure);
            && EndedAs(done, after, state, failure)
            && after.chunks == done.chunks && after.rows == done.rows && after.diagnostics == done.diagnostics
  {
  }

  lemma SomeRow(rows: seq<Outcome>)
    ensures (exists r <- rows :: r.Rejected?) <==> exists i :: 0 <= i < |rows| && rows[i].Rejected?
    ensures (exists r <- rows :: r.Accepted?) <==> exists i :: 0 <= i < |rows| && rows[i].Accepted?
  {
    if i :| 0 <= i < |rows| && rows[i].Rejected? { assert rows[i] in rows; }
    if i :| 0 <= i < |rows| && rows[i].Accepted? { assert rows[i] in rows; }
  }

  lemma LastOpenChunk(chunks: seq<Chunk>, done: seq<Chunk>, at: nat)
    requires at < |chunks| == |done| && done[at].state == Completed && forall k | 0 <= k < |chunks| && k != at :: done[k] == chunks[k]
    ensures AllCompleted(done) <==> !exists k :: 0 <= k < |chunks| && k != at && chunks[k].state != Completed
  {
    if k :| 0 <= k < |chunks| && k != at && chunks[k].state != Completed { assert done[k] in done; }
  }

  // ---------- the owner ----------

  /** A dry run settles exactly the rows its parser refused, each with its diagnostic, and leaves the rest and every chunk waiting. */
  lemma DryRunRejectsWhatTheParserRefused(parsed: seq<Option<Code>>, live: LiveFence, expiresAt: int)
    ensures var job := DryRun(parsed, live, expiresAt);
            && job.state == Validated && job.revision == 2 && |job.rows| == |parsed| && job.expiresAt == expiresAt
            && (forall i | 0 <= i < |parsed| :: job.rows[i] == if parsed[i].Some? then Rejected(parsed[i].value) else Pending)
            && (forall i: nat :: i in job.diagnostics <==> i < |parsed| && parsed[i].Some?)
            && (forall i <- job.diagnostics :: job.diagnostics[i] == parsed[i].value)
            && (forall c <- job.chunks :: c.state == Waiting && c.attempt == 0 && c.worker.None?)
            && job.records == map[] && job.receipt.None? && job.accepted == 0 && job.rejected == RejectedCount(job.rows)
  {
    DryRunIsSound(parsed, live, expiresAt);
    hide JobSound, RejectedCount, Count;
  }

  /**
   The owner queues a validated job, or cancels one that is validated or queued, only at the revision it knows.  Cancelling
   abandons every chunk and leaves every row as it was.
   */
  lemma OwnersMoveTheirRevision(job: Job, expected: nat)
    requires JobSound(job)
    ensures Commit(job, expected) ==
              if job.state != Validated || job.revision != expected then job
              else job.(state := Queued, revision := expected + 1, audit := job.audit + [Transition(Validated, Queued, expected + 1)])
    ensures var after := Cancel(job, expected);
            if (job.state != Validated && job.state != Queued) || job.revision != expected then after == job
            else
              && after.state == Cancelled && after.revision == expected + 1
              && after.audit == job.audit + [Transition(job.state, Cancelled, expected + 1)]
              && after.rows == job.rows && after.records == job.records && after.diagnostics == job.diagnostics
              && |after.chunks| == |job.chunks| && (forall c <- after.chunks :: c.state == Abandoned && c.worker.None?)
              && after.receipt == Some(Evidence(Cancelled, after.revision, job.accepted, job.rejected, None))
  {
    if (job.state == Validated || job.state == Queued) && job.revision == expected {
      hide RecordsExact, DiagnosticsExact, AuditSound, EndSound;
      forall k: nat | k < |job.chunks| ensures job.chunks[k].state == Waiting && job.chunks[k].worker.None? { assert ChunkSound(job, k); }
    }
  }

  // ---------- claiming ----------

  /**
   A waiting chunk, or one whose lease ran out, of an open and unexpired job is claimed under a live fence: one more
   attempt, a new lease, and the job running.  Without authority, or after the third attempt, the job fails instead.
   */
  lemma ClaimStartsOrFails(job: Job, k: nat, fence: Fence, lease: nat, now: int)
    ensures var after := ClaimChunk(job, k, fence, lease, now);
            if k >= |job.chunks| || (job.state != Queued && job.state != Running) || job.expiresAt <= now ||
               job.live.fence != fence || job.live.expiresAt <= now ||
               !(job.chunks[k].state == Waiting || (job.chunks[k].state == Claimed && job.chunks[k].leaseExpiresAt <= now)) then
              after == job
            else if !job.authorized || job.chunks[k].attempt >= 3 then
              var running := if job.state == Queued then Moved(job, Running) else job;
              after == FailImport(running, if !job.authorized then ActionForbidden else RetryExhausted) && after.state != Running
            else
              && after.state == Running && after.rows == job.rows && after.records == job.records && after.diagnostics == job.diagnostics
              && after.revision == (if job.state == Queued then job.revision + 1 else job.revision)
              && |after.chunks| == |job.chunks| && (forall j | 0 <= j < |job.chunks| && j != k :: after.chunks[j] == job.chunks[j])
              && after.chunks[k] == Chunk(job.chunks[k].start, job.chunks[k].end, Claimed, job.chunks[k].attempt + 1, Some(fence),
                                          job.chunks[k].leaseRevision + 1, now + lease)
  {
  }

  // ---------- every settled row has its cause ----------

  /**
   In any step a pending row is settled for one of three reasons: the row transaction of a worker holding its chunk, which
   inserted or refused that very row; the failure of the job by a worker that lost its claim; or a claim that found no
   authority, or no attempt left.
   */
  lemma EveryRowHasItsCause(sys: System, step: Step, i: nat)
    requires JobSound(sys.job) && i < |sys.job.rows| && sys.job.rows[i].Pending?
    ensures i < |Apply(sys, step).job.rows|
    ensures var row := Apply(sys, step).job.rows[i];
            !row.Pending? ==>
              || (step.RowStep? && step.sid < |sys.sessions| && sys.sessions[step.sid].Some? && step.intact &&
                    sys.sessions[step.sid].value.next == i && LeaseHeld(sys.job, sys.sessions[step.sid].value, step.now) &&
                    row == match step.effect case Insert => Accepted(sys.job.recordSequence) case Refuse(code) => Rejected(code))
              || (step.FailStep? && step.sid < |sys.sessions| && sys.sessions[step.sid].Some? && sys.sessions[step.sid].value.doomed &&
                    row == Rejected(ActionForbidden))
              || (step.ClaimStep? && !sys.job.authorized && row == Rejected(ActionForbidden))
              || (step.ClaimStep? && step.chunk < |sys.job.chunks| && sys.job.chunks[step.chunk].attempt >= 3 && row == Rejected(RetryExhausted))
  {
    hide JobSound;
    var job := sys.job;
    match step
    case RowStep(sid, effect, intact, now) =>
      if sid < |sys.sessions| && sys.sessions[sid].Some? {
        RowsBecomeWhatTheyMeet(job, sys.sessions[sid].value, effect, intact, now);
        hide CommitRow, LeaseHeld;
      }
    case ClaimStep(k, fence, lease, now) =>
      ClaimStartsOrFails(job, k, fence, lease, now);
      var running := if job.state == Queued then Moved(job, Running) else job;
      FailSettles(running, ActionForbidden, i);
      FailSettles(running, RetryExhausted, i);
      hide ClaimChunk, FailImport;
    case FailStep(sid) =>
      FailSettles(job, ActionForbidden, i);
      hide FailImport;
    case CompleteStep(sid, now) =>
      if sid < |sys.sessions| && sys.sessions[sid].Some? {
        LastChunkEndsTheJob(job, sys.sessions[sid].value, now);
        hide CompleteChunk, LeaseHeld, EndedAs;
      }
    case _ =>
  }

  lemma FailSettles(job: Job, code: Code, i: nat)
    requires i < |job.rows|
    ensures var after := FailImport(job, code);
            i < |after.rows| && (after.rows[i] == job.rows[i] || (job.rows[i].Pending? && after.rows[i] == Rejected(code)))
  {
    if Open(job.state) { FailedRows(job, code); }
    hide RejectPending;
  }

  /** Between two steps authority may come and go, the fence may be promoted, and others may use record ids. */
  lemma OthersAreUnrestricted(sys: System, authorized: bool, live: LiveFence, recordSequence: nat)
    ensures var after := Apply(sys, Environment(authorized, live, recordSequence)).job;
            && after.authorized == authorized && (Succeeds(sys.job.live, live) ==> after.live == live)
            && (recordSequence >= sys.job.recordSequence ==> after.recordSequence == recordSequence)
            && after == sys.job.(authorized := authorized, live := after.live, recordSequence := after.recordSequence)
  {
  }
}
