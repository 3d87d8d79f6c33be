/**
 One CSV import job: chunks of rows advanced by leased workers, one transaction for each row, and the terminal counts.
 Rows are numbered from 0, so row `i` is data row `i + 1` of the file.
 */
module ImportModel {
  import opened Wrappers
  import opened Fencing

  const CHUNK_ROWS := 250
  const MAX_ATTEMPTS := 3

  datatype Code =
    | ActionForbidden | RetryExhausted | ValueInvalid | AccountForbidden | RowConflict
  datatype Outcome = Pending | Accepted(record: nat) | Rejected(code: Code)

  datatype JobState = Validated | Queued | Running | Succeeded | PartiallyFailed | Failed | Cancelled
  datatype ChunkState = Waiting | Claimed | Completed | Abandoned
  datatype Chunk = Chunk(
    start: nat, end: nat, state: ChunkState, attempt: nat, worker: Option<Fence>, leaseRevision: nat, leaseExpiresAt: int)

  datatype Transition = Transition(from: JobState, to: JobState, revision: nat)
  datatype Evidence = Evidence(state: JobState, revision: nat, accepted: nat, rejected: nat, failure: Option<Code>)

  /** `records` maps each record this job created to the row its genesis audit names. */
  datatype Job = Job(
    state: JobState, revision: nat, rows: seq<Outcome>, chunks: seq<Chunk>,
    accepted: nat, rejected: nat, diagnostics: map<nat, Code>, artifact: Option<map<nat, Code>>,
    records: map<nat, nat>, recordSequence: nat,
    audit: seq<Transition>, receipt: Option<Evidence>,
    authorized: bool, expiresAt: int, live: LiveFence)

  predicate Terminal(s: JobState) { s == Succeeded || s == PartiallyFailed || s == Failed || s == Cancelled }
  predicate Open(s: JobState) { s == Queued || s == Running }

  // ---------- dry run ----------

  function ChunkCount(rows: nat): nat { (rows + CHUNK_ROWS - 1) / CHUNK_ROWS }

  function ChunkAt(rows: nat, k: nat): (c: Chunk)
    requires k < ChunkCount(rows)
    ensures c.start < c.end <= rows && c.end <= c.start + CHUNK_ROWS
  {
    Chunk(k * CHUNK_ROWS, if (k + 1) * CHUNK_ROWS < rows then (k + 1) * CHUNK_ROWS else rows, Waiting, 0, None, 1, 0)
  }

  function ChunksFor(rows: nat): (r: seq<Chunk>)
    ensures |r| == ChunkCount(rows)
  {
    seq(ChunkCount(rows), k requires 0 <= k < ChunkCount(rows) => ChunkAt(rows, k))
  }

  predicate InChunk(c: Chunk, row: nat) { c.start <= row < c.end }

  /** A validated job: rows the parser refused are rejected from the start, with their diagnostics. */
  function DryRun(parsed: seq<Option<Code>>, live: LiveFence, expiresAt: int): Job {
    Job(Validated, 2, seq(|parsed|, i requires 0 <= i < |parsed| => if parsed[i].Some? then Rejected(parsed[i].value) else Pending),
        ChunksFor(|parsed|), 0, Count(parsed), map i | 0 <= i < |parsed| && parsed[i].Some? :: parsed[i].value, None,
        map[], 1, [], None, true, expiresAt, live)
  }

  function Count(parsed: seq<Option<Code>>): nat
    decreases |parsed|
  {
    if parsed == [] then 0 else Count(parsed[1..]) + if parsed[0].Some? then 1 else 0
  }

  // ---------- transitions of the job ----------

  function Moved(job: Job, to: JobState): Job {
    job.(state := to, revision := job.revision + 1, audit := job.audit + [Transition(job.state, to, job.revision + 1)])
  }

  /** The owner commits a validated job to the queue. */
  function Commit(job: Job, expectedRevision: nat): Job {
    if job.state == Validated && job.revision == expectedRevision then Moved(job, Queued) else job
  }

  function Abandon(c: Chunk): Chunk {
    if c.state == Waiting || c.state == Claimed then c.(state := Abandoned, worker := None) else c
  }

  function AbandonAll(chunks: seq<Chunk>): (r: seq<Chunk>)
    ensures |r| == |chunks|
    ensures forall k | 0 <= k < |chunks| :: r[k] == Abandon(chunks[k])
  {
    seq(|chunks|, k requires 0 <= k < |chunks| => Abandon(chunks[k]))
  }

  /** Cancelling leaves the rows as they are. */
  function Cancel(job: Job, expectedRevision: nat): Job {
    if (job.state == Validated || job.state == Queued) && job.revision == expectedRevision then
      var cancelled := Moved(job, Cancelled);
      cancelled.(chunks := AbandonAll(job.chunks),
                 receipt := Some(Evidence(Cancelled, cancelled.revision, job.accepted, job.rejected, None)))
    else job
  }

  function AcceptedCount(rows: seq<Outcome>): nat
    decreases |rows|
  {
    if rows == [] then 0 else AcceptedCount(rows[1..]) + if rows[0].Accepted? then 1 else 0
  }

  function RejectedCount(rows: seq<Outcome>): nat
    decreases |rows|
  {
    if rows == [] then 0 else RejectedCount(rows[1..]) + if rows[0].Rejected? then 1 else 0
  }

  /** The terminal update: counts, state, diagnostics artifact and receipt in one commit. */
  function Finish(job: Job, state: JobState, failure: Option<Code>): Job {
    var moved := Moved(job, state);
    var accepted, rejected := AcceptedCount(job.rows), RejectedCount(job.rows);
    moved.(accepted := accepted, rejected := rejected,
           artifact := if job.diagnostics == map[] then job.artifact else Some(job.diagnostics),
           receipt := Some(Evidence(state, moved.revision, accepted, rejected, failure)))
  }

  function Reject(outcome: Outcome, code: Code): Outcome { if outcome.Pending? then Rejected(code) else outcome }

  function RejectPending(rows: seq<Outcome>, code: Code): (r: seq<Outcome>)
    ensures |r| == |rows|
    ensures forall i | 0 <= i < |rows| :: r[i] == Reject(rows[i], code)
  {
    seq(|rows|, i requires 0 <= i < |rows| => Reject(rows[i], code))
  }

  /** Earlier diagnostics win; rows rejected with `code` get theirs if they have none. */
  function Diagnosed(diagnostics: map<nat, Code>, rows: seq<Outcome>, code: Code): map<nat, Code> {
    (map i | 0 <= i < |rows| && rows[i] == Rejected(code) :: code) + diagnostics
  }

  /** Every pending row is rejected, every unfinished chunk abandoned; accepted rows stay. */
  function FailImport(job: Job, code: Code): Job {
    if !Open(job.state) then job
    else
      var rows := RejectPending(job.rows, code);
      Finish(job.(rows := rows, diagnostics := Diagnosed(job.diagnostics, rows, code), chunks := AbandonAll(job.chunks)),
        if exists r <- rows :: r.Accepted? then PartiallyFailed else Failed, Some(code))
  }

  /** A job fails from `running`, also when it was only queued. */
  function TerminalFailure(job: Job, code: Code): Job {
    FailImport(if job.state == Queued then Moved(job, Running) else job, code)
  }

  // ---------- claiming a chunk ----------

  predicate Claimable(job: Job, k: nat, fence: Fence, now: int) {
    k < |job.chunks| && Open(job.state) && job.expiresAt > now && IsLive(job.live, fence, now) &&
    (job.chunks[k].state == Waiting || (job.chunks[k].state == Claimed && job.chunks[k].leaseExpiresAt <= now))
  }

  function ClaimChunk(job: Job, k: nat, fence: Fence, lease: nat, now: int): Job {
    if !Claimable(job, k, fence, now) then job
    else
      var c := job.chunks[k];
      if !job.authorized then TerminalFailure(job, ActionForbidden)
      else if c.attempt + 1 > MAX_ATTEMPTS then TerminalFailure(job, RetryExhausted)
      else
        var claimed := job.(chunks := job.chunks[k := c.(state := Claimed, attempt := c.attempt + 1, worker := Some(fence),
                                                         leaseRevision := c.leaseRevision + 1, leaseExpiresAt := now + lease)]);
        if job.state == Queued then Moved(claimed, Running) else claimed
  }

  // ---------- executing a chunk ----------

  /**
   A worker inside one chunk: the lease it read, the row it is at, and whether it will now fail the job.  It decides that
   in one transaction and does it in another, which checks no fence.
   */
  datatype Session = Session(chunk: nat, fence: Fence, leaseRevision: nat, next: nat, doomed: bool)

  predicate Holds(job: Job, s: Session, now: int) {
    s.chunk < |job.chunks| && job.authorized && IsLive(job.live, s.fence, now) &&
    var c := job.chunks[s.chunk];
    c.state == Claimed && c.worker == Some(s.fence) && c.leaseRevision == s.leaseRevision && c.leaseExpiresAt > now
  }

  /** What the value check and the insert of a pending row came to. */
  datatype Effect = Insert | Refuse(code: Code)

  function AcceptRow(job: Job, row: nat): (r: Job)
    requires row < |job.rows|
    ensures |r.rows| == |job.rows| && r.rows[row].Accepted?
  {
    var id := job.recordSequence;
    job.(rows := job.rows[row := Accepted(id)], records := job.records[id := row], recordSequence := id + 1)
  }

  function RefuseRow(job: Job, row: nat, code: Code): (r: Job)
    requires row < |job.rows|
    ensures |r.rows| == |job.rows| && r.rows[row].Rejected?
  {
    job.(rows := job.rows[row := Rejected(code)], diagnostics := job.diagnostics[row := code])
  }

  /** How a row or completion transaction ended: committed, or rolled back, with the job to be failed or not. */
  datatype RowEnd = Committed | Lost | Doomed

  /** After losing the claim: a worker whose own fence is still live goes on to fail the job. */
  function LostClaim(job: Job, s: Session, now: int): RowEnd { if IsLive(job.live, s.fence, now) then Doomed else Lost }

  /** One row transaction; `intact` says whether upload, mapping, digests and grants still check out. */
  function CommitRow(job: Job, s: Session, effect: Effect, intact: bool, now: int): (Job, RowEnd) {
    if !Holds(job, s, now) || !intact || s.next >= |job.rows| then (job, LostClaim(job, s, now))
    else if !job.rows[s.next].Pending? then (job, Committed)
    else match effect
      case Insert => (AcceptRow(job, s.next), Committed)
      case Refuse(code) => (RefuseRow(job, s.next, code), Committed)
  }

  predicate AllCompleted(chunks: seq<Chunk>) { forall c <- chunks :: c.state == Completed }

  /** The chunk is completed; the last one completes the job. */
  function CompleteChunk(job: Job, s: Session, now: int): (Job, RowEnd) {
    if !Holds(job, s, now) then (job, LostClaim(job, s, now))
    else
      var done := job.(chunks := job.chunks[s.chunk := job.chunks[s.chunk].(state := Completed, worker := None)]);
      if AllCompleted(done.chunks) && job.state == Running then
        (Finish(done, if exists r <- done.rows :: r.Rejected? then PartiallyFailed else Succeeded, None), Committed)
      else (done, Committed)
  }

  // ---------- runs ----------

  /** The job and the workers that are inside one of its chunks. */
  datatype System = System(job: Job, sessions: seq<Option<Session>>)

  datatype Step =
    | CommitStep(expectedRevision: nat)
    | CancelStep(expectedRevision: nat)
    | ClaimStep(chunk: nat, fence: Fence, lease: nat, now: int)
    | BeginStep(chunk: nat, fence: Fence, intact: bool)
    | RowStep(sid: nat, effect: Effect, intact: bool, now: int)
    | CompleteStep(sid: nat, now: int)
    | FailStep(sid: nat)
    | CrashStep(sid: nat)
    | Environment(authorized: bool, live: LiveFence, recordSequence: nat)

  /** A worker enters a chunk with the lease it reads there; a mapping that no longer checks out dooms the job at once. */
  function Begin(job: Job, k: nat, fence: Fence, intact: bool): Option<Session> {
    if k < |job.chunks| then Some(Session(k, fence, job.chunks[k].leaseRevision, job.chunks[k].start, !intact)) else None
  }

  function Apply(sys: System, step: Step): System {
    match step
    case CommitStep(revision) => sys.(job := Commit(sys.job, revision))
    case CancelStep(revision) => sys.(job := Cancel(sys.job, revision))
    case ClaimStep(k, fence, lease, now) => sys.(job := ClaimChunk(sys.job, k, fence, lease, now))
    case BeginStep(k, fence, intact) => sys.(sessions := sys.sessions + [Begin(sys.job, k, fence, intact)])
    case Environment(authorized, live, recordSequence) =>
      sys.(job := sys.job.(authorized := authorized, live := if Succeeds(sys.job.live, live) then live else sys.job.live,
                           recordSequence := if recordSequence > sys.job.recordSequence then recordSequence else sys.job.recordSequence))
    case _ =>
      if step.sid >= |sys.sessions| || sys.sessions[step.sid].None? then sys else SessionStep(sys, step, sys.sessions[step.sid].value)
  }

  /** Rows in order, then the completion: a worker completes a chunk only after its own pass over all of its rows. */
  function SessionStep(sys: System, step: Step, s: Session): System
    requires step.RowStep? || step.CompleteStep? || step.FailStep? || step.CrashStep?
    requires step.sid < |sys.sessions|
  {
    match step
    case RowStep(sid, effect, intact, now) =>
      if s.doomed || s.chunk >= |sys.job.chunks| || s.next >= sys.job.chunks[s.chunk].end then sys
      else
        var (job, end) := CommitRow(sys.job, s, effect, intact, now);
        System(job, sys.sessions[sid := AfterRow(s, end)])
    case CompleteStep(sid, now) =>
      if s.doomed || s.chunk >= |sys.job.chunks| || s.next < sys.job.chunks[s.chunk].end then sys
      else
        var (job, end) := CompleteChunk(sys.job, s, now);
        System(job, sys.sessions[sid := if end.Doomed? then Some(s.(doomed := true)) else None])
    case FailStep(sid) =>
      if s.doomed then System(FailImport(sys.job, ActionForbidden), sys.sessions[sid := None]) else sys
    case CrashStep(sid) => sys.(sessions := sys.sessions[sid := None])
  }

  function AfterRow(s: Session, end: RowEnd): Option<Session> {
    match end
    case Committed => Some(s.(next := s.next + 1))
    case Doomed => Some(s.(doomed := true))
    case Lost => None
  }

  function Run(sys: System, steps: seq<Step>): System
    decreases |steps|
  {
    if steps == [] then sys else Apply(Run(sys, steps[..|steps| - 1]), steps[|steps| - 1])
  }
}
