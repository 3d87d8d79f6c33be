/** The transactions that advance an execution: claim, execute, record a failure; and runs of them. */
module WorkflowTransactions {
  import opened Wrappers
  import opened Fencing
  import opened WorkflowModel

  // ---------- claiming ----------

  datatype Lane = Exhausted | Claimable

  predicate LeaseExpired(row: Execution, now: int) { row.leaseExpiresAt.Some? && row.leaseExpiresAt.value <= now }

  /** The two selections of a claim batch. */
  predicate Eligible(lane: Lane, row: Execution, now: int) {
    match lane
    case Exhausted => row.state == Running && LeaseExpired(row, now) && row.attempt >= MAX_ATTEMPTS
    case Claimable =>
      || (row.state == Queued && row.nextAttemptAt <= now && row.attempt < MAX_ATTEMPTS)
      || (row.state == Running && LeaseExpired(row, now) && row.attempt < MAX_ATTEMPTS)
  }

  /** Ids from `from` on, ascending, skipping rows locked by other transactions, at most `limit` of them. */
  function SelectRows(db: Db, lane: Lane, now: int, locked: set<nat>, from: nat, limit: nat): seq<nat>
    decreases db.sequence - from
  {
    if from >= db.sequence || limit == 0 then []
    else if from in db.executions && from !in locked && Eligible(lane, db.executions[from], now) then
      [from] + SelectRows(db, lane, now, locked, from + 1, limit - 1)
    else SelectRows(db, lane, now, locked, from + 1, limit)
  }

  predicate SourceMatches(db: Db, row: Execution) {
    row.source in db.outbox &&
    var event := db.outbox[row.source];
    ParseTrigger(event) == Some(row.trigger) && event == row.sourceDigest && EffectKey(row.source, event) == row.key
  }

  function ClaimOptions(row: Execution, fence: Fence, eventId: Option<EventId>): Options {
    Options(row.attempt + 1, None, 0, Some(fence), eventId)
  }

  function DeadLetterOptions(row: Execution, failure: FailureCode, eventId: Option<EventId>): Options {
    Options(row.attempt, Some(failure), 0, None, eventId)
  }

  function ConflictEvent(row: Execution): Option<EventId> { Some(ConflictId(row.id, row.revision + 1)) }

  /** The writes of a collision recovery before its own savepoint is settled. */
  function TerminalWrites(db: Db, row: Execution, fence: Fence, clock: Clock): Tx<()> {
    if !LockLive(db, fence, clock.now) then Tx(db, Done(()))
    else if row.id !in db.executions || Terminal(db.executions[row.id].state) then Tx(db, Done(()))
    else if db.executions[row.id].state == Queued then DeadLetterQueued(db, db.executions[row.id], fence, clock)
    else DeadLetterRunning(db, db.executions[row.id], ConflictEvent(db.executions[row.id]), clock)
  }

  /** A queued row passes through `running`, so its history stays a chain of legal transitions. */
  function DeadLetterQueued(db: Db, current: Execution, fence: Fence, clock: Clock): Tx<()> {
    var claimed := AppendTransition(db, current, Queued, Running, ClaimOptions(current, fence, ConflictEvent(current)), clock);
    if claimed.outcome.Done? then DeadLetterRunning(claimed.db, claimed.outcome.value, None, clock) else Discarded(claimed)
  }

  function DeadLetterRunning(db: Db, current: Execution, eventId: Option<EventId>, clock: Clock): Tx<()> {
    Discarded(AppendTransition(db, current, Running, DeadLetter, DeadLetterOptions(current, IdempotencyConflict, eventId), clock))
  }

  function Discarded<T>(tx: Tx<T>): Tx<()> {
    Tx(tx.db, match tx.outcome case Done(_) => Done(()) case Collision => Collision
              case TransitionCollision => TransitionCollision case Failed => Failed)
  }

  /** Dead-letters a collided row under its own savepoint; a second collision leaves the row as it was. */
  function TerminalizeCollision(db: Db, row: Execution, fence: Fence, clock: Clock): Tx<()> {
    var tx := TerminalWrites(db, row, fence, clock);
    match tx.outcome
    case Done(_) => tx
    case Failed => Tx(Rollback(db, tx.db), Failed)
    case _ => Tx(Rollback(db, tx.db), Done(()))
  }

  function AsUnclaimed(tx: Tx<()>): Tx<Option<Execution>> {
    Tx(tx.db, if tx.outcome.Done? then Done(None) else Failed)
  }

  /** An exhausted row was selected `running`, so both lanes move a row from its stored state. */
  function LaneTarget(lane: Lane): State { if lane == Exhausted then DeadLetter else Running }

  function LaneOptions(lane: Lane, row: Execution, fence: Fence): Options {
    if lane == Exhausted then DeadLetterOptions(row, RetryExhausted, None) else ClaimOptions(row, fence, None)
  }

  /** One row of a lane: Some(row) when it was claimed for execution, None otherwise, Failed when the batch aborts. */
  function Visit(db: Db, lane: Lane, row: Execution, fence: Fence, clock: Clock): Tx<Option<Execution>> {
    if !SourceMatches(db, row) then AsUnclaimed(TerminalizeCollision(db, row, fence, clock))
    else IsolatedMove(db, lane, row, fence, clock)
  }

  /** The lane's transition under its own savepoint. */
  function IsolatedMove(db: Db, lane: Lane, row: Execution, fence: Fence, clock: Clock): Tx<Option<Execution>> {
    Isolate(db, AppendTransition(db, row, row.state, LaneTarget(lane), LaneOptions(lane, row, fence), clock), lane, row, fence, clock)
  }

  function Isolate(saved: Db, tx: Tx<Execution>, lane: Lane, row: Execution, fence: Fence, clock: Clock): Tx<Option<Execution>> {
    match tx.outcome
    case Done(next) => Tx(tx.db, Done(if lane == Exhausted then None else Some(next)))
    case TransitionCollision => AsUnclaimed(TerminalizeCollision(Rollback(saved, tx.db), row, fence, clock))
    case Collision => Tx(Rollback(saved, tx.db), Done(None))
    case Failed => Tx(Rollback(saved, tx.db), Failed)
  }

  function VisitAll(db: Db, lane: Lane, rows: seq<Execution>, fence: Fence, clock: Clock): Tx<seq<Execution>>
    decreases |rows|
  {
    if rows == [] then Tx(db, Done([]))
    else
      var one := Visit(db, lane, rows[0], fence, clock);
      if !one.outcome.Done? then Tx(one.db, Failed)
      else
        var rest := VisitAll(one.db, lane, rows[1..], fence, clock);
        if !rest.outcome.Done? then rest
        else Tx(rest.db, Done((if one.outcome.value.Some? then [one.outcome.value.value] else []) + rest.outcome.value))
  }

  function RowsOf(db: Db, ids: seq<nat>): (rows: seq<Execution>)
    requires forall id <- ids :: id in db.executions
    ensures |rows| == |ids| && forall i :: 0 <= i < |ids| ==> rows[i] == db.executions[ids[i]]
  {
    seq(|ids|, i requires 0 <= i < |ids| => db.executions[ids[i]])
  }

  lemma SelectedExist(db: Db, lane: Lane, now: int, locked: set<nat>, from: nat, limit: nat)
    ensures forall id <- SelectRows(db, lane, now, locked, from, limit) ::
      from <= id < db.sequence && id in db.executions && id !in locked && Eligible(lane, db.executions[id], now)
    decreases db.sequence - from
  {
  }

  function SelectedRows(db: Db, lane: Lane, now: int, locked: set<nat>): seq<Execution> {
    SelectedExist(db, lane, now, locked, 0, BATCH_SIZE);
    RowsOf(db, SelectRows(db, lane, now, locked, 0, BATCH_SIZE))
  }

  function ClaimAll(db: Db, fence: Fence, locked: set<nat>, clock: Clock): Tx<seq<Execution>> {
    var exhausted, candidates := SelectedRows(db, Exhausted, clock.now, locked), SelectedRows(db, Claimable, clock.now, locked);
    var first := VisitAll(db, Exhausted, exhausted, fence, clock);
    if !first.outcome.Done? then first else VisitAll(first.db, Claimable, candidates, fence, clock)
  }

  function ClaimBatch(db: Db, fence: Fence, locked: set<nat>, clock: Clock): Tx<seq<Execution>> {
    if !LockLive(db, fence, clock.now) then Tx(db, Done([]))
    else Settled(db, ClaimAll(db, fence, locked, clock))
  }

  // ---------- the effect ----------

  /** What must still be true of the business records; None when the effect may happen. */
  function Recheck(world: World, row: Execution): Option<FailureCode> {
    var t := row.trigger;
    match t.workflow
    case Task =>
      if world.authorizationRevision != t.authorizationRevision || world.lifecycleRevision != t.lifecycleRevision then
        Some(AuthRecheckFailed)
      else if !(t.actorId in world.scopes && world.scopes[t.actorId] == Scope(true, true, t.scopeRevision)) then
        Some(ScopeRecheckFailed)
      else if t.targetId in world.opportunities &&
              world.opportunities[t.targetId] == Opportunity(t.targetRevision, t.ownerId, true, true) then None
      else Some(TargetMissing)
    case Notification =>
      if t.targetId in world.leads && world.leads[t.targetId] == Lead(t.targetRevision, t.ownerId, true) then None
      else Some(TargetMissing)
    case Reminder =>
      if t.scheduledAt.Some? && t.targetId in world.activities &&
         world.activities[t.targetId] == Activity(t.targetRevision, t.actorId, true, t.scheduledAt.value) then None
      else Some(TargetMissing)
  }

  function Max(a: int, b: int): int { if a < b then b else a }

  /** The record an execution creates; a reminder is due 15 minutes early but never before the trigger was accepted. */
  function EffectOf(row: Execution): DomainEffect {
    var t := row.trigger;
    DomainEffect(row.key, t.workflow, t.targetId, if t.workflow == Task then t.ownerId else t.recipientId,
      if t.workflow == Reminder && t.scheduledAt.Some? then Some(Max(t.acceptedAt, t.scheduledAt.value - 900_000)) else None)
  }

  function DomainEnvelope(row: Execution, at: int): Envelope {
    Envelope(DomainChanged(row.trigger.workflow), DurableIntegration, at, row.trigger.actorId, true, DomainPayload(row.key, row.id))
  }

  /** Receipt, record, domain event; the value is the failure code, or None when the effect was created. */
  function CreateEffect(db: Db, row: Execution, at: int): Tx<Option<FailureCode>> {
    var failure := Recheck(db.world, row);
    if failure.Some? then Tx(db, Done(failure))
    else if row.key in db.effectReceipts then Tx(db, Collision)
    else if row.id in db.effectReceipts.Values then Tx(db, Failed)
    else
      var created := db.(effectReceipts := db.effectReceipts[row.key := row.id], effects := db.effects + [EffectOf(row)]);
      var id := DomainId(row.trigger.workflow, row.key);
      if id in db.outbox then Tx(created, Collision)
      else Tx(created.(outbox := db.outbox[id := DomainEnvelope(row, at)]), Done(None))
  }

  // ---------- executing a claimed row ----------

  datatype Verdict = Stale | Executed

  /** The stored row still carries exactly the claim the worker holds. */
  predicate ClaimHeld(db: Db, row: Execution, fence: Fence) {
    row.id in db.executions &&
    var current := db.executions[row.id];
    current.state == Running && current.revision == row.revision && current.leaseRevision == row.leaseRevision &&
    current.worker == Some(fence)
  }

  predicate MayExecute(db: Db, row: Execution, fence: Fence, now: int) {
    LockLive(db, fence, now) && ClaimHeld(db, row, fence) && !LeaseExpired(db.executions[row.id], now)
  }

  function ExecuteWrites(db: Db, row: Execution, fence: Fence, clock: Clock): Tx<Verdict> {
    if !MayExecute(db, row, fence, clock.now) then Tx(db, Done(Stale))
    else
      var current := db.executions[row.id];
      var effect := CreateEffect(db, current, clock.at);
      match effect.outcome
      case Done(failure) =>
        var moved := AppendTransition(effect.db, current, Running, if failure.None? then Succeeded else DeadLetter,
          Options(current.attempt, failure, 0, None, None), clock);
        Tx(moved.db, match moved.outcome case Done(_) => Done(Executed) case Collision => Collision
                     case TransitionCollision => TransitionCollision case Failed => Failed)
      case Collision => Tx(effect.db, Collision)
      case _ => Tx(effect.db, Failed)
  }

  function ExecuteOne(db: Db, row: Execution, fence: Fence, clock: Clock): Tx<Verdict> {
    Settled(db, ExecuteWrites(db, row, fence, clock))
  }

  // ---------- recording a failed execution ----------

  function FailureWrites(db: Db, row: Execution, fence: Fence, code: FailureCode, terminalize: bool, clock: Clock): Tx<()> {
    if !LockLive(db, fence, clock.now) || !ClaimHeld(db, row, fence) then Tx(db, Done(()))
    else
      var current := db.executions[row.id];
      if terminalize then
        Discarded(AppendTransition(db, current, Running, DeadLetter,
          DeadLetterOptions(current, IdempotencyConflict, ConflictEvent(current)), clock))
      else if current.attempt >= MAX_ATTEMPTS then
        Discarded(AppendTransition(db, current, Running, DeadLetter,
          DeadLetterOptions(current, if code == IdempotencyConflict then code else RetryExhausted, None), clock))
      else
        Discarded(AppendTransition(db, current, Running, Queued,
          Options(current.attempt, Some(code), current.attempt * RETRY_STEP_SECONDS, None, None), clock))
  }

  function RecordFailure(db: Db, row: Execution, fence: Fence, code: FailureCode, terminalize: bool, clock: Clock): Tx<()> {
    Settled(db, FailureWrites(db, row, fence, code, terminalize, clock))
  }

  // ---------- runs ----------

  /**
   One committed (or rolled back) transaction of any worker, or a change made by anyone else.  A worker's claimed
   row and fence are arbitrary, so a crash, a stale worker and any interleaving are included.
   */
  datatype Step =
    | IngestStep(fence: Fence, visible: seq<EventId>, clock: Clock)
    | ClaimStep(fence: Fence, locked: set<nat>, clock: Clock)
    | ExecuteStep(row: Execution, fence: Fence, clock: Clock)
    | FailStep(row: Execution, fence: Fence, code: FailureCode, terminalize: bool, clock: Clock)
    | Environment(outbox: map<EventId, Envelope>, world: World, live: Option<LiveFence>)

  /** Others may promote fences, change business records and write the outbox, but keep events stored under minted ids. */
  function Disturbed(db: Db, outbox: map<EventId, Envelope>, world: World, live: Option<LiveFence>): Db {
    db.(outbox := outbox + (map id | id in db.outbox && EngineId(id) :: db.outbox[id]), world := world, live := live)
  }

  function Apply(db: Db, step: Step): Db {
    match step
    case IngestStep(fence, visible, clock) => Ingest(db, fence, visible, clock).db
    case ClaimStep(fence, locked, clock) => ClaimBatch(db, fence, locked, clock).db
    case ExecuteStep(row, fence, clock) => ExecuteOne(db, row, fence, clock).db
    case FailStep(row, fence, code, terminalize, clock) => RecordFailure(db, row, fence, code, terminalize, clock).db
    case Environment(outbox, world, live) => Disturbed(db, outbox, world, live)
  }

  function Run(db: Db, steps: seq<Step>): Db
    decreases |steps|
  {
    if steps == [] then db else Apply(Run(db, steps[..|steps| - 1]), steps[|steps| - 1])
  }

  /** No execution yet; the outbox, the business records and the fence are whatever they are. */
  function Initial(outbox: map<EventId, Envelope>, world: World, live: Option<LiveFence>): Db {
    Db(map[], 1, map[], outbox, map[], map[], [], world, live)
  }
}
