/**
 The tables of the CRM workflow engine and what each of its transactions does to them,
 for one application and environment.

 Digests (`sha`) are injective, so a digest is represented by the value it was taken of.
 Times are milliseconds.  A transaction has one `now()` of the database and one reading
 `at` of the worker's own clock; nothing relates the clocks of different transactions.
 */
module WorkflowModel {
  import opened Wrappers
  import opened Fencing

  const BATCH_SIZE := 16
  const HARD_CALL_CAP := 32
  const MAX_ATTEMPTS := 3
  const LEASE_MILLIS := 30_000
  const RETRY_STEP_SECONDS := 15

  datatype Kind = Task | Notification | Reminder
  datatype State = Queued | Running | Succeeded | DeadLetter
  datatype Origin = Absent | At(state: State)
  datatype FailureCode =
    | AuthRecheckFailed | ScopeRecheckFailed | TargetMissing
    | EffectFailed | IdempotencyConflict | RetryExhausted

  predicate Terminal(s: State) { s == Succeeded || s == DeadLetter }

  // ---------- outbox ----------

  datatype EventType = TriggerEvent(kind: Kind) | ExecutionChanged | DomainChanged(kind: Kind) | OtherType
  datatype MessageClass = DurableWorkflow | DurableIntegration

  /** Event ids are unique in the outbox.  The first three are minted by this engine from a digest. */
  datatype EventId =
    | TransitionId(execution: nat, revision: nat)
    | ConflictId(execution: nat, revision: nat)
    | DomainId(kind: Kind, key: EffectKey)
    | ExternalId(name: string)

  /** The digest of the source event and of everything parsed from it. */
  datatype EffectKey = EffectKey(source: EventId, digest: Envelope)

  datatype IdempotencyKey =
    | SourceKey(source: EventId)
    | TransitionKey(execution: nat, revision: nat)
    | OverrideKey(event: EventId)

  datatype Trigger = Trigger(
    workflow: Kind, version: int, effect: Kind, targetId: nat, targetRevision: int,
    actorId: string, recipientId: string, ownerId: string,
    authorizationRevision: int, lifecycleRevision: int, scopeRevision: int,
    acceptedAt: int, scheduledAt: Option<int>)

  datatype Payload =
    | TriggerPayload(trigger: Trigger)
    | TransitionPayload(execution: nat, state: State, revision: nat, key: IdempotencyKey, failure: Option<FailureCode>)
    | DomainPayload(effect: EffectKey, execution: nat)
    | OpaquePayload(tag: int)

  /** `header` is false when a fixed header field (schema version, plugin, actor type, ...) is not the expected constant. */
  datatype Envelope = Envelope(
    eventType: EventType, messageClass: MessageClass, occurredAt: int, actorId: string, header: bool, payload: Payload)

  predicate EngineId(id: EventId) { !id.ExternalId? }

  // ---------- rows ----------

  datatype AuditEntry = AuditEntry(
    from: Origin, to: State, revision: nat, attempt: nat, occurredAt: int, key: IdempotencyKey, failure: Option<FailureCode>)

  datatype Execution = Execution(
    id: nat, source: EventId, sourceDigest: Envelope, key: EffectKey, trigger: Trigger,
    state: State, attempt: nat, revision: nat, audit: seq<AuditEntry>, failure: Option<FailureCode>, nextAttemptAt: int,
    worker: Option<Fence>, leaseRevision: nat, leaseExpiresAt: Option<int>)

  datatype TriggerReceipt = Accepted(execution: nat) | Rejected

  /** A task, notification or reminder created by the engine. */
  datatype DomainEffect = DomainEffect(key: EffectKey, kind: Kind, targetId: nat, recipientId: string, dueAt: Option<int>)

  // ---------- the business records an effect rechecks ----------

  datatype Scope = Scope(active: bool, mutationAllowed: bool, revision: int)
  datatype Opportunity = Opportunity(revision: int, ownerId: string, active: bool, inActiveProposalStage: bool)
  datatype Lead = Lead(revision: int, ownerId: string, active: bool)
  datatype Activity = Activity(revision: int, actorId: string, scheduled: bool, scheduledAt: int)
  datatype World = World(
    authorizationRevision: int, lifecycleRevision: int, scopes: map<string, Scope>,
    opportunities: map<nat, Opportunity>, leads: map<nat, Lead>, activities: map<nat, Activity>)

  datatype Db = Db(
    executions: map<nat, Execution>, sequence: nat,
    ledger: map<(nat, nat), AuditEntry>,
    outbox: map<EventId, Envelope>,
    triggerReceipts: map<EventId, TriggerReceipt>,
    effectReceipts: map<EffectKey, nat>,
    effects: seq<DomainEffect>,
    world: World, live: Option<LiveFence>)

  /** How a statement or a transaction ended: a value, or the error it threw. */
  datatype Outcome<+T> = Done(value: T) | Collision | TransitionCollision | Failed
  datatype Tx<+T> = Tx(db: Db, outcome: Outcome<T>)
  datatype Clock = Clock(now: int, at: int)

  /** Rolling back restores every table; sequences are never rolled back. */
  function Rollback(saved: Db, current: Db): Db { saved.(sequence := current.sequence) }

  predicate LockLive(db: Db, fence: Fence, now: int) {
    db.live.Some? && IsLive(db.live.value, fence, now)
  }

  // ---------- transitions ----------

  datatype Options = Options(
    attempt: nat, failure: Option<FailureCode>, nextAttemptSeconds: nat, fence: Option<Fence>, eventId: Option<EventId>)

  function Entry(row: Execution, from: State, to: State, o: Options, at: int): AuditEntry {
    AuditEntry(At(from), to, row.revision + 1, o.attempt, at,
      if o.eventId.Some? then OverrideKey(o.eventId.value) else TransitionKey(row.id, row.revision + 1), o.failure)
  }

  /** The outbox id under which the event of an audit entry is written. */
  function EventIdOf(execution: nat, entry: AuditEntry): EventId {
    if entry.key.OverrideKey? then entry.key.event else TransitionId(execution, entry.revision)
  }

  function TransitionEnvelope(row: Execution, entry: AuditEntry): Envelope {
    Envelope(ExecutionChanged, DurableIntegration, entry.occurredAt, row.trigger.actorId, true,
      TransitionPayload(row.id, entry.to, entry.revision, entry.key, entry.failure))
  }

  /** The insert that accepts an identical prior event and rejects a different one. */
  function InsertWorkflowEvent(db: Db, row: Execution, entry: AuditEntry): Tx<()> {
    var id, envelope := EventIdOf(row.id, entry), TransitionEnvelope(row, entry);
    if id !in db.outbox then Tx(db.(outbox := db.outbox[id := envelope]), Done(()))
    else if db.outbox[id] == envelope then Tx(db, Done(()))
    else Tx(db, TransitionCollision)
  }

  function Advanced(current: Execution, entry: AuditEntry, o: Options, now: int): Execution {
    var moved := current.(state := entry.to, revision := entry.revision, audit := current.audit + [entry],
                          failure := o.failure, attempt := o.attempt);
    if entry.to == Running && o.fence.Some? then
      moved.(worker := o.fence, leaseRevision := current.leaseRevision + 1,
             leaseExpiresAt := Some(now + LEASE_MILLIS), nextAttemptAt := now)
    else
      moved.(worker := None, leaseExpiresAt := None, nextAttemptAt := now + o.nextAttemptSeconds * 1000)
  }

  predicate CasHolds(db: Db, row: Execution, from: State) {
    row.id in db.executions &&
    var current := db.executions[row.id];
    current.state == from && current.revision == row.revision && |current.audit| == current.revision
  }

  /** Row, ledger row, outbox event, in that order; a collision leaves the earlier writes for the caller to roll back. */
  function AppendTransition(db: Db, row: Execution, from: State, to: State, o: Options, clock: Clock): Tx<Execution> {
    if !CasHolds(db, row, from) then Tx(db, Failed)
    else
      var entry := Entry(row, from, to, o, clock.at);
      var next := Advanced(db.executions[row.id], entry, o, clock.now);
      var written := db.(executions := db.executions[row.id := next]);
      if (row.id, entry.revision) in db.ledger then Tx(written, Collision)
      else
        var recorded := written.(ledger := db.ledger[(row.id, entry.revision) := entry]);
        var published := InsertWorkflowEvent(recorded, next, entry);
        match published.outcome
        case Done(_) => Tx(published.db, Done(next))
        case _ => Tx(published.db, TransitionCollision)
  }

  // ---------- ingestion ----------

  function ParseTrigger(event: Envelope): (r: Option<Trigger>) {
    if !event.payload.TriggerPayload? then None
    else
      var t := event.payload.trigger;
      if && event.header && event.messageClass == DurableWorkflow && event.actorId == t.actorId
         && event.eventType == TriggerEvent(t.workflow) && t.version == 1 && t.effect == t.workflow
         && t.targetRevision >= 1 && t.authorizationRevision >= 1 && t.lifecycleRevision >= 0 && t.scopeRevision >= 1
         && (t.workflow == Reminder <==> t.scheduledAt.Some?)
         && (if t.workflow == Reminder then t.recipientId == t.actorId else t.recipientId == t.ownerId)
      then Some(t) else None
  }

  /** The rows the trigger scan may return. */
  predicate Ingestible(db: Db, id: EventId) {
    id in db.outbox && db.outbox[id].messageClass == DurableWorkflow && db.outbox[id].eventType.TriggerEvent? &&
    id !in db.triggerReceipts
  }

  function InitialEntry(source: EventId, t: Trigger): AuditEntry {
    AuditEntry(Absent, Queued, 1, 0, t.acceptedAt, SourceKey(source), None)
  }

  function NewExecution(id: nat, source: EventId, event: Envelope, t: Trigger, now: int): Execution {
    Execution(id, source, event, EffectKey(source, event), t, Queued, 0, 1, [InitialEntry(source, t)], None, now, None, 0, None)
  }

  function InsertTriggerReceipt(db: Db, source: EventId, receipt: TriggerReceipt): Tx<()> {
    if source in db.triggerReceipts then Tx(db, Collision)
    else Tx(db.(triggerReceipts := db.triggerReceipts[source := receipt]), Done(()))
  }

  /** The execution of a source event among the ids below `bound`; sources are unique, so at most one row matches. */
  function FindExecution(db: Db, source: EventId, bound: nat): (r: Option<nat>)
    ensures r.Some? ==> r.value in db.executions && db.executions[r.value].source == source
  {
    if bound == 0 then None
    else if bound - 1 in db.executions && db.executions[bound - 1].source == source then Some(bound - 1)
    else FindExecution(db, source, bound - 1)
  }

  /** One scanned event: the number of executions it created, or the error that aborts the whole ingestion. */
  function IngestOne(db: Db, source: EventId, clock: Clock): Tx<nat>
    requires source in db.outbox
  {
    var event := db.outbox[source];
    var parsed := ParseTrigger(event);
    if parsed.None? then Receipted(InsertTriggerReceipt(db, source, Rejected), 0)
    else
      match FindExecution(db, source, db.sequence)
      case None => CreateExecution(db, source, event, parsed.value, clock)
      case Some(id) =>
        if db.executions[id].sourceDigest != event || db.executions[id].key != EffectKey(source, event) then Tx(db, Collision)
        else Receipted(InsertTriggerReceipt(db, source, Accepted(id)), 0)
  }

  function Receipted(receipt: Tx<()>, created: nat): Tx<nat> {
    Tx(receipt.db, if receipt.outcome.Done? then Done(created) else Collision)
  }

  function CreateExecution(db: Db, source: EventId, event: Envelope, t: Trigger, clock: Clock): Tx<nat> {
    var id := db.sequence;
    var advanced := db.(sequence := id + 1);
    var row := NewExecution(id, source, event, t, clock.now);
    if id in db.executions || (id, 1) in db.ledger then Tx(advanced, Failed)
    else
      var created := advanced.(executions := db.executions[id := row], ledger := db.ledger[(id, 1) := row.audit[0]]);
      var published := InsertWorkflowEvent(created, row, row.audit[0]);
      if !published.outcome.Done? then Tx(published.db, TransitionCollision)
      else Receipted(InsertTriggerReceipt(published.db, source, Accepted(id)), 1)
  }

  /** The scanned events in order, inside one transaction; the value counts the executions created. */
  function IngestAll(db: Db, offered: seq<EventId>, clock: Clock): Tx<nat>
    decreases |offered|
  {
    if offered == [] then Tx(db, Done(0))
    else if offered[0] !in db.outbox then IngestAll(db, offered[1..], clock)
    else
      var one := IngestOne(db, offered[0], clock);
      if !one.outcome.Done? then one
      else
        var rest := IngestAll(one.db, offered[1..], clock);
        if rest.outcome.Done? then Tx(rest.db, Done(one.outcome.value + rest.outcome.value)) else rest
  }

  /** The unlocked outbox rows, in id order, that the scan keeps. */
  function SelectTriggers(db: Db, visible: seq<EventId>, limit: nat): seq<EventId>
    decreases |visible|
  {
    if visible == [] || limit == 0 then []
    else if Ingestible(db, visible[0]) then [visible[0]] + SelectTriggers(db, visible[1..], limit - 1)
    else SelectTriggers(db, visible[1..], limit)
  }

  function Ingest(db: Db, fence: Fence, visible: seq<EventId>, clock: Clock): Tx<nat> {
    if !LockLive(db, fence, clock.now) then Tx(db, Done(0))
    else Settled(db, IngestAll(db, SelectTriggers(db, visible, BATCH_SIZE), clock))
  }

  /** Commit on a value, roll back on an error. */
  function Settled<T>(saved: Db, tx: Tx<T>): Tx<T> {
    if tx.outcome.Done? then tx else Tx(Rollback(saved, tx.db), tx.outcome)
  }
}
