/** Which outbox events become executions: the selection of the scan, and the admission of one event on its own fields. */
module WorkflowTriggers {
  import opened Wrappers
  import opened Fencing
  import opened Distinctness
  import opened WorkflowModel
  import opened WorkflowTransactions
  import opened WorkflowInvariants
  import opened WorkflowClaims
  import opened WorkflowIngestion

  /** An event the engine may act on: a known workflow, consistent actors, valid revisions, and the recipient its kind demands. */
  predicate Admissible(event: Envelope) {
    && event.header && event.messageClass == DurableWorkflow && event.payload.TriggerPayload?
    && var t := event.payload.trigger;
    && event.actorId == t.actorId && t.version == 1
    && t.targetRevision > 0 && t.authorizationRevision > 0 && t.scopeRevision > 0 && t.lifecycleRevision >= 0
    && match event.eventType
       case TriggerEvent(Task) => t.workflow == Task && t.effect == Task && t.scheduledAt.None? && t.recipientId == t.ownerId
       case TriggerEvent(Notification) =>
         t.workflow == Notification && t.effect == Notification && t.scheduledAt.None? && t.recipientId == t.ownerId
       case TriggerEvent(Reminder) => t.workflow == Reminder && t.effect == Reminder && t.scheduledAt.Some? && t.recipientId == t.actorId
       case _ => false
  }

  lemma ParsedAreAdmissible(event: Envelope)
    ensures ParseTrigger(event) == if Admissible(event) then Some(event.payload.trigger) else None
  {
  }

  /** An unlocked event the scan must find: a durable trigger without a receipt. */
  predicate Waiting(db: Db, source: EventId) {
    && source in db.outbox && source !in db.triggerReceipts
    && db.outbox[source].messageClass == DurableWorkflow && db.outbox[source].eventType.TriggerEvent?
  }

  /** A scan offers only waiting events, and leaves one out only when the limit was reached before it. */
  lemma {:induction false} SelectionIsComplete(db: Db, visible: seq<EventId>, limit: nat)
    ensures var offered := SelectTriggers(db, visible, limit);
            && |offered| <= limit
            && (forall s <- offered :: s in visible && Waiting(db, s))
            && (forall s <- visible :: Waiting(db, s) && s !in offered ==> |offered| == limit)
    decreases |visible|
  {
    if visible != [] && limit != 0 {
      assert visible == [visible[0]] + visible[1..];
      SelectionIsComplete(db, visible[1..], if Waiting(db, visible[0]) then limit - 1 else limit);
    }
  }

  /** A new execution waits, due at once, with no attempt spent. */
  predicate FreshlyQueued(row: Execution, now: int) {
    row.state == Queued && row.attempt == 0 && row.revision == 1 && row.nextAttemptAt == now && row.worker.None? && row.failure.None?
  }

  ghost predicate NewRowsAreQueued(before: Db, after: Db, now: int) {
    && (forall id <- before.executions :: id in after.executions)
    && (forall id <- after.executions :: id in before.executions || FreshlyQueued(after.executions[id], now))
  }

  /** One event adds at most its own execution. */
  ghost predicate AtMostOneNew(before: Db, after: Db, now: int) {
    || after.executions == before.executions
    || exists id: nat, row :: id !in before.executions && FreshlyQueued(row, now) && after.executions == before.executions[id := row]
  }

  lemma CreatedRowIsQueued(db: Db, source: EventId, event: Envelope, t: Trigger, clock: Clock)
    ensures AtMostOneNew(db, CreateExecution(db, source, event, t, clock).db, clock.now)
  {
    hide InsertWorkflowEvent;
    var row := NewExecution(db.sequence, source, event, t, clock.now);
    EventLeavesRows(db.(sequence := db.sequence + 1, executions := db.executions[db.sequence := row],
                        ledger := db.ledger[(db.sequence, 1) := row.audit[0]]), row, row.audit[0]);
    assert FreshlyQueued(row, clock.now);
    hide NewExecution, FreshlyQueued;
  }

  lemma EventLeavesRows(db: Db, row: Execution, entry: AuditEntry)
    ensures InsertWorkflowEvent(db, row, entry).db.executions == db.executions
  {
  }

  lemma OneEventQueues(db: Db, source: EventId, clock: Clock)
    requires source in db.outbox
    ensures AtMostOneNew(db, IngestOne(db, source, clock).db, clock.now)
  {
    hide ParseTrigger, FindExecution, CreateExecution, FreshlyQueued;
    var parsed := ParseTrigger(db.outbox[source]);
    if parsed.Some? { CreatedRowIsQueued(db, source, db.outbox[source], parsed.value, clock); }
  }

  lemma {:induction false} EventsQueue(db: Db, offered: seq<EventId>, clock: Clock)
    ensures NewRowsAreQueued(db, IngestAll(db, offered, clock).db, clock.now)
    ensures forall id <- db.executions ::
              id in IngestAll(db, offered, clock).db.executions && IngestAll(db, offered, clock).db.executions[id] == db.executions[id]
    decreases |offered|
  {
    hide IngestOne, FreshlyQueued;
    if offered != [] {
      if offered[0] !in db.outbox {
        EventsQueue(db, offered[1..], clock);
      } else {
        OneEventQueues(db, offered[0], clock);
        var one := IngestOne(db, offered[0], clock);
        assert NewRowsAreQueued(db, one.db, clock.now);
        if one.outcome.Done? { EventsQueue(one.db, offered[1..], clock); }
      }
    }
  }

  /**
   A committed ingestion rejects exactly the inadmissible events it was offered; an admissible one has one execution,
   which carries the event, its trigger, and, when it is new, waits with no attempt spent.
   */
  lemma ExactlyAdmissibleEventsAreAccepted(db: Db, fence: Fence, visible: seq<EventId>, clock: Clock, source: EventId)
    requires Sound(db) && Ingest(db, fence, visible, clock).outcome.Done?
    requires db.live.Some? && db.live.value.fence == fence && db.live.value.expiresAt > clock.now
    requires source in SelectTriggers(db, visible, 16)
    ensures source in db.outbox && source in Ingest(db, fence, visible, clock).db.triggerReceipts
    ensures var event, after := db.outbox[source], Ingest(db, fence, visible, clock).db;
            match after.triggerReceipts[source]
            case Rejected => !Admissible(event)
            case Accepted(id) =>
              && Admissible(event) && id in after.executions
              && after.executions[id].source == source && after.executions[id].sourceDigest == event
              && after.executions[id].trigger == event.payload.trigger
              && (id in db.executions || FreshlyQueued(after.executions[id], clock.now))
  {
    hide Sound, TablesEvolve, IngestAll, ParseTrigger, FreshlyQueued, Admissible, SelectTriggers;
    var offered := SelectTriggers(db, visible, BATCH_SIZE);
    SelectionIsComplete(db, visible, BATCH_SIZE);
    IngestIsAllOrNothing(db, fence, visible, clock);
    var after := IngestAll(db, offered, clock).db;
    assert Ingest(db, fence, visible, clock).db == after;
    EventsQueue(db, offered, clock);
    ParsedAreAdmissible(db.outbox[source]);
    assert SettledFor(after, source, db.outbox[source]);
  }

  // ---------- ingestion commits ----------

  /** Nobody has written under the event ids of the next `count` executions. */
  predicate NextEventsFree(db: Db, count: nat) {
    forall id: nat | db.sequence <= id < db.sequence + count :: TransitionId(id, 1) !in db.outbox
  }

  /** What one settled event leaves for the next ones. */
  lemma OneEventCommits(db: Db, source: EventId, count: nat, clock: Clock)
    requires Sound(db) && source in db.outbox && source !in db.triggerReceipts && count > 0 && NextEventsFree(db, count)
    ensures var tx := IngestOne(db, source, clock);
            && tx.outcome.Done? && Sound(tx.db) && NextEventsFree(tx.db, count - 1)
            && tx.db.triggerReceipts.Keys == db.triggerReceipts.Keys + {source} && db.outbox.Keys <= tx.db.outbox.Keys
  {
    hide Sound, ParseTrigger, CreateExecution, Ingested;
    IngestOneKeeps(db, source, clock);
    UnreceiptedIsNew(db, source);
    var parsed := ParseTrigger(db.outbox[source]);
    if parsed.Some? { FreeExecutionIsCreated(db, source, parsed.value, count, clock); }
  }

  lemma FreeExecutionIsCreated(db: Db, source: EventId, t: Trigger, count: nat, clock: Clock)
    requires Sound(db) && source in db.outbox && source !in db.triggerReceipts && count > 0 && NextEventsFree(db, count)
    ensures var tx := CreateExecution(db, source, db.outbox[source], t, clock);
            && tx.outcome.Done? && NextEventsFree(tx.db, count - 1)
            && tx.db.triggerReceipts.Keys == db.triggerReceipts.Keys + {source} && db.outbox.Keys <= tx.db.outbox.Keys
  {
    FreshId(db);
    hide Sound, TransitionEnvelope;
    assert TransitionId(db.sequence, 1) !in db.outbox;
  }

  lemma {:induction false} EventsCommit(db: Db, offered: seq<EventId>, clock: Clock)
    requires Sound(db) && NextEventsFree(db, |offered|) && Distinct(offered)
    requires forall s <- offered :: s in db.outbox && s !in db.triggerReceipts
    ensures IngestAll(db, offered, clock).outcome.Done?
    decreases |offered|
  {
    hide Sound, IngestOne, NextEventsFree;
    if offered != [] {
      OneEventCommits(db, offered[0], |offered|, clock);
      var one := IngestOne(db, offered[0], clock);
      forall s <- offered[1..] ensures s in one.db.outbox && s !in one.db.triggerReceipts {
        var i :| 0 <= i < |offered| - 1 && offered[1..][i] == s;
        assert s == offered[i + 1];
      }
      EventsCommit(one.db, offered[1..], clock);
    }
  }

  lemma {:induction false} SelectionIsDistinct(db: Db, visible: seq<EventId>, limit: nat)
    requires Distinct(visible)
    ensures Distinct(SelectTriggers(db, visible, limit))
    decreases |visible|
  {
    if visible != [] && limit != 0 {
      if Ingestible(db, visible[0]) {
        SelectionIsDistinct(db, visible[1..], limit - 1);
        SelectionIsComplete(db, visible[1..], limit - 1);
        var rest := SelectTriggers(db, visible[1..], limit - 1);
        forall i, j | 0 <= i < j < |rest| + 1 ensures ([visible[0]] + rest)[i] != ([visible[0]] + rest)[j] {
          assert rest[j - 1] in visible[1..];
        }
      } else {
        SelectionIsDistinct(db, visible[1..], limit);
      }
    }
  }

  /** A scan of distinct rows is ingested whenever the event ids of the next sixteen executions are free. */
  lemma FreeEventsAreIngested(db: Db, fence: Fence, visible: seq<EventId>, clock: Clock)
    requires Sound(db) && Distinct(visible) && NextEventsFree(db, 16)
    ensures Ingest(db, fence, visible, clock).outcome.Done?
  {
    hide Sound, IngestAll, SelectTriggers;
    SelectionIsComplete(db, visible, BATCH_SIZE);
    SelectionIsDistinct(db, visible, BATCH_SIZE);
    EventsCommit(db, SelectTriggers(db, visible, BATCH_SIZE), clock);
  }
}
