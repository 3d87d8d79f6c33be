/** What every transaction of the workflow engine keeps, and what one appended transition changes. */
module WorkflowInvariants {
  import opened Wrappers
  import opened Fencing
  import opened WorkflowModel
  import opened WorkflowTransactions

  // ---------- one row ----------

  /** A chain of states from `absent`, numbered from 1. */
  ghost predicate Linked(audit: seq<AuditEntry>) {
    && |audit| >= 1
    && audit[0].from == Absent
    && (forall i :: 0 <= i < |audit| ==> audit[i].revision == i + 1)
    && (forall i :: 1 <= i < |audit| ==> audit[i].from == At(audit[i - 1].to))
  }

  /** Attempts and revisions stay within the retry budget. */
  predicate Bounded(e: Execution) {
    match e.state
    case Queued => e.attempt <= 2 && e.revision <= 2 * e.attempt + 1
    case Running => 1 <= e.attempt <= 3 && e.revision <= 2 * e.attempt
    case _ => 1 <= e.attempt <= 3 && e.revision <= 2 * e.attempt + 1
  }

  predicate LeaseShape(e: Execution) {
    (e.state == Running <==> e.worker.Some?) && (e.worker.Some? <==> e.leaseExpiresAt.Some?)
  }

  /** The idempotency key of an entry names exactly its execution and revision. */
  predicate KeyedFor(id: nat, entry: AuditEntry) {
    if entry.revision == 1 then entry.key.SourceKey?
    else entry.key == TransitionKey(id, entry.revision) || entry.key == OverrideKey(ConflictId(id, entry.revision))
  }

  ghost predicate Recorded(db: Db, id: nat, entry: AuditEntry) {
    (id, entry.revision) in db.ledger && db.ledger[(id, entry.revision)] == entry
  }

  ghost predicate Published(db: Db, e: Execution, entry: AuditEntry) {
    var event := EventIdOf(e.id, entry);
    event in db.outbox && db.outbox[event] == TransitionEnvelope(e, entry)
  }

  /** Every entry has its ledger row and its outbox event. */
  ghost predicate Witnessed(db: Db, e: Execution) {
    forall entry <- e.audit :: KeyedFor(e.id, entry) && Recorded(db, e.id, entry) && Published(db, e, entry)
  }

  ghost predicate RowSound(db: Db, id: nat)
    requires id in db.executions
  {
    var e := db.executions[id];
    && e.id == id < db.sequence
    && e.key == EffectKey(e.source, e.sourceDigest)
    && Linked(e.audit) && |e.audit| == e.revision
    && e.audit[|e.audit| - 1].to == e.state && e.audit[|e.audit| - 1].attempt == e.attempt
    && Bounded(e) && LeaseShape(e)
    && Witnessed(db, e)
  }

  // ---------- the tables ----------

  ghost predicate LedgerExact(db: Db) {
    forall p <- db.ledger :: p.0 in db.executions && 1 <= p.1 <= db.executions[p.0].revision
  }

  /** Every execution has the accepted receipt of its source, and every accepted receipt its execution. */
  ghost predicate ReceiptsExact(db: Db) {
    && (forall id <- db.executions ::
          db.executions[id].source in db.triggerReceipts && db.triggerReceipts[db.executions[id].source] == Accepted(id))
    && (forall s <- db.triggerReceipts :: db.triggerReceipts[s].Accepted? ==>
          db.triggerReceipts[s].execution in db.executions && db.executions[db.triggerReceipts[s].execution].source == s)
  }

  ghost predicate HistorySound(db: Db) {
    && (forall id <- db.executions :: RowSound(db, id))
    && LedgerExact(db)
    && ReceiptsExact(db)
  }

  /** An effect receipt exists for exactly the keys of the succeeded executions, and one created record for each. */
  ghost predicate EffectsExact(db: Db) {
    && (forall k <- db.effectReceipts ::
          var id := db.effectReceipts[k];
          id in db.executions && db.executions[id].key == k && db.executions[id].state == Succeeded)
    && (forall id <- db.executions :: db.executions[id].state == Succeeded ==>
          db.executions[id].key in db.effectReceipts && db.effectReceipts[db.executions[id].key] == id)
    && EffectRecords(db)
  }

  ghost predicate EffectRecords(db: Db) {
    && (forall i :: 0 <= i < |db.effects| ==>
          db.effects[i].key in db.effectReceipts && db.effectReceipts[db.effects[i].key] in db.executions &&
          db.effects[i] == EffectOf(db.executions[db.effectReceipts[db.effects[i].key]]))
    && (forall i, j :: 0 <= i < j < |db.effects| ==> db.effects[i].key != db.effects[j].key)
    && (forall k <- db.effectReceipts :: exists i :: 0 <= i < |db.effects| && db.effects[i].key == k)
  }

  ghost predicate Sound(db: Db) { HistorySound(db) && EffectsExact(db) }

  lemma KeysAreDistinct(db: Db, a: nat, b: nat)
    requires HistorySound(db) && a in db.executions && b in db.executions && a != b
    ensures db.executions[a].source != db.executions[b].source
    ensures db.executions[a].key != db.executions[b].key
  {
    assert RowSound(db, a) && RowSound(db, b);
  }

  lemma UntakenRevision(db: Db, row: Execution)
    requires HistorySound(db) && row.id in db.executions && db.executions[row.id] == row
    ensures (row.id, row.revision + 1) !in db.ledger && |row.audit| == row.revision
  {
    assert RowSound(db, row.id);
  }

  // ---------- frames ----------

  /** Events stored under minted ids stay as they are. */
  ghost predicate EventsKept(before: Db, after: Db) {
    forall k <- before.outbox :: EngineId(k) ==> k in after.outbox && after.outbox[k] == before.outbox[k]
  }

  /** Row `id` and its ledger rows are the same in both. */
  ghost predicate SameRow(before: Db, after: Db, id: nat) {
    && (id in before.executions <==> id in after.executions)
    && (id in before.executions ==> after.executions[id] == before.executions[id])
    && (forall r: nat :: (id, r) in before.ledger <==> (id, r) in after.ledger)
    && (forall r: nat :: (id, r) in before.ledger ==> after.ledger[(id, r)] == before.ledger[(id, r)])
  }

  /** Only row `id`, its ledger rows and newly inserted events differ. */
  ghost predicate OnlyRow(before: Db, after: Db, id: nat) {
    && (forall other: nat :: other != id ==> SameRow(before, after, other))
    && before.outbox.Keys <= after.outbox.Keys && (forall k <- before.outbox :: after.outbox[k] == before.outbox[k])
    && after == before.(executions := after.executions, ledger := after.ledger, outbox := after.outbox)
  }

  lemma RowFrame(before: Db, after: Db, id: nat)
    requires id in before.executions && RowSound(before, id)
    requires SameRow(before, after, id) && EventsKept(before, after) && before.sequence <= after.sequence
    ensures RowSound(after, id)
  {
    var e := before.executions[id];
    forall entry <- e.audit ensures Recorded(after, id, entry) && Published(after, e, entry) {
      assert KeyedFor(id, entry) && Recorded(before, id, entry) && Published(before, e, entry);
      EntryEventIsMinted(before, e, entry);
    }
  }

  lemma EntryEventIsMinted(db: Db, e: Execution, entry: AuditEntry)
    requires KeyedFor(e.id, entry)
    ensures EngineId(EventIdOf(e.id, entry))
  {
  }

  // ---------- appending one transition ----------

  /** A change of row `row` the retry budget allows; a lease is taken exactly when the row starts running. */
  ghost predicate LegalMove(row: Execution, to: State, o: Options) {
    && !Terminal(row.state)
    && (to == Running <==> o.fence.Some?)
    && (o.eventId.Some? ==> o.eventId == ConflictEvent(row))
    && Bounded(row.(state := to, attempt := o.attempt, revision := row.revision + 1))
  }

  lemma AppendNeverLosesItsRow(db: Db, row: Execution, to: State, o: Options, clock: Clock)
    requires HistorySound(db) && row.id in db.executions && db.executions[row.id] == row
    ensures var outcome := AppendTransition(db, row, row.state, to, o, clock).outcome;
            outcome.Done? || outcome.TransitionCollision?
  {
    assert RowSound(db, row.id);
    assert (row.id, row.revision + 1) !in db.ledger;
  }

  /** `after` is `before` with one entry appended to `row`, recorded and published. */
  ghost predicate Appended(before: Db, after: Db, row: Execution, next: Execution, entry: AuditEntry) {
    && after.executions == before.executions[row.id := next]
    && after.ledger == before.ledger[(row.id, entry.revision) := entry]
    && after.outbox == before.outbox[EventIdOf(row.id, entry) := TransitionEnvelope(next, entry)]
    && (EventIdOf(row.id, entry) in before.outbox ==> before.outbox[EventIdOf(row.id, entry)] == TransitionEnvelope(next, entry))
    && after == before.(executions := after.executions, ledger := after.ledger, outbox := after.outbox)
  }

  lemma AppendShape(db: Db, row: Execution, from: State, to: State, o: Options, clock: Clock)
    requires row.id in db.executions ==> db.executions[row.id].id == row.id
    ensures var tx := AppendTransition(db, row, from, to, o, clock);
            tx.outcome.Done? ==>
              var entry := Entry(row, from, to, o, clock.at);
              && CasHolds(db, row, from) && (row.id, entry.revision) !in db.ledger
              && tx.outcome.value == Advanced(db.executions[row.id], entry, o, clock.now)
              && Appended(db, tx.db, row, tx.outcome.value, entry)
  {
  }

  /** Rolling a transition back restores every table, whatever it had written. */
  lemma AppendRollsBack(db: Db, row: Execution, from: State, to: State, o: Options, clock: Clock)
    ensures Rollback(db, AppendTransition(db, row, from, to, o, clock).db) == db
  {
  }

  /** `next` is `row` moved to `entry.to`; what identifies the execution is unchanged. */
  ghost predicate Successor(row: Execution, next: Execution, entry: AuditEntry) {
    && next.id == row.id && next.source == row.source && next.sourceDigest == row.sourceDigest && next.key == row.key
    && next.trigger == row.trigger
    && next.audit == row.audit + [entry] && next.state == entry.to
    && entry.from == At(row.state) && entry.revision == next.revision == row.revision + 1 && entry.attempt == next.attempt
    && KeyedFor(row.id, entry) && Bounded(next) && LeaseShape(next)
  }

  lemma MoveIsSuccessor(db: Db, row: Execution, to: State, o: Options, clock: Clock)
    requires row.id in db.executions && db.executions[row.id] == row && RowSound(db, row.id) && LegalMove(row, to, o)
    ensures var entry := Entry(row, row.state, to, o, clock.at);
            Successor(row, Advanced(row, entry, o, clock.now), entry)
  {
  }

  lemma AppendedIsSound(db: Db, after: Db, row: Execution, next: Execution, entry: AuditEntry)
    requires HistorySound(db) && row.id in db.executions && db.executions[row.id] == row
    requires Successor(row, next, entry)
    requires Appended(db, after, row, next, entry)
    ensures HistorySound(after)
  {
    forall id <- after.executions ensures RowSound(after, id) {
      if id == row.id {
        AppendedRowIsSound(db, after, row, next, entry);
      } else {
        OthersKept(db, after, row, next, entry, id);
      }
    }
    LedgerStaysExact(db, after, row, next, entry);
    ReceiptsStayExact(db, after, row, next);
  }

  lemma OthersKept(db: Db, after: Db, row: Execution, next: Execution, entry: AuditEntry, id: nat)
    requires id in db.executions && id != row.id && RowSound(db, id)
    requires Appended(db, after, row, next, entry)
    ensures RowSound(after, id)
  {
    RowFrame(db, after, id);
  }

  lemma LedgerStaysExact(db: Db, after: Db, row: Execution, next: Execution, entry: AuditEntry)
    requires LedgerExact(db) && row.id in db.executions && db.executions[row.id] == row && RowSound(db, row.id)
    requires Successor(row, next, entry) && Appended(db, after, row, next, entry)
    ensures LedgerExact(after)
  {
  }

  lemma ReceiptsStayExact(db: Db, after: Db, row: Execution, next: Execution)
    requires ReceiptsExact(db) && row.id in db.executions && db.executions[row.id] == row
    requires after.triggerReceipts == db.triggerReceipts && after.executions == db.executions[row.id := next]
    requires next.source == row.source
    ensures ReceiptsExact(after)
  {
  }

  lemma AppendedRowIsSound(db: Db, after: Db, row: Execution, next: Execution, entry: AuditEntry)
    requires row.id in db.executions && db.executions[row.id] == row && RowSound(db, row.id)
    requires Successor(row, next, entry) && Appended(db, after, row, next, entry)
    ensures row.id in after.executions && RowSound(after, row.id)
  {
    forall e <- next.audit ensures KeyedFor(row.id, e) && Recorded(after, row.id, e) && Published(after, next, e) {
      if e in row.audit {
        EarlierEntryKept(db, after, row, next, entry, e);
      } else {
        assert e == entry;
      }
    }
    assert Linked(next.audit);
  }

  lemma EarlierEntryKept(db: Db, after: Db, row: Execution, next: Execution, entry: AuditEntry, e: AuditEntry)
    requires row.id in db.executions && db.executions[row.id] == row && RowSound(db, row.id)
    requires next.id == row.id && next.trigger == row.trigger && entry.revision == row.revision + 1
    requires Appended(db, after, row, next, entry) && e in row.audit
    ensures KeyedFor(row.id, e) && Recorded(after, row.id, e) && Published(after, next, e)
  {
    assert KeyedFor(row.id, e) && Recorded(db, row.id, e) && Published(db, row, e);
    var i :| 0 <= i < |row.audit| && row.audit[i] == e;
    assert e.revision == i + 1 < entry.revision;
  }
}
