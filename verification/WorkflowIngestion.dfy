/** Ingestion: every scanned event is settled exactly once, all or nothing. */
module WorkflowIngestion {
  import opened Wrappers
  import opened Fencing
  import opened WorkflowModel
  import opened WorkflowTransactions
  import opened WorkflowInvariants
  import opened WorkflowClaims

  /** Executions, their ledger and their effects untouched, minted events kept. */
  lemma FrameKeepsSound(before: Db, after: Db)
    requires Sound(before) && ReceiptsExact(after) && EventsKept(before, after) && before.sequence <= after.sequence
    requires after == before.(sequence := after.sequence, outbox := after.outbox, triggerReceipts := after.triggerReceipts,
                              world := after.world, live := after.live)
    requires forall s <- before.triggerReceipts :: s in after.triggerReceipts && after.triggerReceipts[s] == before.triggerReceipts[s]
    ensures Sound(after) && TablesEvolve(before, after)
  {
    hide RowSound, EffectsExact, ReceiptsExact;
    forall id <- after.executions ensures RowSound(after, id) {
      RowFrame(before, after, id);
    }
    FrameKeepsEffects(before, after);
  }

  lemma FrameKeepsEffects(before: Db, after: Db)
    requires EffectsExact(before)
    requires after.executions == before.executions && after.effectReceipts == before.effectReceipts && after.effects == before.effects
    ensures EffectsExact(after)
  {
  }

  /** An event without a receipt has no execution. */
  lemma UnreceiptedIsNew(db: Db, source: EventId)
    requires Sound(db) && source !in db.triggerReceipts
    ensures FindExecution(db, source, db.sequence).None?
  {
  }

  /** `after` holds one more execution, in its first state, with its evidence and its receipt. */
  ghost predicate Created(before: Db, after: Db, source: EventId, t: Trigger, now: int)
    requires source in before.outbox
  {
    var id := before.sequence;
    var row := NewExecution(id, source, before.outbox[source], t, now);
    && after == before.(sequence := id + 1,
                        executions := before.executions[id := row],
                        ledger := before.ledger[(id, 1) := row.audit[0]],
                        outbox := before.outbox[TransitionId(id, 1) := TransitionEnvelope(row, row.audit[0])],
                        triggerReceipts := before.triggerReceipts[source := Accepted(id)])
    && (TransitionId(id, 1) in before.outbox ==> before.outbox[TransitionId(id, 1)] == TransitionEnvelope(row, row.audit[0]))
  }

  lemma CreateShape(db: Db, source: EventId, t: Trigger, clock: Clock)
    requires Sound(db) && source in db.outbox && source !in db.triggerReceipts
    ensures var tx := CreateExecution(db, source, db.outbox[source], t, clock);
            if tx.outcome.Done? then tx.outcome.value == 1 && Created(db, tx.db, source, t, clock.now)
            else tx.outcome.TransitionCollision? && tx.db.sequence == db.sequence + 1
  {
    FreshId(db);
  }

  lemma FreshId(db: Db)
    requires Sound(db)
    ensures db.sequence !in db.executions && (db.sequence, 1) !in db.ledger
  {
    forall id <- db.executions ensures id < db.sequence { assert RowSound(db, id); }
  }

  lemma CreatedIsSound(db: Db, after: Db, source: EventId, t: Trigger, now: int)
    requires Sound(db) && source in db.outbox && source !in db.triggerReceipts && Created(db, after, source, t, now)
    ensures Sound(after) && TablesEvolve(db, after)
  {
    FreshId(db);
    assert HistorySound(after) by { CreatedHistory(db, after, source, t, now); }
    assert EffectsExact(after) by { CreatedEffects(db, after, db.sequence); }
    CreatedEvolves(db, after, source, t, now);
  }

  lemma CreatedHistory(db: Db, after: Db, source: EventId, t: Trigger, now: int)
    requires HistorySound(db) && db.sequence !in db.executions && (db.sequence, 1) !in db.ledger
    requires source in db.outbox && source !in db.triggerReceipts && Created(db, after, source, t, now)
    ensures HistorySound(after)
  {
    hide ReceiptsExact, RowSound, LedgerExact;
    forall id <- after.executions ensures RowSound(after, id) {
      if id == db.sequence {
        CreatedRowIsSound(db, after, source, t, now);
      } else {
        CreatedKeepsRow(db, after, source, t, now, id);
      }
    }
    CreatedLedger(db, after, source, t, now);
    CreatedReceipts(db, after, source, t, now);
  }

  lemma CreatedRowIsSound(db: Db, after: Db, source: EventId, t: Trigger, now: int)
    requires source in db.outbox && Created(db, after, source, t, now)
    ensures db.sequence in after.executions && RowSound(after, db.sequence)
  {
  }

  lemma CreatedKeepsRow(db: Db, after: Db, source: EventId, t: Trigger, now: int, id: nat)
    requires source in db.outbox && Created(db, after, source, t, now)
    requires id != db.sequence && id in after.executions
    requires id in db.executions ==> RowSound(db, id)
    ensures RowSound(after, id)
  {
    RowFrame(db, after, id);
  }

  lemma CreatedLedger(db: Db, after: Db, source: EventId, t: Trigger, now: int)
    requires LedgerExact(db) && db.sequence !in db.executions
    requires source in db.outbox && Created(db, after, source, t, now)
    ensures LedgerExact(after)
  {
  }

  lemma CreatedReceipts(db: Db, after: Db, source: EventId, t: Trigger, now: int)
    requires ReceiptsExact(db) && db.sequence !in db.executions
    requires source in db.outbox && source !in db.triggerReceipts && Created(db, after, source, t, now)
    ensures ReceiptsExact(after)
  {
  }

  lemma CreatedEffects(db: Db, after: Db, id: nat)
    requires EffectsExact(db) && id !in db.executions && id in after.executions && after.executions[id].state != Succeeded
    requires after.executions == db.executions[id := after.executions[id]]
    requires after.effectReceipts == db.effectReceipts && after.effects == db.effects
    ensures EffectsExact(after)
  {
    forall i | 0 <= i < |after.effects|
      ensures after.effects[i].key in after.effectReceipts && after.effectReceipts[after.effects[i].key] in after.executions &&
              after.effects[i] == EffectOf(after.executions[after.effectReceipts[after.effects[i].key]])
    {
      assert db.effects[i].key in db.effectReceipts;
    }
  }

  lemma CreatedEvolves(db: Db, after: Db, source: EventId, t: Trigger, now: int)
    requires source in db.outbox && source !in db.triggerReceipts && Created(db, after, source, t, now)
    requires db.sequence !in db.executions && (db.sequence, 1) !in db.ledger
    ensures TablesEvolve(db, after)
  {
  }

  /** The receipt an event deserves. */
  predicate SettledFor(db: Db, source: EventId, event: Envelope) {
    source in db.triggerReceipts &&
    match db.triggerReceipts[source]
    case Accepted(id) => ParseTrigger(event).Some? && id in db.executions && db.executions[id].source == source &&
                         db.executions[id].sourceDigest == event && ParseTrigger(event) == Some(db.executions[id].trigger)
    case Rejected => ParseTrigger(event).None?
  }

  /** What a committed ingestion of `offered` did. */
  ghost predicate Ingested(before: Db, after: Db, offered: seq<EventId>, created: nat) {
    && Sound(after) && TablesEvolve(before, after)
    && |after.executions| == |before.executions| + created
    && after.sequence == before.sequence + created
    && (forall id <- before.executions :: after.executions[id] == before.executions[id])
    && (forall s <- before.outbox :: s in after.outbox && after.outbox[s] == before.outbox[s])
    && (forall s <- offered :: s in before.outbox ==> SettledFor(after, s, before.outbox[s]))
    && after.effects == before.effects && after.effectReceipts == before.effectReceipts
    && after.world == before.world && after.live == before.live
  }

  lemma IngestOneKeeps(db: Db, source: EventId, clock: Clock)
    requires Sound(db) && source in db.outbox
    ensures var tx := IngestOne(db, source, clock);
            && db.sequence <= tx.db.sequence
            && (tx.outcome.Done? ==> source !in db.triggerReceipts && Ingested(db, tx.db, [source], tx.outcome.value) && Sound(tx.db))
  {
    hide Sound, Ingested, Created, CreateExecution, ParseTrigger;
    var parsed := ParseTrigger(db.outbox[source]);
    if source in db.triggerReceipts {
      DuplicateFails(db, source, clock);
    }
    if source !in db.triggerReceipts {
      UnreceiptedIsNew(db, source);
      if parsed.Some? {
        CreateShape(db, source, parsed.value, clock);
        var tx := CreateExecution(db, source, db.outbox[source], parsed.value, clock);
        assert IngestOne(db, source, clock) == tx;
        if tx.outcome.Done? {
          CreatedIsSound(db, tx.db, source, parsed.value, clock.now);
          CreatedIsIngested(db, tx.db, source, parsed.value, clock.now);
        }
      } else {
        RejectionKeeps(db, source);
      }
    }
  }

  /** An event that already has its receipt cannot be settled again. */
  lemma DuplicateFails(db: Db, source: EventId, clock: Clock)
    requires source in db.outbox && source in db.triggerReceipts
    ensures var tx := IngestOne(db, source, clock); db.sequence <= tx.db.sequence && !tx.outcome.Done?
  {
  }

  lemma CreatedIsIngested(db: Db, after: Db, source: EventId, t: Trigger, now: int)
    requires Sound(db) && Sound(after) && TablesEvolve(db, after)
    requires source in db.outbox && ParseTrigger(db.outbox[source]) == Some(t) && Created(db, after, source, t, now)
    ensures Ingested(db, after, [source], 1)
  {
    hide Sound, TablesEvolve, ParseTrigger, SettledFor;
    FreshId(db);
    CreatedSettles(db, after, source, t, now);
    assert |after.executions| == |db.executions| + 1 by {
      OneMore(db.executions, db.sequence, NewExecution(db.sequence, source, db.outbox[source], t, now));
    }
  }

  lemma CreatedSettles(db: Db, after: Db, source: EventId, t: Trigger, now: int)
    requires source in db.outbox && ParseTrigger(db.outbox[source]) == Some(t) && Created(db, after, source, t, now)
    ensures SettledFor(after, source, db.outbox[source])
  {
    hide ParseTrigger;
  }

  lemma OneMore(m: map<nat, Execution>, id: nat, row: Execution)
    requires id !in m
    ensures |m[id := row]| == |m| + 1
  {
    assert m[id := row].Keys == m.Keys + {id};
    assert |m[id := row].Keys| == |m[id := row]|;
  }

  lemma NothingIngested(db: Db)
    requires Sound(db)
    ensures Ingested(db, db, [], 0)
  {
    hide Sound;
  }

  lemma SkippedIsIngested(a: Db, b: Db, offered: seq<EventId>, n: nat)
    requires offered != [] && offered[0] !in a.outbox && Ingested(a, b, offered[1..], n)
    ensures Ingested(a, b, offered, n)
  {
    hide Sound, TablesEvolve, SettledFor;
    forall s <- offered | s in a.outbox ensures SettledFor(b, s, a.outbox[s]) {
      assert s in offered[1..];
    }
  }

  lemma RejectionKeeps(db: Db, source: EventId)
    requires Sound(db) && source in db.outbox && source !in db.triggerReceipts && ParseTrigger(db.outbox[source]).None?
    ensures var after := db.(triggerReceipts := db.triggerReceipts[source := Rejected]);
            Sound(after) && Ingested(db, after, [source], 0)
  {
    var after := db.(triggerReceipts := db.triggerReceipts[source := Rejected]);
    assert ReceiptsExact(after);
    FrameKeepsSound(db, after);
  }

  lemma {:induction false} IngestAllKeeps(db: Db, offered: seq<EventId>, clock: Clock)
    requires Sound(db)
    ensures var tx := IngestAll(db, offered, clock);
            && db.sequence <= tx.db.sequence
            && (tx.outcome.Done? ==> Ingested(db, tx.db, offered, tx.outcome.value))
    decreases |offered|
  {
    hide Sound, IngestOne, Ingested;
    if offered == [] {
      NothingIngested(db);
    } else {
      if offered[0] !in db.outbox {
        IngestAllKeeps(db, offered[1..], clock);
        var rest := IngestAll(db, offered[1..], clock);
        if rest.outcome.Done? {
          SkippedIsIngested(db, rest.db, offered, rest.outcome.value);
        }
      } else {
        IngestOneKeeps(db, offered[0], clock);
        var one := IngestOne(db, offered[0], clock);
        if one.outcome.Done? {
          IngestAllKeeps(one.db, offered[1..], clock);
          var rest := IngestAll(one.db, offered[1..], clock);
          if rest.outcome.Done? {
            IngestedJoin(db, one.db, rest.db, offered, one.outcome.value, rest.outcome.value);
          }
        }
      }
    }
  }

  lemma IngestedJoin(a: Db, b: Db, c: Db, offered: seq<EventId>, m: nat, n: nat)
    requires offered != [] && offered[0] in a.outbox
    requires Ingested(a, b, [offered[0]], m) && Ingested(b, c, offered[1..], n)
    ensures Ingested(a, c, offered, m + n)
  {
    hide Sound;
    EvolvesTrans(a, b, c);
    forall s <- offered | s in a.outbox ensures SettledFor(c, s, a.outbox[s]) {
      if s == offered[0] {
        assert s in [offered[0]];
        SettledStays(b, c, s, a.outbox[s]);
      } else {
        assert s in offered[1..];
      }
    }
  }

  lemma SettledStays(b: Db, c: Db, s: EventId, event: Envelope)
    requires SettledFor(b, s, event) && TablesEvolve(b, c)
    ensures SettledFor(c, s, event)
  {
  }

  /**
   Either every selected event is settled in one commit, counting the executions created, or nothing but the
   execution id sequence moved.
   */
  lemma IngestIsAllOrNothing(db: Db, fence: Fence, visible: seq<EventId>, clock: Clock)
    requires Sound(db)
    ensures var tx := Ingest(db, fence, visible, clock);
            && Sound(tx.db) && TablesEvolve(db, tx.db)
            && (tx.outcome.Done? && LockLive(db, fence, clock.now) ==>
                  Ingested(db, tx.db, SelectTriggers(db, visible, BATCH_SIZE), tx.outcome.value))
            && (!tx.outcome.Done? || !LockLive(db, fence, clock.now) ==> tx.db == db.(sequence := tx.db.sequence))
  {
    hide Sound, TablesEvolve, IngestAll, Ingested, SelectTriggers;
    var offered := SelectTriggers(db, visible, BATCH_SIZE);
    IngestAllKeeps(db, offered, clock);
    var tx := IngestAll(db, offered, clock);
    SequenceMoves(db, db.sequence);
    SequenceMoves(db, tx.db.sequence);
    if tx.outcome.Done? { IngestedIsSound(db, tx.db, offered, tx.outcome.value); }
  }

  lemma IngestedIsSound(before: Db, after: Db, offered: seq<EventId>, created: nat)
    requires Ingested(before, after, offered, created)
    ensures Sound(after) && TablesEvolve(before, after)
  {
    hide Sound, TablesEvolve;
  }

  lemma SequenceMoves(db: Db, sequence: nat)
    requires Sound(db) && db.sequence <= sequence
    ensures Sound(db.(sequence := sequence)) && TablesEvolve(db, db.(sequence := sequence))
  {
    var after := db.(sequence := sequence);
    FrameKeepsSound(db, after);
  }
}
