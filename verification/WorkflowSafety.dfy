/** Safety of every run of the workflow engine: any workers, any interleaving, crashes, promotions and foreign writes. */
module WorkflowSafety {
  import opened Wrappers
  import opened Fencing
  import opened WorkflowModel
  import opened WorkflowTransactions
  import opened WorkflowInvariants
  import opened WorkflowClaims
  import opened WorkflowBatches
  import opened WorkflowIngestion
  import opened WorkflowExecution

  lemma InitialIsSound(outbox: map<EventId, Envelope>, world: World, live: Option<LiveFence>)
    ensures Sound(Initial(outbox, world, live))
  {
  }

  lemma DisturbanceKeeps(db: Db, outbox: map<EventId, Envelope>, world: World, live: Option<LiveFence>)
    requires Sound(db)
    ensures var after := Disturbed(db, outbox, world, live); Sound(after) && TablesEvolve(db, after)
  {
    var after := Disturbed(db, outbox, world, live);
    assert ReceiptsExact(after);
    FrameKeepsSound(db, after);
  }

  /** Every transaction and every disturbance keeps all invariants and only adds evidence. */
  lemma StepKeeps(db: Db, step: Step)
    requires Sound(db)
    ensures Sound(Apply(db, step)) && TablesEvolve(db, Apply(db, step))
  {
    UnchangedEvolves(db);
    hide Sound, TablesEvolve, Ingest, ClaimBatch, ExecuteOne, RecordFailure, Disturbed, LockLive;
    match step
    case IngestStep(fence, visible, clock) => IngestIsAllOrNothing(db, fence, visible, clock);
    case ClaimStep(fence, locked, clock) =>
      if LockLive(db, fence, clock.now) {
        ClaimIsIsolated(db, fence, locked, clock);
      } else {
        DeadWorkerClaimsNothing(db, fence, locked, clock);
      }
    case ExecuteStep(row, fence, clock) => ExecuteIsAtomic(db, row, fence, clock);
    case FailStep(row, fence, code, terminalize, clock) => FailureIsAtomic(db, row, fence, code, terminalize, clock);
    case Environment(outbox, world, live) => DisturbanceKeeps(db, outbox, world, live);
  }

  lemma UnchangedEvolves(db: Db)
    ensures TablesEvolve(db, db)
  {
  }

  lemma DeadWorkerClaimsNothing(db: Db, fence: Fence, locked: set<nat>, clock: Clock)
    requires !LockLive(db, fence, clock.now)
    ensures ClaimBatch(db, fence, locked, clock) == Tx(db, Done([]))
  {
  }

  lemma {:induction false} RunKeeps(db: Db, steps: seq<Step>)
    requires Sound(db)
    ensures Sound(Run(db, steps)) && TablesEvolve(db, Run(db, steps))
    decreases |steps|
  {
    hide Sound, TablesEvolve, Apply;
    UnchangedEvolves(db);
    if steps != [] {
      var n := |steps| - 1;
      RunKeeps(db, steps[..n]);
      StepKeeps(Run(db, steps[..n]), steps[n]);
      EvolvesTrans(db, Run(db, steps[..n]), Run(db, steps));
    }
  }

  /** A reachable state, named by the run that reaches it. */
  function Reached(outbox: map<EventId, Envelope>, world: World, live: Option<LiveFence>, steps: seq<Step>): Db {
    Run(Initial(outbox, world, live), steps)
  }

  lemma ReachedIsSound(outbox: map<EventId, Envelope>, world: World, live: Option<LiveFence>, steps: seq<Step>)
    ensures Sound(Reached(outbox, world, live, steps))
  {
    InitialIsSound(outbox, world, live);
    RunKeeps(Initial(outbox, world, live), steps);
  }

  /** How many records were created for an effect key. */
  function EffectCount(effects: seq<DomainEffect>, key: EffectKey): nat
    decreases |effects|
  {
    if effects == [] then 0 else EffectCount(effects[1..], key) + if effects[0].key == key then 1 else 0
  }

  lemma {:induction false} AbsentKeyCountsZero(effects: seq<DomainEffect>, key: EffectKey)
    requires forall e <- effects :: e.key != key
    ensures EffectCount(effects, key) == 0
    decreases |effects|
  {
    if effects != [] { AbsentKeyCountsZero(effects[1..], key); }
  }

  lemma {:induction false} DistinctKeysCountOnce(effects: seq<DomainEffect>, key: EffectKey)
    requires forall i, j :: 0 <= i < j < |effects| ==> effects[i].key != effects[j].key
    ensures EffectCount(effects, key) == if exists e <- effects :: e.key == key then 1 else 0
    decreases |effects|
  {
    if effects != [] {
      var rest := effects[1..];
      assert effects == [effects[0]] + rest;
      if effects[0].key == key {
        forall e <- rest ensures e.key != key {
          var j :| 0 <= j < |rest| && rest[j] == e;
          assert effects[j + 1] == e;
        }
        AbsentKeyCountsZero(rest, key);
        assert effects[0] in effects;
      } else {
        DistinctKeysCountOnce(rest, key);
      }
    }
  }

  /**
   Exactly once: an execution is succeeded exactly when its key carries a receipt, and then, and only then, one record
   exists for the key, and it is the record the execution describes.
   */
  lemma EffectsHappenExactlyOnce(outbox: map<EventId, Envelope>, world: World, live: Option<LiveFence>, steps: seq<Step>, id: nat)
    requires id in Reached(outbox, world, live, steps).executions
    ensures var db := Reached(outbox, world, live, steps);
            var row := db.executions[id];
            && (row.state == Succeeded <==> row.key in db.effectReceipts)
            && (row.key in db.effectReceipts ==> db.effectReceipts[row.key] == id)
            && EffectCount(db.effects, row.key) == (if row.state == Succeeded then 1 else 0)
            && (forall e <- db.effects :: e.key == row.key ==> e == EffectOf(row))
  {
    var db := Reached(outbox, world, live, steps);
    ReachedIsSound(outbox, world, live, steps);
    hide Reached, EffectOf;
    SoundMeansOnce(db, id);
  }

  lemma SoundMeansOnce(db: Db, id: nat)
    requires Sound(db) && id in db.executions
    ensures var row := db.executions[id];
            && (row.state == Succeeded <==> row.key in db.effectReceipts)
            && (row.key in db.effectReceipts ==> db.effectReceipts[row.key] == id)
            && EffectCount(db.effects, row.key) == (if row.state == Succeeded then 1 else 0)
            && (forall e <- db.effects :: e.key == row.key ==> e == EffectOf(row))
  {
    hide HistorySound, EffectOf;
    var row := db.executions[id];
    if row.key in db.effectReceipts && db.effectReceipts[row.key] != id {
      KeysAreDistinct(db, db.effectReceipts[row.key], id);
    }
    if row.state == Succeeded {
      var i :| 0 <= i < |db.effects| && db.effects[i].key == row.key;
      assert db.effects[i] in db.effects;
    }
    DistinctKeysCountOnce(db.effects, row.key);
    if exists e <- db.effects :: e.key == row.key {
      var e :| e in db.effects && e.key == row.key;
      var i :| 0 <= i < |db.effects| && db.effects[i] == e;
      assert db.effects[i].key in db.effectReceipts;
    }
  }

  /** No record exists without a succeeded execution behind it. */
  lemma NoOrphanEffects(outbox: map<EventId, Envelope>, world: World, live: Option<LiveFence>, steps: seq<Step>)
    ensures var db := Reached(outbox, world, live, steps);
            forall e <- db.effects :: exists id <- db.executions ::
              db.executions[id].state == Succeeded && db.executions[id].key == e.key && e == EffectOf(db.executions[id])
  {
    var db := Reached(outbox, world, live, steps);
    ReachedIsSound(outbox, world, live, steps);
    hide Reached, EffectOf, HistorySound;
    forall e <- db.effects ensures exists id <- db.executions ::
      db.executions[id].state == Succeeded && db.executions[id].key == e.key && e == EffectOf(db.executions[id])
    {
      var i :| 0 <= i < |db.effects| && db.effects[i] == e;
      assert db.effects[i].key in db.effectReceipts;
      var id := db.effectReceipts[e.key];
      assert id in db.executions;
    }
  }

  /** The whole evidence of one execution: a chain from `absent`, one ledger row and one event per revision, no more. */
  lemma HistoryIsComplete(outbox: map<EventId, Envelope>, world: World, live: Option<LiveFence>, steps: seq<Step>, id: nat)
    requires id in Reached(outbox, world, live, steps).executions
    ensures var db := Reached(outbox, world, live, steps);
            var row := db.executions[id];
            && Linked(row.audit) && |row.audit| == row.revision <= 7
            && row.audit[row.revision - 1].to == row.state
            && (forall r: nat :: (id, r) in db.ledger <==> 1 <= r <= row.revision)
            && (forall i | 0 <= i < row.revision ::
                  db.ledger[(id, i + 1)] == row.audit[i] && Published(db, row, row.audit[i]))
            && (forall i, j | 0 <= i < j < row.revision :: EventIdOf(id, row.audit[i]) != EventIdOf(id, row.audit[j]))
  {
    ReachedIsSound(outbox, world, live, steps);
    hide Reached, EffectsExact;
    SoundMeansComplete(Reached(outbox, world, live, steps), id);
  }

  lemma SoundMeansComplete(db: Db, id: nat)
    requires Sound(db) && id in db.executions
    ensures var row := db.executions[id];
            && Linked(row.audit) && |row.audit| == row.revision <= 7
            && row.audit[row.revision - 1].to == row.state
            && (forall r: nat :: (id, r) in db.ledger <==> 1 <= r <= row.revision)
            && (forall i | 0 <= i < row.revision ::
                  db.ledger[(id, i + 1)] == row.audit[i] && Published(db, row, row.audit[i]))
            && (forall i, j | 0 <= i < j < row.revision :: EventIdOf(id, row.audit[i]) != EventIdOf(id, row.audit[j]))
  {
    hide EffectsExact, TransitionEnvelope, ReceiptsExact, Published, EventIdOf;
    var row := db.executions[id];
    assert RowSound(db, id);
    forall i | 0 <= i < row.revision
      ensures Recorded(db, id, row.audit[i]) && Published(db, row, row.audit[i]) && KeyedFor(id, row.audit[i])
    {
      assert row.audit[i] in row.audit;
    }
    forall r: nat | 1 <= r <= row.revision ensures (id, r) in db.ledger {
      assert Recorded(db, id, row.audit[r - 1]);
    }
    forall i, j | 0 <= i < j < row.revision ensures EventIdOf(id, row.audit[i]) != EventIdOf(id, row.audit[j]) {
      EventIdsDiffer(id, row.audit[i], row.audit[j]);
    }
  }

  lemma EventIdsDiffer(id: nat, a: AuditEntry, b: AuditEntry)
    requires KeyedFor(id, a) && KeyedFor(id, b) && a.revision != b.revision
    ensures EventIdOf(id, a) != EventIdOf(id, b)
  {
  }

  /** Each event is accepted into exactly one execution: sources, keys and receipts name each other. */
  lemma IngestedOnce(outbox: map<EventId, Envelope>, world: World, live: Option<LiveFence>, steps: seq<Step>, a: nat, b: nat)
    requires var db := Reached(outbox, world, live, steps);
             a in db.executions && b in db.executions && db.executions[a].source == db.executions[b].source
    ensures a == b
    ensures var db := Reached(outbox, world, live, steps);
            db.executions[a].source in db.triggerReceipts && db.triggerReceipts[db.executions[a].source] == Accepted(a)
  {
    var db := Reached(outbox, world, live, steps);
    ReachedIsSound(outbox, world, live, steps);
    hide Reached;
    if a != b { KeysAreDistinct(db, a, b); }
  }

  // ---------- retries terminate ----------

  function RowOf(db: Db, id: nat): Option<Execution> {
    if id in db.executions then Some(db.executions[id]) else None
  }

  /** How many steps of a run changed row `id`, its creation included. */
  function Changes(db: Db, steps: seq<Step>, id: nat): nat
    decreases |steps|
  {
    if steps == [] then 0
    else
      var n := |steps| - 1;
      Changes(db, steps[..n], id) + if RowOf(Run(db, steps[..n]), id) == RowOf(Run(db, steps), id) then 0 else 1
  }

  function Revision(db: Db, id: nat): nat { if id in db.executions then db.executions[id].revision else 0 }

  lemma ChangeRaisesRevision(a: Db, b: Db, id: nat)
    requires Sound(a) && Sound(b) && TablesEvolve(a, b)
    ensures Revision(a, id) <= Revision(b, id) <= 7
    ensures RowOf(a, id) != RowOf(b, id) ==> Revision(a, id) < Revision(b, id)
  {
    hide EffectsExact;
    if id in b.executions {
      assert RowSound(b, id);
      if id in a.executions {
        assert RowSound(a, id) && Evolves(a.executions[id], b.executions[id]);
      }
    }
  }

  /** However long a run is, no execution changes more than seven times in it. */
  lemma {:induction false} RetriesTerminate(db: Db, steps: seq<Step>, id: nat)
    requires Sound(db)
    ensures Changes(db, steps, id) + Revision(db, id) <= Revision(Run(db, steps), id) <= 7
    decreases |steps|
  {
    hide Sound, TablesEvolve, Apply, Revision;
    if steps == [] {
      UnchangedEvolves(db);
      ChangeRaisesRevision(db, db, id);
    } else {
      var n := |steps| - 1;
      RetriesTerminate(db, steps[..n], id);
      RunKeeps(db, steps[..n]);
      StepKeeps(Run(db, steps[..n]), steps[n]);
      ChangeRaisesRevision(Run(db, steps[..n]), Run(db, steps), id);
    }
  }

  /** The retry budget in every reachable state. */
  lemma AttemptsAreBounded(outbox: map<EventId, Envelope>, world: World, live: Option<LiveFence>, steps: seq<Step>, id: nat)
    requires id in Reached(outbox, world, live, steps).executions
    ensures var row := Reached(outbox, world, live, steps).executions[id];
            && (row.state == Queued ==> row.attempt <= 2)
            && (row.state == Running ==> 1 <= row.attempt <= 3 && row.revision <= 2 * row.attempt)
            && row.revision <= 2 * row.attempt + 1
  {
    ReachedIsSound(outbox, world, live, steps);
    assert RowSound(Reached(outbox, world, live, steps), id);
  }

  /** A terminal row, its evidence and its effect never change again. */
  lemma TerminalIsAbsorbing(db: Db, steps: seq<Step>, id: nat)
    requires Sound(db) && id in db.executions && (db.executions[id].state == Succeeded || db.executions[id].state == DeadLetter)
    ensures var end := Run(db, steps);
            && id in end.executions && end.executions[id] == db.executions[id]
            && (forall p <- db.ledger :: p in end.ledger && end.ledger[p] == db.ledger[p])
            && db.effects <= end.effects
  {
    RunKeeps(db, steps);
    hide Sound;
  }

  /**
   A worker that comes back with a claim whose row has moved on, whatever happened in between, can neither execute it
   nor record a failure.
   */
  lemma StaleWorkerChangesNothing(db: Db, steps: seq<Step>, row: Execution, fence: Fence, code: FailureCode, terminalize: bool, clock: Clock)
    requires Sound(db) && row.id in db.executions && db.executions[row.id] == row
    requires RowOf(Run(db, steps), row.id) != Some(row)
    ensures var later := Run(db, steps);
            && ExecuteOne(later, row, fence, clock) == Tx(later, Done(Stale))
            && RecordFailure(later, row, fence, code, terminalize, clock) == Tx(later, Done(()))
  {
    RunKeeps(db, steps);
    MovedClaimIsStale(db, Run(db, steps), row, fence);
  }

  /** Executing the same claim twice, with anything in between, creates its effect at most once. */
  lemma ReexecutionIsStale(db: Db, row: Execution, first: Fence, t1: Clock, steps: seq<Step>, second: Fence, t2: Clock)
    requires Sound(db) && row.id in db.executions && db.executions[row.id] == row
    requires ExecuteOne(db, row, first, t1).outcome == Done(Executed)
    ensures var later := Run(ExecuteOne(db, row, first, t1).db, steps);
            ExecuteOne(later, row, second, t2) == Tx(later, Done(Stale))
  {
    var done := ExecuteOne(db, row, first, t1).db;
    ExecuteIsAtomic(db, row, first, t1);
    assert Finished(db, done, row);
    RunKeeps(done, steps);
    EvolvesTrans(db, done, Run(done, steps));
    assert Evolves(done.executions[row.id], Run(done, steps).executions[row.id]);
    hide Sound, ExecuteOne;
    MovedClaimIsStale(db, Run(done, steps), row, second);
    NotHeldIsStale(Run(done, steps), row, second, t2);
  }

  lemma NotHeldIsStale(db: Db, row: Execution, fence: Fence, clock: Clock)
    requires !ClaimHeld(db, row, fence)
    ensures ExecuteOne(db, row, fence, clock) == Tx(db, Done(Stale))
  {
  }
}
