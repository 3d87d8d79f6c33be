/** The workflow engine over mutable tables: savepoints, row-by-row loops, and one worker pass. */
module WorkflowStore {
  import opened Wrappers
  import opened Fencing
  import opened WorkflowModel
  import opened WorkflowTransactions
  import WorkflowEffects

  /** A claim loop that already holds `claimed` and ends as `rest`. */
  function Prefixed(claimed: seq<Execution>, rest: Tx<seq<Execution>>): Tx<seq<Execution>> {
    if rest.outcome.Done? then Tx(rest.db, Done(claimed + rest.outcome.value)) else rest
  }

  /** An ingestion loop that already counted `inserted` and ends as `rest`. */
  function Counted(inserted: nat, rest: Tx<nat>): Tx<nat> {
    if rest.outcome.Done? then Tx(rest.db, Done(inserted + rest.outcome.value)) else rest
  }

  lemma PrefixedNothing(rest: Tx<seq<Execution>>)
    ensures Prefixed([], rest) == rest
  {
    if rest.outcome.Done? { assert [] + rest.outcome.value == rest.outcome.value; }
  }

  lemma PrefixedStep(claimed: seq<Execution>, head: Option<Execution>, rest: Tx<seq<Execution>>)
    ensures Prefixed(claimed, Prefixed(if head.Some? then [head.value] else [], rest)) ==
            Prefixed(claimed + if head.Some? then [head.value] else [], rest)
  {
    if rest.outcome.Done? {
      var now := if head.Some? then [head.value] else [];
      assert claimed + (now + rest.outcome.value) == (claimed + now) + rest.outcome.value;
    }
  }

  lemma {:induction false} RunAppends(db: Db, first: seq<Step>, second: seq<Step>)
    ensures Run(db, first + second) == Run(Run(db, first), second)
    decreases |second|
  {
    hide Apply;
    if second == [] {
      assert first + second == first;
    } else {
      var n := |second| - 1;
      RunAppends(db, first, second[..n]);
      assert (first + second)[..|first + second| - 1] == first + second[..n];
    }
  }

  ghost function Extended(db: Db, steps: seq<Step>, step: Step): (r: seq<Step>)
    ensures Run(db, r) == Apply(Run(db, steps), step)
    ensures steps <= r && |r| == |steps| + 1 && r[|steps|] == step
  {
    assert (steps + [step])[..|steps|] == steps;
    steps + [step]
  }

  ghost function Interfered(db: Db, steps: seq<Step>, others: seq<Step>): (r: seq<Step>)
    ensures Run(db, r) == Run(Run(db, steps), others)
    ensures steps <= r
  {
    RunAppends(db, steps, others);
    steps + others
  }

  function Least(a: nat, b: nat): nat { if a < b then a else b }

  /** How many claimed rows a pass executes: as many as batch and call cap allow. */
  function PassLimit(claimed: nat, ingested: nat): (r: nat)
    ensures r <= claimed && r <= 16 && r + Least(ingested, 16) <= 32
    ensures r == claimed || r == 16 || r + Least(ingested, 16) == 32
  {
    Least(claimed, Least(BATCH_SIZE, HARD_CALL_CAP - Least(ingested, BATCH_SIZE)))
  }

  // ---------- what a pass did ----------

  /** Some step after `p` records the failure of `row` under this code. */
  ghost predicate FailureFollows(steps: seq<Step>, p: nat, row: Execution, fence: Fence, code: FailureCode, terminalize: bool) {
    exists q | p < q < |steps| ::
      steps[q].FailStep? && steps[q].row == row && steps[q].fence == fence && steps[q].code == code && steps[q].terminalize == terminalize
  }

  /** Step `p` executes `row` and, if its transaction throws, a later step records the code that error stands for. */
  ghost predicate Handled(start: Db, steps: seq<Step>, p: nat, row: Execution, fence: Fence) {
    && p < |steps| && steps[p].ExecuteStep? && steps[p].row == row && steps[p].fence == fence
    && match ExecuteOne(Run(start, steps[..p]), row, fence, steps[p].clock).outcome
       case Done(_) => true
       case Collision => FailureFollows(steps, p, row, fence, IdempotencyConflict, false)
       case TransitionCollision => FailureFollows(steps, p, row, fence, IdempotencyConflict, true)
       case Failed => FailureFollows(steps, p, row, fence, EffectFailed, false)
  }

  lemma HandledStays(start: Db, steps: seq<Step>, more: seq<Step>, p: nat, row: Execution, fence: Fence)
    requires Handled(start, steps, p, row, fence) && steps <= more
    ensures Handled(start, more, p, row, fence)
  {
    hide Run, ExecuteOne;
    assert more[..p] == steps[..p];
    forall code, terminalize | FailureFollows(steps, p, row, fence, code, terminalize)
      ensures FailureFollows(more, p, row, fence, code, terminalize)
    {
      var q :| p < q < |steps| && steps[q].FailStep? && steps[q].row == row && steps[q].fence == fence &&
               steps[q].code == code && steps[q].terminalize == terminalize;
      assert more[q] == steps[q];
    }
  }

  /** Where a pass ingested, claimed and executed, and what the first two returned. */
  datatype Trace = Trace(ingestAt: nat, created: nat, claimAt: nat, claims: seq<Execution>, executedAt: seq<nat>)

  /** The first claims were executed in their order, each at its own step. */
  ghost predicate InOrder(start: Db, steps: seq<Step>, t: Trace, fence: Fence) {
    && |t.executedAt| <= |t.claims|
    && (forall i | 0 <= i < |t.executedAt| :: t.claimAt < t.executedAt[i] && Handled(start, steps, t.executedAt[i], t.claims[i], fence))
    && (forall i, j | 0 <= i < j < |t.executedAt| :: t.executedAt[i] < t.executedAt[j])
  }

  /** A pass ingests, then claims, then executes as many of its claims as its limit allows. */
  ghost predicate Passed(start: Db, steps: seq<Step>, t: Trace, fence: Fence, visible: seq<EventId>, locked: set<nat>, clock: nat -> Clock) {
    && t.ingestAt < t.claimAt < |steps|
    && steps[t.ingestAt] == IngestStep(fence, visible, clock(0)) && steps[t.claimAt] == ClaimStep(fence, locked, clock(1))
    && Ingest(Run(start, steps[..t.ingestAt]), fence, visible, clock(0)).outcome == Done(t.created)
    && ClaimBatch(Run(start, steps[..t.claimAt]), fence, locked, clock(1)).outcome == Done(t.claims)
    && InOrder(start, steps, t, fence)
  }

  lemma PassedStays(start: Db, steps: seq<Step>, more: seq<Step>, t: Trace, fence: Fence, visible: seq<EventId>, locked: set<nat>, clock: nat -> Clock)
    requires Passed(start, steps, t, fence, visible, locked, clock) && steps <= more
    ensures Passed(start, more, t, fence, visible, locked, clock)
  {
    hide Run, Ingest, ClaimBatch, Handled;
    assert more[..t.ingestAt] == steps[..t.ingestAt] && more[..t.claimAt] == steps[..t.claimAt];
    forall i | 0 <= i < |t.executedAt| ensures Handled(start, more, t.executedAt[i], t.claims[i], fence) {
      HandledStays(start, steps, more, t.executedAt[i], t.claims[i], fence);
    }
  }

  lemma PassedOnce(start: Db, steps: seq<Step>, t: Trace, p: nat, fence: Fence, visible: seq<EventId>, locked: set<nat>, clock: nat -> Clock)
    requires Passed(start, steps, t, fence, visible, locked, clock) && |t.executedAt| < |t.claims|
    requires t.claimAt < p && (forall q <- t.executedAt :: q < p) && Handled(start, steps, p, t.claims[|t.executedAt|], fence)
    ensures Passed(start, steps, t.(executedAt := t.executedAt + [p]), fence, visible, locked, clock)
  {
    hide Run, Ingest, ClaimBatch, Handled;
    var done := t.executedAt + [p];
    forall i, j | 0 <= i < j < |done| ensures done[i] < done[j] {
      assert t.executedAt[i] in t.executedAt;
    }
    assert InOrder(start, steps, t.(executedAt := done), fence);
  }

  /** The code a failed execution is recorded with. */
  function FailureOf(outcome: Outcome<Verdict>): FailureCode {
    if outcome.Collision? || outcome.TransitionCollision? then IdempotencyConflict else EffectFailed
  }

  lemma ExecutedIsHandled(start: Db, steps: seq<Step>, p: nat, row: Execution, fence: Fence, clock: Clock)
    requires p < |steps| && steps[p] == ExecuteStep(row, fence, clock)
    requires var outcome := ExecuteOne(Run(start, steps[..p]), row, fence, clock).outcome;
             outcome.Done? || (p < |steps| - 1 && steps[|steps| - 1].FailStep? &&
               steps[|steps| - 1] == FailStep(row, fence, FailureOf(outcome), outcome.TransitionCollision?, steps[|steps| - 1].clock))
    ensures Handled(start, steps, p, row, fence)
  {
    hide Run, ExecuteOne;
    var outcome := ExecuteOne(Run(start, steps[..p]), row, fence, clock).outcome;
    if !outcome.Done? {
      assert FailureFollows(steps, p, row, fence, FailureOf(outcome), outcome.TransitionCollision?);
    }
  }

  lemma PassBegins(start: Db, steps: seq<Step>, t: Trace, fence: Fence, visible: seq<EventId>, locked: set<nat>, clock: nat -> Clock)
    requires t.executedAt == [] && t.ingestAt < t.claimAt < |steps|
    requires steps[t.ingestAt] == IngestStep(fence, visible, clock(0)) && steps[t.claimAt] == ClaimStep(fence, locked, clock(1))
    requires Ingest(Run(start, steps[..t.ingestAt]), fence, visible, clock(0)).outcome == Done(t.created)
    requires ClaimBatch(Run(start, steps[..t.claimAt]), fence, locked, clock(1)).outcome == Done(t.claims)
    ensures Passed(start, steps, t, fence, visible, locked, clock)
  {
    hide Run, Ingest, ClaimBatch, Handled;
  }

  class Store {
    var executions: map<nat, Execution>
    var sequence: nat
    var ledger: map<(nat, nat), AuditEntry>
    var outbox: map<EventId, Envelope>
    var triggerReceipts: map<EventId, TriggerReceipt>
    var effectReceipts: map<EffectKey, nat>
    var effects: seq<DomainEffect>
    var world: World
    var live: Option<LiveFence>

    function Snapshot(): Db
      reads this
    {
      Db(executions, sequence, ledger, outbox, triggerReceipts, effectReceipts, effects, world, live)
    }

    constructor (db: Db)
      ensures Snapshot() == db
    {
      executions, sequence, ledger, outbox := db.executions, db.sequence, db.ledger, db.outbox;
      triggerReceipts, effectReceipts, effects := db.triggerReceipts, db.effectReceipts, db.effects;
      world, live := db.world, db.live;
    }

    method RollbackTo(saved: Db)
      modifies this
      ensures Snapshot() == Rollback(saved, old(Snapshot()))
    {
      executions, ledger, outbox := saved.executions, saved.ledger, saved.outbox;
      triggerReceipts, effectReceipts, effects := saved.triggerReceipts, saved.effectReceipts, saved.effects;
      world, live := saved.world, saved.live;
    }

    method InsertEvent(row: Execution, entry: AuditEntry) returns (outcome: Outcome<()>)
      modifies this
      ensures Tx(Snapshot(), outcome) == InsertWorkflowEvent(old(Snapshot()), row, entry)
    {
      var id, envelope := EventIdOf(row.id, entry), TransitionEnvelope(row, entry);
      if id !in outbox {
        outbox := outbox[id := envelope];
        return Done(());
      }
      return if outbox[id] == envelope then Done(()) else TransitionCollision;
    }

    method Append(row: Execution, from: State, to: State, o: Options, clock: Clock) returns (outcome: Outcome<Execution>)
      modifies this
      ensures Tx(Snapshot(), outcome) == AppendTransition(old(Snapshot()), row, from, to, o, clock)
    {
      if row.id !in executions { return Failed; }
      var current := executions[row.id];
      if current.state != from || current.revision != row.revision || |current.audit| != current.revision { return Failed; }
      var entry := Entry(row, from, to, o, clock.at);
      var next := Advanced(current, entry, o, clock.now);
      executions := executions[row.id := next];
      if (row.id, entry.revision) in ledger { return Collision; }
      ledger := ledger[(row.id, entry.revision) := entry];
      var published := InsertEvent(next, entry);
      return if published.Done? then Done(next) else TransitionCollision;
    }

    method InsertReceipt(source: EventId, receipt: TriggerReceipt) returns (outcome: Outcome<()>)
      modifies this
      ensures Tx(Snapshot(), outcome) == InsertTriggerReceipt(old(Snapshot()), source, receipt)
    {
      if source in triggerReceipts { return Collision; }
      triggerReceipts := triggerReceipts[source := receipt];
      return Done(());
    }

    method IngestEvent(source: EventId, clock: Clock) returns (outcome: Outcome<nat>)
      requires source in outbox
      modifies this
      ensures Tx(Snapshot(), outcome) == IngestOne(old(Snapshot()), source, clock)
    {
      var event := outbox[source];
      var parsed := ParseTrigger(event);
      var receipt: Outcome<()>;
      if parsed.None? {
        receipt := InsertReceipt(source, Rejected);
        return if receipt.Done? then Done(0) else Collision;
      }
      var prior := FindExecution(Snapshot(), source, sequence);
      if prior.Some? {
        var row := executions[prior.value];
        if row.sourceDigest != event || row.key != EffectKey(source, event) { return Collision; }
        receipt := InsertReceipt(source, Accepted(prior.value));
        return if receipt.Done? then Done(0) else Collision;
      }
      var id := sequence;
      sequence := sequence + 1;
      var row := NewExecution(id, source, event, parsed.value, clock.now);
      if id in executions || (id, 1) in ledger { return Failed; }
      executions := executions[id := row];
      ledger := ledger[(id, 1) := row.audit[0]];
      var published := InsertEvent(row, row.audit[0]);
      if !published.Done? { return TransitionCollision; }
      receipt := InsertReceipt(source, Accepted(id));
      return if receipt.Done? then Done(1) else Collision;
    }

    method IngestOffered(offered: seq<EventId>, clock: Clock) returns (outcome: Outcome<nat>)
      modifies this
      ensures Tx(Snapshot(), outcome) == IngestAll(old(Snapshot()), offered, clock)
    {
      ghost var start := Snapshot();
      var inserted, i := 0, 0;
      while i < |offered|
        invariant i <= |offered|
        invariant IngestAll(start, offered, clock) == Counted(inserted, IngestAll(Snapshot(), offered[i..], clock))
      {
        hide IngestOne;
        ghost var rest := offered[i..];
        assert rest[0] == offered[i] && rest[1..] == offered[i + 1..];
        if offered[i] in outbox {
          var one := IngestEvent(offered[i], clock);
          if !one.Done? { return one; }
          inserted := inserted + one.value;
        }
        i := i + 1;
      }
      return Done(inserted);
    }

    method IngestBatch(fence: Fence, visible: seq<EventId>, clock: Clock) returns (outcome: Outcome<nat>)
      modifies this
      ensures Tx(Snapshot(), outcome) == Ingest(old(Snapshot()), fence, visible, clock)
    {
      var saved := Snapshot();
      if !LockLive(saved, fence, clock.now) { return Done(0); }
      outcome := IngestOffered(SelectTriggers(saved, visible, BATCH_SIZE), clock);
      if !outcome.Done? { RollbackTo(saved); }
    }

    method Terminalize(row: Execution, fence: Fence, clock: Clock) returns (outcome: Outcome<()>)
      modifies this
      ensures Tx(Snapshot(), outcome) == TerminalizeCollision(old(Snapshot()), row, fence, clock)
    {
      hide AppendTransition;
      var saved := Snapshot();
      if !LockLive(saved, fence, clock.now) || row.id !in executions || Terminal(executions[row.id].state) {
        return Done(());
      }
      var current := executions[row.id];
      var appended: Outcome<Execution>;
      if current.state == Queued {
        appended := Append(current, Queued, Running, ClaimOptions(current, fence, ConflictEvent(current)), clock);
        if appended.Done? {
          var claimed := appended.value;
          appended := Append(claimed, Running, DeadLetter, DeadLetterOptions(claimed, IdempotencyConflict, None), clock);
        }
      } else {
        appended := Append(current, Running, DeadLetter,
          DeadLetterOptions(current, IdempotencyConflict, ConflictEvent(current)), clock);
      }
      if appended.Done? { return Done(()); }
      RollbackTo(saved);
      return if appended.Failed? then Failed else Done(());
    }

    /** One loop body of the claim: the source check, then the transition under its own savepoint. */
    method VisitRow(lane: Lane, row: Execution, fence: Fence, clock: Clock) returns (outcome: Outcome<Option<Execution>>)
      modifies this
      ensures Tx(Snapshot(), outcome) == Visit(old(Snapshot()), lane, row, fence, clock)
    {
      var saved := Snapshot();
      var settled: Outcome<()>;
      if !SourceMatches(saved, row) {
        settled := Terminalize(row, fence, clock);
        return if settled.Done? then Done(None) else Failed;
      }
      var moved := Append(row, row.state, LaneTarget(lane), LaneOptions(lane, row, fence), clock);
      if moved.Done? { return Done(if lane == Exhausted then None else Some(moved.value)); }
      RollbackTo(saved);
      if moved.Failed? { return Failed; }
      if moved.Collision? { return Done(None); }
      settled := Terminalize(row, fence, clock);
      return if settled.Done? then Done(None) else Failed;
    }

    method VisitLane(lane: Lane, rows: seq<Execution>, fence: Fence, clock: Clock) returns (outcome: Outcome<seq<Execution>>)
      modifies this
      ensures Tx(Snapshot(), outcome) == VisitAll(old(Snapshot()), lane, rows, fence, clock)
    {
      ghost var start := Snapshot();
      var claimed, i := [], 0;
      assert rows[0..] == rows;
      PrefixedNothing(VisitAll(start, lane, rows, fence, clock));
      while i < |rows|
        invariant i <= |rows|
        invariant VisitAll(start, lane, rows, fence, clock) ==
                  Prefixed(claimed, VisitAll(Snapshot(), lane, rows[i..], fence, clock))
      {
        ghost var rest := rows[i..];
        assert rest[0] == rows[i] && rest[1..] == rows[i + 1..];
        hide Visit;
        ghost var before := Snapshot();
        var one := VisitRow(lane, rows[i], fence, clock);
        if !one.Done? { return Failed; }
        ghost var tail := VisitAll(Snapshot(), lane, rows[i + 1..], fence, clock);
        assert VisitAll(before, lane, rest, fence, clock) == Prefixed(if one.value.Some? then [one.value.value] else [], tail);
        PrefixedStep(claimed, one.value, tail);
        claimed := claimed + if one.value.Some? then [one.value.value] else [];
        i := i + 1;
      }
      assert claimed + [] == claimed;
      return Done(claimed);
    }

    method Claim(fence: Fence, locked: set<nat>, clock: Clock) returns (outcome: Outcome<seq<Execution>>)
      modifies this
      ensures Tx(Snapshot(), outcome) == ClaimBatch(old(Snapshot()), fence, locked, clock)
    {
      var saved := Snapshot();
      if !LockLive(saved, fence, clock.now) { return Done([]); }
      var exhausted, candidates := SelectedRows(saved, Exhausted, clock.now, locked), SelectedRows(saved, Claimable, clock.now, locked);
      outcome := VisitLane(Exhausted, exhausted, fence, clock);
      if outcome.Done? { outcome := VisitLane(Claimable, candidates, fence, clock); }
      if !outcome.Done? { RollbackTo(saved); }
    }

    method Create(row: Execution, at: int) returns (outcome: Outcome<Option<FailureCode>>)
      modifies this
      ensures Tx(Snapshot(), outcome) == CreateEffect(old(Snapshot()), row, at)
      ensures outcome.Done? && outcome.value.Some? <==> !WorkflowEffects.RecordsMatch(old(world), row.trigger)
    {
      var failure := Recheck(world, row);
      WorkflowEffects.RecheckMatchesRecords(world, row);
      if failure.Some? { return Done(failure); }
      if row.key in effectReceipts { return Collision; }
      if row.id in effectReceipts.Values { return Failed; }
      effectReceipts := effectReceipts[row.key := row.id];
      effects := effects + [EffectOf(row)];
      var id := DomainId(row.trigger.workflow, row.key);
      if id in outbox { return Collision; }
      outbox := outbox[id := DomainEnvelope(row, at)];
      return Done(None);
    }

    method Execute(row: Execution, fence: Fence, clock: Clock) returns (outcome: Outcome<Verdict>)
      modifies this
      ensures Tx(Snapshot(), outcome) == ExecuteOne(old(Snapshot()), row, fence, clock)
    {
      var saved := Snapshot();
      if !MayExecute(saved, row, fence, clock.now) { return Done(Stale); }
      var current := executions[row.id];
      var effect := Create(current, clock.at);
      if !effect.Done? {
        RollbackTo(saved);
        return if effect.Collision? then Collision else Failed;
      }
      var failure := effect.value;
      var moved := Append(current, Running, if failure.None? then Succeeded else DeadLetter,
        Options(current.attempt, failure, 0, None, None), clock);
      if moved.Done? { return Done(Executed); }
      RollbackTo(saved);
      return if moved.Collision? then Collision else if moved.TransitionCollision? then TransitionCollision else Failed;
    }

    method Fail(row: Execution, fence: Fence, code: FailureCode, terminalize: bool, clock: Clock) returns (outcome: Outcome<()>)
      modifies this
      ensures Tx(Snapshot(), outcome) == RecordFailure(old(Snapshot()), row, fence, code, terminalize, clock)
    {
      var saved := Snapshot();
      if !LockLive(saved, fence, clock.now) || !ClaimHeld(saved, row, fence) { return Done(()); }
      var current := executions[row.id];
      var moved: Outcome<Execution>;
      if terminalize {
        moved := Append(current, Running, DeadLetter, DeadLetterOptions(current, IdempotencyConflict, ConflictEvent(current)), clock);
      } else if current.attempt >= MAX_ATTEMPTS {
        moved := Append(current, Running, DeadLetter,
          DeadLetterOptions(current, if code == IdempotencyConflict then code else RetryExhausted, None), clock);
      } else {
        moved := Append(current, Running, Queued,
          Options(current.attempt, Some(code), current.attempt * RETRY_STEP_SECONDS, None, None), clock);
      }
      if moved.Done? { return Done(()); }
      RollbackTo(saved);
      return if moved.Collision? then Collision else if moved.TransitionCollision? then TransitionCollision else Failed;
    }

    /** What others commit between two transactions of this worker. */
    method Interfere(others: seq<Step>)
      modifies this
      ensures Snapshot() == Run(old(Snapshot()), others)
    {
      var db := Run(Snapshot(), others);
      executions, sequence, ledger, outbox := db.executions, db.sequence, db.ledger, db.outbox;
      triggerReceipts, effectReceipts, effects := db.triggerReceipts, db.effectReceipts, db.effects;
      world, live := db.world, db.live;
    }

    /**
     One claimed row of a pass: its execution at step `p`, and the recording of a throw; `ended` is false when even that threw.
     `earlier` is the run so far and `k` counts the transactions of the pass.
     */
    method ExecuteClaimed(row: Execution, fence: Fence, clock: nat -> Clock, others: nat -> seq<Step>, k: nat, ghost start: Db, ghost earlier: seq<Step>)
      returns (ended: bool, next: nat, ghost steps: seq<Step>, ghost p: nat)
      requires Snapshot() == Run(start, earlier)
      modifies this
      ensures Snapshot() == Run(start, steps) && earlier <= steps && |earlier| <= p < |steps|
      ensures ended ==> Handled(start, steps, p, row, fence)
    {
      hide ExecuteOne, RecordFailure, Handled, Run;
      steps := Interfered(start, earlier, others(k));
      Interfere(others(k));
      p := |steps|;
      ghost var unexecuted := steps;
      var executed := Execute(row, fence, clock(k));
      steps := Extended(start, steps, ExecuteStep(row, fence, clock(k)));
      next := k + 1;
      if !executed.Done? {
        var code, terminalize := FailureOf(executed), executed.TransitionCollision?;
        steps := Interfered(start, steps, others(next));
        Interfere(others(next));
        var recovered := Fail(row, fence, code, terminalize, clock(next));
        steps := Extended(start, steps, FailStep(row, fence, code, terminalize, clock(next)));
        next := next + 1;
        if recovered.Failed? { return false, next, steps, p; }
      }
      assert steps[..p] == unexecuted;
      ExecutedIsHandled(start, steps, p, row, fence, clock(k));
      return true, next, steps, p;
    }

    /**
     One pass of a worker, as `processGeneratedSalesWorkflows` drives it: `clock(k)` is read by its k-th transaction and
     `others(k)` is what other workers commit just before that one.  `steps` is the run the tables went through and `trace`
     says where in it this worker did what.
     */
    method Process(fence: Fence, visible: seq<EventId>, locked: set<nat>, clock: nat -> Clock, others: nat -> seq<Step>)
      returns (outcome: Outcome<nat>, ghost steps: seq<Step>, ghost trace: Trace)
      modifies this
      ensures Snapshot() == Run(old(Snapshot()), steps)
      ensures outcome.Done? ==> Passed(old(Snapshot()), steps, trace, fence, visible, locked, clock)
      ensures outcome.Done? ==> outcome.value == |trace.executedAt| == PassLimit(|trace.claims|, trace.created)
    {
      hide Ingest, ClaimBatch, ExecuteOne, RecordFailure, Passed, Handled, Run;
      ghost var start := Snapshot();
      steps := others(0);
      trace := Trace(|steps|, 0, 0, [], []);
      Interfere(others(0));
      var ingested := IngestBatch(fence, visible, clock(0));
      steps := Extended(start, steps, IngestStep(fence, visible, clock(0)));
      if !ingested.Done? { return ingested, steps, trace; }
      steps := Interfered(start, steps, others(1));
      trace := Trace(trace.ingestAt, ingested.value, |steps|, [], []);
      ghost var unclaimed := steps;
      Interfere(others(1));
      var claimed := Claim(fence, locked, clock(1));
      steps := Extended(start, steps, ClaimStep(fence, locked, clock(1)));
      if !claimed.Done? { return Failed, steps, trace; }
      trace := trace.(claims := claimed.value);
      assert steps[..trace.ingestAt] == others(0) && steps[..trace.claimAt] == unclaimed;
      PassBegins(start, steps, trace, fence, visible, locked, clock);
      var limit := PassLimit(|claimed.value|, ingested.value);
      var i, k := 0, 2;
      while i < limit
        invariant 0 <= i <= limit <= |claimed.value|
        invariant Snapshot() == Run(start, steps)
        invariant Passed(start, steps, trace, fence, visible, locked, clock)
        invariant trace.claims == claimed.value && trace.created == ingested.value && |trace.executedAt| == i
        invariant trace.claimAt < |steps| && forall q <- trace.executedAt :: q < |steps|
      {
        ghost var earlier, p := steps, 0;
        var ended;
        ended, k, steps, p := ExecuteClaimed(claimed.value[i], fence, clock, others, k, start, earlier);
        if !ended { return Failed, steps, trace; }
        PassedStays(start, earlier, steps, trace, fence, visible, locked, clock);
        PassedOnce(start, steps, trace, p, fence, visible, locked, clock);
        trace := trace.(executedAt := trace.executedAt + [p]);
        i := i + 1;
      }
      return Done(limit), steps, trace;
    }
  }
}
