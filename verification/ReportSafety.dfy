/** What every run of the report lane keeps: histories, retries, deliveries and slots. */
module ReportSafety {
  import opened Wrappers
  import opened Fencing
  import opened WeeklySlots
  import opened ReportModel

  ghost predicate Linked(audit: seq<AuditEntry>) {
    && |audit| >= 1 && audit[0].from == Absent
    && (forall i | 0 <= i < |audit| :: audit[i].revision == i + 1)
    && (forall i | 1 <= i < |audit| :: audit[i].from == At(audit[i - 1].to))
  }

  predicate Bounded(run: Run) {
    match run.state
    case Queued => run.attempt <= 2 && run.revision <= 2 * run.attempt + 1
    case Running => 1 <= run.attempt <= 3 && run.revision <= 2 * run.attempt
    case _ => 1 <= run.attempt <= 3 && run.revision <= 2 * run.attempt + 1
  }

  predicate LeaseShape(run: Run) {
    (run.state == Running <==> run.worker.Some?) && (run.worker.Some? <==> run.leaseExpiresAt.Some?)
  }

  /** An entry has its ledger row and its event. */
  ghost predicate Evidenced(db: Db, key: Key, entry: AuditEntry) {
    (key, entry.revision) in db.ledger && db.ledger[(key, entry.revision)] == entry && (key, entry.revision) in db.events
  }

  ghost predicate RunSound(db: Db, key: Key)
    requires key in db.runs
  {
    var run := db.runs[key];
    && Linked(run.audit) && |run.audit| == run.revision && run.audit[|run.audit| - 1].to == run.state
    && Bounded(run) && LeaseShape(run)
    && (run.request.Scheduled? ==> key == SlotKey(run.request.schedule, run.request.slot, run.request.window))
    && (forall entry <- run.audit :: Evidenced(db, key, entry))
  }

  ghost predicate LedgerExact(db: Db) {
    forall p <- db.ledger :: p.0 in db.runs && 1 <= p.1 <= db.runs[p.0].revision
  }

  /** What a succeeded run leaves: one artifact and one receipt, both with the digests the run stores. */
  ghost predicate DeliveryExact(db: Db, key: Key)
    requires key in db.runs
  {
    var run := db.runs[key];
    && (run.state == Succeeded <==> key in db.artifacts) && (key in db.artifacts <==> key in db.receipts)
    && (key in db.artifacts && key in db.receipts ==>
          run.artifact == Some(db.artifacts[key].digest) && run.metadata == Some(db.artifacts[key].metadata) &&
          db.receipts[key] == Receipt(db.artifacts[key].digest, db.artifacts[key].metadata))
  }

  ghost predicate RunsSound(db: Db) {
    && (forall key <- db.runs :: RunSound(db, key) && DeliveryExact(db, key))
    && LedgerExact(db)
    && db.artifacts.Keys <= db.runs.Keys && db.receipts.Keys <= db.runs.Keys
  }

  predicate Evolves(a: Run, b: Run) {
    && a.request == b.request && a.audit <= b.audit && (a == b || |a.audit| < |b.audit|)
    && a.attempt <= b.attempt && (Terminal(a.state) ==> a == b)
  }

  ghost predicate RunsEvolve(a: Db, b: Db) {
    && (forall key <- a.runs :: key in b.runs && Evolves(a.runs[key], b.runs[key]))
    && (forall key <- a.artifacts :: key in b.artifacts && b.artifacts[key] == a.artifacts[key])
    && (forall key <- a.receipts :: key in b.receipts && b.receipts[key] == a.receipts[key])
    && (forall p <- a.ledger :: p in b.ledger && b.ledger[p] == a.ledger[p])
    && a.offset == b.offset
  }

  lemma EvolvesTrans(a: Db, b: Db, c: Db)
    requires RunsEvolve(a, b) && RunsEvolve(b, c)
    ensures RunsEvolve(a, c)
  {
    forall key <- a.runs ensures key in c.runs && Evolves(a.runs[key], c.runs[key]) {
      assert Evolves(a.runs[key], b.runs[key]) && Evolves(b.runs[key], c.runs[key]);
    }
  }

  lemma EvolvesRefl(db: Db)
    ensures RunsEvolve(db, db)
  {
  }

  // ---------- recording one move ----------

  /** A move of an existing run that the retry budget allows. */
  ghost predicate LegalMove(db: Db, key: Key, moved: Run, from: Origin) {
    && key in db.runs
    && var run := db.runs[key];
    && !Terminal(run.state) && from == At(run.state) && moved.revision == run.revision + 1 && moved.audit == run.audit
    && moved.request == run.request && run.attempt <= moved.attempt
    && Bounded(moved) && LeaseShape(moved)
  }

  /** `after` is `before` with one run stored at its next revision; deliveries may have been added for it. */
  ghost predicate Recorded(before: Db, after: Db, key: Key, moved: Run, from: Origin, failure: Option<Code>) {
    var entry := AuditEntry(from, moved.state, moved.revision, failure);
    && (key, moved.revision) !in before.ledger
    && after == before.(runs := before.runs[key := moved.(audit := moved.audit + [entry])],
                        ledger := before.ledger[(key, moved.revision) := entry],
                        events := before.events + {(key, moved.revision)},
                        artifacts := after.artifacts, receipts := after.receipts)
  }

  lemma MovedRunIsSound(before: Db, after: Db, key: Key, moved: Run, from: Origin, failure: Option<Code>)
    requires key in before.runs && RunSound(before, key) && LegalMove(before, key, moved, from)
    requires Recorded(before, after, key, moved, from, failure)
    ensures RunSound(after, key) && Evolves(before.runs[key], after.runs[key])
  {
    forall e <- after.runs[key].audit ensures Evidenced(after, key, e) {
      if e in moved.audit { assert Evidenced(before, key, e); }
    }
  }

  lemma OtherRunsAreSound(before: Db, after: Db, key: Key, moved: Run, from: Origin, failure: Option<Code>, other: Key)
    requires other in before.runs && other != key && RunSound(before, other)
    requires Recorded(before, after, key, moved, from, failure)
    ensures RunSound(after, other)
  {
    forall e <- after.runs[other].audit ensures Evidenced(after, other, e) {
      assert Evidenced(before, other, e);
    }
  }

  /** A recorded move keeps every run sound and history growing, given the deliveries fit. */
  lemma MoveKeeps(before: Db, after: Db, key: Key, moved: Run, from: Origin, failure: Option<Code>)
    requires RunsSound(before) && LegalMove(before, key, moved, from) && Recorded(before, after, key, moved, from, failure)
    requires forall k <- before.artifacts :: k in after.artifacts && after.artifacts[k] == before.artifacts[k]
    requires forall k <- before.receipts :: k in after.receipts && after.receipts[k] == before.receipts[k]
    requires after.artifacts.Keys <= after.runs.Keys && after.receipts.Keys <= after.runs.Keys
    requires forall k <- after.runs :: DeliveryExact(after, k)
    ensures RunsSound(after) && RunsEvolve(before, after)
  {
    hide DeliveryExact, RunSound, Evolves;
    assert RunSound(before, key);
    MovedRunIsSound(before, after, key, moved, from, failure);
    forall k <- after.runs ensures RunSound(after, k) {
      if k != key { OtherRunsAreSound(before, after, key, moved, from, failure, k); }
    }
    forall k <- before.runs ensures k in after.runs && Evolves(before.runs[k], after.runs[k]) {
      if k != key { SameRunEvolves(before.runs[k]); }
    }
  }

  lemma SameRunEvolves(run: Run)
    ensures Evolves(run, run)
  {
  }

  /** A move to anything but success, with deliveries untouched. */
  lemma PlainMoveKeeps(db: Db, key: Key, moved: Run, from: Origin, failure: Option<Code>)
    requires RunsSound(db) && LegalMove(db, key, moved, from) && moved.state != Succeeded
    ensures var r := Record(db, key, moved, from, failure); r.Some? ==> RunsSound(r.value) && RunsEvolve(db, r.value)
  {
    hide RunSound, RunsEvolve;
    var r := Record(db, key, moved, from, failure);
    if r.Some? {
      forall k <- r.value.runs ensures DeliveryExact(r.value, k) { assert DeliveryExact(db, k); }
      MoveKeeps(db, r.value, key, moved, from, failure);
    }
  }

  lemma DeliveryIsLegal(db: Db, key: Key, artifact: Digest, metadata: Digest)
    requires RunsSound(db) && key in db.runs && db.runs[key].state == Running
    ensures LegalMove(db, key, Released(db.runs[key], Succeeded, db.runs[key].failure).(artifact := Some(artifact), metadata := Some(metadata)), At(Running))
  {
    assert RunSound(db, key);
  }

  lemma DeliverKeeps(db: Db, key: Key, artifact: Digest, metadata: Digest)
    requires RunsSound(db) && key in db.runs && db.runs[key].state == Running
    ensures var r := Deliver(db, key, artifact, metadata); r.Some? ==> RunsSound(r.value) && RunsEvolve(db, r.value)
  {
    hide RunsEvolve, RunSound, LegalMove;
    DeliveryIsLegal(db, key, artifact, metadata);
    var moved := Released(db.runs[key], Succeeded, db.runs[key].failure).(artifact := Some(artifact), metadata := Some(metadata));
    var r := Deliver(db, key, artifact, metadata);
    if r.Some? {
      forall k <- r.value.runs ensures DeliveryExact(r.value, k) { assert DeliveryExact(db, k); }
      hide DeliveryExact;
      MoveKeeps(db, r.value, key, moved, At(Running), None);
    }
  }

  lemma NewRunIsSound(db: Db, key: Key, request: Request, now: int)
    requires key !in db.runs && (request.Scheduled? ==> key == SlotKey(request.schedule, request.slot, request.window))
    ensures var r := Record(db, key, NewRun(request, now), Absent, None); r.Some? ==> RunSound(r.value, key)
  {
  }

  lemma NewRunKeeps(db: Db, key: Key, request: Request, now: int)
    requires RunsSound(db) && key !in db.runs
    requires request.Scheduled? ==> key == SlotKey(request.schedule, request.slot, request.window)
    ensures var r := Record(db, key, NewRun(request, now), Absent, None); r.Some? ==> RunsSound(r.value) && RunsEvolve(db, r.value)
  {
    hide RunSound, DeliveryExact, Evolves;
    var r := Record(db, key, NewRun(request, now), Absent, None);
    if r.Some? {
      NewRunIsSound(db, key, request, now);
      NewRunDeliversNothing(db, key, request, now);
      forall k <- r.value.runs ensures RunSound(r.value, k) {
        if k != key { OtherRunsAreSound(db, r.value, key, NewRun(request, now), Absent, None, k); }
      }
      forall k <- db.runs ensures Evolves(db.runs[k], r.value.runs[k]) { SameRunEvolves(db.runs[k]); }
    }
  }

  lemma NewRunDeliversNothing(db: Db, key: Key, request: Request, now: int)
    requires key !in db.runs && db.artifacts.Keys <= db.runs.Keys && db.receipts.Keys <= db.runs.Keys
    requires forall k <- db.runs :: DeliveryExact(db, k)
    ensures var r := Record(db, key, NewRun(request, now), Absent, None);
            r.Some? ==> forall k <- r.value.runs :: DeliveryExact(r.value, k)
  {
    var r := Record(db, key, NewRun(request, now), Absent, None);
    if r.Some? {
      forall k <- r.value.runs ensures DeliveryExact(r.value, k) {
        if k != key { assert DeliveryExact(db, k); }
      }
    }
  }

  // ---------- transactions ----------

  /** Schedules, their events and the fence are no concern of the runs. */
  lemma ScheduleFrame(a: Db, b: Db)
    requires RunsSound(a)
    requires b == a.(schedules := b.schedules, scheduleEvents := b.scheduleEvents, events := b.events, live := b.live)
    requires a.events <= b.events
    ensures RunsSound(b) && RunsEvolve(a, b)
  {
    hide Linked;
    forall k <- b.runs ensures RunSound(b, k) && DeliveryExact(b, k) {
      assert RunSound(a, k) && DeliveryExact(a, k);
      forall e <- b.runs[k].audit ensures Evidenced(b, k, e) { assert Evidenced(a, k, e); }
    }
  }

  lemma ExhaustKeeps(db: Db, key: Key, now: int)
    requires RunsSound(db)
    ensures var r := Exhaust(db, key, now); r.Some? ==> RunsSound(r.value) && RunsEvolve(db, r.value)
  {
    EvolvesRefl(db);
    if Exhausted(db, key, now) {
      assert RunSound(db, key);
      PlainMoveKeeps(db, key, Released(db.runs[key], DeadLetter, Some(RetryExhausted)), At(Running), Some(RetryExhausted));
    }
  }

  lemma ClaimKeeps(db: Db, key: Key, fence: Fence, now: int)
    requires RunsSound(db)
    ensures var r := Claim(db, key, fence, now); r.Some? ==> RunsSound(r.value) && RunsEvolve(db, r.value)
  {
    EvolvesRefl(db);
    if Claimable(db, key, now) {
      assert RunSound(db, key);
      PlainMoveKeeps(db, key, Claimed(db.runs[key], fence, now), At(db.runs[key].state), None);
    }
  }

  lemma EnsureRunKeeps(db: Db, id: nat, slot: int, window: nat, now: int)
    requires RunsSound(db)
    ensures var r := EnsureRun(db, id, slot, window, now);
            r.Some? ==> RunsSound(r.value) && RunsEvolve(db, r.value) && r.value.schedules == db.schedules
    ensures var r := EnsureRun(db, id, slot, window, now);
            var key := SlotKey(id, slot, window);
            r.Some? ==> key in r.value.runs && r.value.runs[key].request == Scheduled(id, slot, window) &&
                        r.value.runs.Keys == db.runs.Keys + {key} && forall k <- db.runs :: r.value.runs[k] == db.runs[k]
  {
    hide RunsSound, RunsEvolve;
    EvolvesRefl(db);
    if SlotKey(id, slot, window) !in db.runs {
      NewRunKeeps(db, SlotKey(id, slot, window), Scheduled(id, slot, window), now);
    }
  }

  lemma EnqueueKeeps(db: Db, id: nat, ready: bool, now: int)
    requires RunsSound(db)
    ensures var r := Enqueue(db, id, ready, now); r.Some? ==> RunsSound(r.value) && RunsEvolve(db, r.value)
  {
    hide RunsSound, RunsEvolve;
    EvolvesRefl(db);
    var r := Enqueue(db, id, ready, now);
    if Due(db, id, now) && r.Some? {
      if ready {
        var s := db.schedules[id];
        EnsureRunKeeps(db, id, s.nextRunAt.value, s.window, now);
        var ensured := EnsureRun(db, id, s.nextRunAt.value, s.window, now).value;
        ScheduleFrame(ensured, r.value);
        EvolvesTrans(db, ensured, r.value);
      } else {
        ScheduleFrame(db, r.value);
      }
    }
  }

  lemma PerformKeeps(db: Db, duty: Duty, fence: Fence, now: int)
    requires RunsSound(db)
    ensures var r := Perform(db, duty, fence, now); r.Some? ==> RunsSound(r.value) && RunsEvolve(db, r.value)
  {
    hide RunsSound, RunsEvolve, Enqueue, Exhaust, Claim;
    match duty
    case EnqueueDuty(id, ready) => EnqueueKeeps(db, id, ready, now);
    case ExhaustDuty(key) => ExhaustKeeps(db, key, now);
    case ClaimDuty(key) => ClaimKeeps(db, key, fence, now);
  }

  lemma {:induction false} PerformAllKeeps(db: Db, duties: seq<Duty>, fence: Fence, now: int)
    requires RunsSound(db)
    ensures var r := PerformAll(db, duties, fence, now); r.Some? ==> RunsSound(r.value) && RunsEvolve(db, r.value)
    decreases |duties|
  {
    hide RunsSound, RunsEvolve, Perform;
    EvolvesRefl(db);
    if duties != [] {
      PerformKeeps(db, duties[0], fence, now);
      var one := Perform(db, duties[0], fence, now);
      if one.Some? {
        PerformAllKeeps(one.value, duties[1..], fence, now);
        var rest := PerformAll(one.value, duties[1..], fence, now);
        if rest.Some? { EvolvesTrans(db, one.value, rest.value); }
      }
    }
  }

  lemma BuryKeeps(db: Db, key: Key, code: Code)
    requires RunsSound(db) && key in db.runs && db.runs[key].state == Running
    ensures var r := Bury(db, key, code); r.Some? ==> RunsSound(r.value) && RunsEvolve(db, r.value)
  {
    assert RunSound(db, key);
    PlainMoveKeeps(db, key, Released(db.runs[key], DeadLetter, Some(code)), At(Running), Some(code));
  }

  lemma ExecuteKeeps(db: Db, key: Key, fence: Fence, x: Execution, now: int)
    requires RunsSound(db)
    ensures var r := OrSame(db, Execute(db, key, fence, x, now)); RunsSound(r) && RunsEvolve(db, r)
  {
    hide RunsSound, RunsEvolve, Bury, Deliver;
    EvolvesRefl(db);
    if Holds(db, key, fence) {
      match x
      case Forbidden => BuryKeeps(db, key, RecipientForbidden);
      case Stale => BuryKeeps(db, key, AuthorityStale);
      case Produced(artifact, metadata) => DeliverKeeps(db, key, artifact, metadata);
      case Thrown =>
    }
  }

  lemma RequeueKeeps(db: Db, key: Key, fence: Fence, code: Code, now: int)
    requires RunsSound(db)
    ensures var r := OrSame(db, Requeue(db, key, fence, code, now)); RunsSound(r) && RunsEvolve(db, r)
  {
    EvolvesRefl(db);
    hide RunsEvolve, RunsSound, Record, LegalMove;
    if Holds(db, key, fence) {
      var run := db.runs[key];
      var last := if Authoritative(code) then code else RetryExhausted;
      var delay := if run.attempt == 1 then 15_000 else 30_000;
      RequeueIsLegal(db, key, last, code, now + delay);
      if run.attempt >= MAX_ATTEMPTS || Authoritative(code) {
        PlainMoveKeeps(db, key, Released(run, DeadLetter, Some(last)), At(Running), Some(last));
      } else {
        PlainMoveKeeps(db, key, Released(run, Queued, Some(code)).(nextAttemptAt := now + delay), At(Running), Some(code));
      }
    }
  }

  lemma RequeueIsLegal(db: Db, key: Key, last: Code, code: Code, at: int)
    requires RunsSound(db) && key in db.runs && db.runs[key].state == Running
    ensures LegalMove(db, key, Released(db.runs[key], DeadLetter, Some(last)), At(Running))
    ensures db.runs[key].attempt < MAX_ATTEMPTS ==>
              LegalMove(db, key, Released(db.runs[key], Queued, Some(code)).(nextAttemptAt := at), At(Running))
  {
    assert RunSound(db, key);
  }

  lemma StepKeeps(db: Db, step: Step, now: int)
    requires RunsSound(db)
    ensures RunsSound(Apply(db, step, now)) && RunsEvolve(db, Apply(db, step, now))
  {
    hide RunsSound, RunsEvolve, PerformAll, Execute, Requeue, OrSame;
    EvolvesRefl(db);
    match step
    case AskStep(key, request) =>
      if request.Asked? && key !in db.runs { NewRunKeeps(db, key, request, now); }
    case PassStep(duties, fence) => PerformAllKeeps(db, duties, fence, now);
    case ExecuteStep(key, fence, x) => ExecuteKeeps(db, key, fence, x, now);
    case RequeueStep(key, fence, code) => RequeueKeeps(db, key, fence, code, now);
    case UpsertStep(id, expected, window, weekday, time) => UpsertFrame(db, id, expected, window, weekday, time, now);
    case CancelStep(id, expected) => CancelFrame(db, id, expected);
    case Environment(_, _, _) => ScheduleFrame(db, Apply(db, step, now));
  }

  lemma UpsertFrame(db: Db, id: nat, expected: nat, window: nat, weekday: int, time: int, now: int)
    requires RunsSound(db)
    ensures var r := Upsert(db, id, expected, window, weekday, time, now); RunsSound(r) && RunsEvolve(db, r)
  {
    hide RunsSound, RunsEvolve;
    ScheduleFrame(db, Upsert(db, id, expected, window, weekday, time, now));
  }

  lemma CancelFrame(db: Db, id: nat, expected: nat)
    requires RunsSound(db)
    ensures var r := Cancel(db, id, expected); RunsSound(r) && RunsEvolve(db, r)
  {
    hide RunsSound, RunsEvolve;
    ScheduleFrame(db, Cancel(db, id, expected));
  }

  lemma {:induction false} RunKeeps(sys: System, steps: seq<Timed>)
    requires RunsSound(sys.db)
    ensures var after := RunAll(sys, steps); RunsSound(after.db) && RunsEvolve(sys.db, after.db) && sys.now <= after.now
    decreases |steps|
  {
    hide RunsSound, RunsEvolve, Apply;
    EvolvesRefl(sys.db);
    if steps != [] {
      var n := |steps| - 1;
      RunKeeps(sys, steps[..n]);
      var before := RunAll(sys, steps[..n]);
      StepKeeps(before.db, steps[n].step, before.now + steps[n].elapsed);
      EvolvesTrans(sys.db, before.db, RunAll(sys, steps).db);
    }
  }

  function Reached(offset: int, live: LiveFence, now: int, steps: seq<Timed>): Db {
    RunAll(Initial(offset, live, now), steps).db
  }

  /** Every reachable run: a linked history of at most seven revisions, one ledger row and event for each, bounded attempts. */
  lemma RunsAreBounded(offset: int, live: LiveFence, now: int, steps: seq<Timed>, key: Key)
    requires key in Reached(offset, live, now, steps).runs
    ensures var db := Reached(offset, live, now, steps);
            var run := db.runs[key];
            && Linked(run.audit) && |run.audit| == run.revision <= 7 && run.attempt <= 3
            && (run.state == Queued ==> run.attempt < 3)
            && (forall r: nat :: (key, r) in db.ledger <==> 1 <= r <= run.revision)
            && (forall r: nat | 1 <= r <= run.revision :: (key, r) in db.events)
  {
    var db := Reached(offset, live, now, steps);
    RunKeeps(Initial(offset, live, now), steps);
    hide Reached, RunsEvolve, DeliveryExact;
    assert RunSound(db, key);
    forall r: nat | 1 <= r <= db.runs[key].revision ensures (key, r) in db.ledger && (key, r) in db.events {
      assert Evidenced(db, key, db.runs[key].audit[r - 1]);
    }
  }

  /** Success is exactly one artifact and one delivery receipt, carrying the same two digests. */
  lemma SucceededMeansDelivered(offset: int, live: LiveFence, now: int, steps: seq<Timed>, key: Key)
    requires key in Reached(offset, live, now, steps).runs
    ensures var db := Reached(offset, live, now, steps);
            var run := db.runs[key];
            && (run.state == Succeeded <==> key in db.artifacts) && (key in db.artifacts <==> key in db.receipts)
            && (run.state == Succeeded ==>
                  && run.artifact == Some(db.artifacts[key].digest) == Some(db.receipts[key].artifact)
                  && run.metadata == Some(db.artifacts[key].metadata) == Some(db.receipts[key].metadata))
  {
    RunKeeps(Initial(offset, live, now), steps);
    assert DeliveryExact(Reached(offset, live, now, steps), key);
  }

  /** A finished run, its artifact and its receipt never change. */
  lemma TerminalIsFinal(sys: System, steps: seq<Timed>, key: Key)
    requires RunsSound(sys.db) && key in sys.db.runs && (sys.db.runs[key].state == Succeeded || sys.db.runs[key].state == DeadLetter)
    ensures var after := RunAll(sys, steps).db; key in after.runs && after.runs[key] == sys.db.runs[key]
  {
    RunKeeps(sys, steps);
    assert Evolves(sys.db.runs[key], RunAll(sys, steps).db.runs[key]);
  }
}
