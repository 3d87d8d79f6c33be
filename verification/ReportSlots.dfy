/** Slots and runs: each slot of a schedule gets at most one run, and is passed only once it has it. */
module ReportSlots {
  import opened Wrappers
  import opened Fencing
  import opened WeeklySlots
  import opened ReportModel

  predicate SlotRun(db: Db, key: Key) { key in db.runs && db.runs[key].request.Scheduled? }

  /** The run of a slot sits under the slot's own key, lies in the past, and behind its schedule's next slot. */
  ghost predicate SlotSound(sys: System, key: Key)
    requires SlotRun(sys.db, key)
  {
    var r := sys.db.runs[key].request;
    && key == SlotKey(r.schedule, r.slot, r.window) && r.slot <= sys.now
    && r.schedule in sys.db.schedules
    && var s := sys.db.schedules[r.schedule];
    s.nextRunAt.Some? ==> r.slot < s.nextRunAt.value
  }

  predicate SameSlot(a: Request, b: Request) {
    a.Scheduled? && b.Scheduled? && a.schedule == b.schedule && a.slot == b.slot
  }

  ghost predicate OneRunEach(db: Db) {
    forall a, b | SlotRun(db, a) && SlotRun(db, b) && SameSlot(db.runs[a].request, db.runs[b].request) :: a == b
  }

  ghost predicate SlotsSound(sys: System) {
    && (forall key <- sys.db.runs :: SlotRun(sys.db, key) ==> SlotSound(sys, key))
    && OneRunEach(sys.db)
    && (forall id <- sys.db.schedules :: sys.db.schedules[id].state == Active <==> sys.db.schedules[id].nextRunAt.Some?)
  }

  // ---------- one duty ----------

  /** No slot run appears or changes, and no schedule moves. */
  ghost predicate SlotsUntouched(a: Db, b: Db) {
    && b.schedules == a.schedules && a.runs.Keys <= b.runs.Keys
    && (forall key <- a.runs :: b.runs[key].request == a.runs[key].request)
    && (forall key <- b.runs :: key !in a.runs ==> b.runs[key].request.Asked?)
  }

  lemma UntouchedKeeps(a: Db, b: Db, then_: int, now: int)
    requires SlotsSound(System(a, then_)) && SlotsUntouched(a, b) && then_ <= now
    ensures SlotsSound(System(b, now))
  {
    forall key <- b.runs | SlotRun(b, key) ensures SlotSound(System(b, now), key) {
      assert SlotRun(a, key) && SlotSound(System(a, then_), key);
    }
    forall x, y | SlotRun(b, x) && SlotRun(b, y) && SameSlot(b.runs[x].request, b.runs[y].request)
      ensures x == y
    {
      assert SlotRun(a, x) && SlotRun(a, y);
    }
  }

  /** A due slot has no run under any window yet. */
  lemma DueSlotIsNew(sys: System, id: nat, key: Key)
    requires SlotsSound(sys) && Due(sys.db, id, sys.now) && SlotRun(sys.db, key)
    requires sys.db.runs[key].request.schedule == id
    ensures sys.db.runs[key].request.slot < sys.db.schedules[id].nextRunAt.value
  {
    assert SlotSound(sys, key);
  }

  /** The commit that advances a schedule past a slot is the commit that ensures the slot's run. */
  lemma EnqueueAdvancesOnlyWithItsRun(db: Db, id: nat, ready: bool, now: int)
    requires Due(db, id, now)
    ensures var r := Enqueue(db, id, ready, now);
            var s := db.schedules[id];
            var key := SlotKey(id, s.nextRunAt.value, s.window);
            r.Some? ==>
              && id in r.value.schedules && r.value.schedules[id].revision == s.revision + 1
              && (ready ==> key in r.value.runs && r.value.runs[key].request == Scheduled(id, s.nextRunAt.value, s.window) &&
                            r.value.schedules[id] == s.(nextRunAt := Some(s.nextRunAt.value + WEEK), revision := s.revision + 1))
              && (!ready ==> r.value.schedules[id].state == Cancelled && r.value.runs == db.runs)
  {
  }

  lemma EnqueueShape(db: Db, id: nat, now: int)
    requires Due(db, id, now) && Enqueue(db, id, true, now).Some?
    ensures var after := Enqueue(db, id, true, now).value;
            var s := db.schedules[id];
            var key := SlotKey(id, s.nextRunAt.value, s.window);
            && after.runs.Keys == db.runs.Keys + {key} && after.runs[key].request == Scheduled(id, s.nextRunAt.value, s.window)
            && (forall k <- db.runs :: after.runs[k] == db.runs[k])
            && after.schedules == db.schedules[id := s.(nextRunAt := Some(s.nextRunAt.value + WEEK), revision := s.revision + 1)]
            && after.offset == db.offset
  {
  }

  lemma EnqueueKeepsSlots(sys: System, id: nat, ready: bool)
    requires SlotsSound(sys)
    ensures var r := Enqueue(sys.db, id, ready, sys.now); r.Some? ==> SlotsSound(System(r.value, sys.now))
  {
    var r := Enqueue(sys.db, id, ready, sys.now);
    if Due(sys.db, id, sys.now) && r.Some? {
      if ready {
        EnqueueShape(sys.db, id, sys.now);
        AdvancedSlots(sys, id, r.value);
      } else {
        CancelledSlots(sys, id, r.value);
      }
    }
  }

  lemma AdvancedSlots(sys: System, id: nat, after: Db)
    requires SlotsSound(sys) && Due(sys.db, id, sys.now)
    requires var s := sys.db.schedules[id];
             var key := SlotKey(id, s.nextRunAt.value, s.window);
             && after.runs.Keys == sys.db.runs.Keys + {key} && after.runs[key].request == Scheduled(id, s.nextRunAt.value, s.window)
             && (forall k <- sys.db.runs :: after.runs[k] == sys.db.runs[k])
             && after.schedules == sys.db.schedules[id := s.(nextRunAt := Some(s.nextRunAt.value + WEEK), revision := s.revision + 1)]
    ensures SlotsSound(System(after, sys.now))
  {
    var slot := sys.db.schedules[id].nextRunAt.value;
    var key := SlotKey(id, slot, sys.db.schedules[id].window);
    forall k <- after.runs | SlotRun(after, k) ensures SlotSound(System(after, sys.now), k) {
      if k in sys.db.runs { assert SlotRun(sys.db, k) && SlotSound(sys, k); }
    }
    forall a, b | SlotRun(after, a) && SlotRun(after, b) && SameSlot(after.runs[a].request, after.runs[b].request)
      ensures a == b
    {
      if a in sys.db.runs && b in sys.db.runs {
        assert SlotRun(sys.db, a) && SlotRun(sys.db, b);
      } else {
        if a in sys.db.runs && after.runs[a].request.schedule == id { DueSlotIsNew(sys, id, a); }
        if b in sys.db.runs && after.runs[b].request.schedule == id { DueSlotIsNew(sys, id, b); }
      }
    }
  }

  lemma CancelledSlots(sys: System, id: nat, after: Db)
    requires SlotsSound(sys) && id in sys.db.schedules && after.runs == sys.db.runs
    requires id in after.schedules && after.schedules == sys.db.schedules[id := after.schedules[id]]
    requires after.schedules[id].state == Cancelled && after.schedules[id].nextRunAt.None?
    ensures SlotsSound(System(after, sys.now))
  {
    forall k <- after.runs | SlotRun(after, k) ensures SlotSound(System(after, sys.now), k) {
      assert SlotRun(sys.db, k) && SlotSound(sys, k);
    }
    forall a, b | SlotRun(after, a) && SlotRun(after, b) && SameSlot(after.runs[a].request, after.runs[b].request)
      ensures a == b
    {
      assert SlotRun(sys.db, a) && SlotRun(sys.db, b);
    }
  }

  lemma RecordIsUntouched(db: Db, key: Key, moved: Run, from: Origin, failure: Option<Code>)
    requires key in db.runs ==> moved.request == db.runs[key].request
    requires key !in db.runs ==> moved.request.Asked?
    ensures var r := Record(db, key, moved, from, failure); r.Some? ==> SlotsUntouched(db, r.value)
  {
  }

  lemma DutyKeepsSlots(sys: System, duty: Duty, fence: Fence)
    requires SlotsSound(sys)
    ensures var r := Perform(sys.db, duty, fence, sys.now); r.Some? ==> SlotsSound(System(r.value, sys.now))
  {
    hide SlotsSound, SlotsUntouched, Record, Enqueue;
    match duty
    case EnqueueDuty(id, ready) => EnqueueKeepsSlots(sys, id, ready);
    case ExhaustDuty(key) =>
      var r := Exhaust(sys.db, key, sys.now);
      if Exhausted(sys.db, key, sys.now) && r.Some? {
        RecordIsUntouched(sys.db, key, Released(sys.db.runs[key], DeadLetter, Some(RetryExhausted)), At(Running), Some(RetryExhausted));
        UntouchedKeeps(sys.db, r.value, sys.now, sys.now);
      }
    case ClaimDuty(key) =>
      var r := Claim(sys.db, key, fence, sys.now);
      if Claimable(sys.db, key, sys.now) && r.Some? {
        RecordIsUntouched(sys.db, key, Claimed(sys.db.runs[key], fence, sys.now), At(sys.db.runs[key].state), None);
        UntouchedKeeps(sys.db, r.value, sys.now, sys.now);
      }
  }

  lemma {:induction false} DutiesKeepSlots(sys: System, duties: seq<Duty>, fence: Fence)
    requires SlotsSound(sys)
    ensures var r := PerformAll(sys.db, duties, fence, sys.now); r.Some? ==> SlotsSound(System(r.value, sys.now))
    decreases |duties|
  {
    hide SlotsSound, Perform;
    if duties != [] {
      DutyKeepsSlots(sys, duties[0], fence);
      var one := Perform(sys.db, duties[0], fence, sys.now);
      if one.Some? { DutiesKeepSlots(System(one.value, sys.now), duties[1..], fence); }
    }
  }

  // ---------- every step ----------

  lemma UpsertKeepsSlots(sys: System, id: nat, expected: nat, window: nat, weekday: int, time: int)
    requires SlotsSound(sys)
    ensures SlotsSound(System(Upsert(sys.db, id, expected, window, weekday, time, sys.now), sys.now))
  {
    var after := Upsert(sys.db, id, expected, window, weekday, time, sys.now);
    if after != sys.db {
      FirstSlotIsASlot(sys.now, weekday, time, sys.db.offset);
      hide NextWeekly;
      RescheduledSlots(sys, id, after);
    }
  }

  lemma RescheduledSlots(sys: System, id: nat, after: Db)
    requires SlotsSound(sys) && after.runs == sys.db.runs
    requires id in after.schedules && after.schedules == sys.db.schedules[id := after.schedules[id]]
    requires after.schedules[id].state == Active && after.schedules[id].nextRunAt.Some? && after.schedules[id].nextRunAt.value > sys.now
    ensures SlotsSound(System(after, sys.now))
  {
    forall k <- after.runs | SlotRun(after, k) ensures SlotSound(System(after, sys.now), k) {
      assert SlotRun(sys.db, k) && SlotSound(sys, k);
    }
    forall a, b | SlotRun(after, a) && SlotRun(after, b) && SameSlot(after.runs[a].request, after.runs[b].request)
      ensures a == b
    {
      assert SlotRun(sys.db, a) && SlotRun(sys.db, b);
    }
  }

  lemma TimePasses(sys: System, now: int)
    requires SlotsSound(sys) && sys.now <= now
    ensures SlotsSound(System(sys.db, now))
  {
    UntouchedKeeps(sys.db, sys.db, sys.now, now);
  }

  lemma NothingIsUntouched(db: Db)
    ensures SlotsUntouched(db, db)
  {
  }

  lemma RunMovesAreUntouched(db: Db, step: Step, now: int)
    requires step.AskStep? || step.ExecuteStep? || step.RequeueStep? || step.Environment?
    ensures SlotsUntouched(db, Apply(db, step, now))
  {
    NothingIsUntouched(db);
    match step
    case AskStep(key, request) =>
      hide Record, SlotsUntouched;
      if request.Asked? && key !in db.runs { RecordIsUntouched(db, key, NewRun(request, now), Absent, None); }
    case ExecuteStep(key, fence, x) =>
      hide SlotsUntouched;
      if Holds(db, key, fence) { ExecuteIsUntouched(db, key, fence, x, now); }
    case RequeueStep(key, fence, code) =>
      hide SlotsUntouched;
      if Holds(db, key, fence) { RequeueIsUntouched(db, key, fence, code, now); }
    case Environment(_, _, _) =>
  }

  lemma ExecuteIsUntouched(db: Db, key: Key, fence: Fence, x: Execution, now: int)
    requires Holds(db, key, fence)
    ensures SlotsUntouched(db, OrSame(db, Execute(db, key, fence, x, now)))
  {
    NothingIsUntouched(db);
    hide SlotsUntouched, Record, Released;
    var run := db.runs[key];
    match x
    case Forbidden => BuryIsUntouched(db, key, RecipientForbidden);
    case Stale => BuryIsUntouched(db, key, AuthorityStale);
    case Produced(artifact, metadata) => DeliverIsUntouched(db, key, artifact, metadata);
    case Thrown =>
  }

  lemma BuryIsUntouched(db: Db, key: Key, code: Code)
    requires key in db.runs
    ensures var r := Bury(db, key, code); r.Some? ==> SlotsUntouched(db, r.value)
  {
    RecordIsUntouched(db, key, Released(db.runs[key], DeadLetter, Some(code)), At(Running), Some(code));
  }

  lemma DeliverIsUntouched(db: Db, key: Key, artifact: Digest, metadata: Digest)
    requires key in db.runs
    ensures var r := Deliver(db, key, artifact, metadata); r.Some? ==> SlotsUntouched(db, r.value)
  {
  }

  lemma RequeueIsUntouched(db: Db, key: Key, fence: Fence, code: Code, now: int)
    requires Holds(db, key, fence)
    ensures SlotsUntouched(db, OrSame(db, Requeue(db, key, fence, code, now)))
  {
    NothingIsUntouched(db);
    hide SlotsUntouched, Record;
    var run := db.runs[key];
    var last := if Authoritative(code) then code else RetryExhausted;
    var delay := if run.attempt == 1 then 15_000 else 30_000;
    RecordIsUntouched(db, key, Released(run, DeadLetter, Some(last)), At(Running), Some(last));
    RecordIsUntouched(db, key, Released(run, Queued, Some(code)).(nextAttemptAt := now + delay), At(Running), Some(code));
  }

  lemma StepKeepsSlots(sys: System, step: Step)
    requires SlotsSound(sys)
    ensures SlotsSound(System(Apply(sys.db, step, sys.now), sys.now))
  {
    hide SlotsSound, PerformAll, Ask, Execute, Requeue, Upsert, SlotsUntouched;
    match step
    case PassStep(duties, fence) => DutiesKeepSlots(sys, duties, fence);
    case UpsertStep(id, expected, window, weekday, time) => UpsertKeepsSlots(sys, id, expected, window, weekday, time);
    case CancelStep(id, expected) =>
      var after := Cancel(sys.db, id, expected);
      if after != sys.db { CancelledSlots(sys, id, after); }
    case _ =>
      RunMovesAreUntouched(sys.db, step, sys.now);
      UntouchedKeeps(sys.db, Apply(sys.db, step, sys.now), sys.now, sys.now);
  }

  lemma {:induction false} RunKeepsSlots(sys: System, steps: seq<Timed>)
    requires SlotsSound(sys)
    ensures SlotsSound(RunAll(sys, steps))
    decreases |steps|
  {
    hide SlotsSound, Apply;
    if steps != [] {
      var n := |steps| - 1;
      RunKeepsSlots(sys, steps[..n]);
      var before := RunAll(sys, steps[..n]);
      var now := before.now + steps[n].elapsed;
      TimePasses(before, now);
      StepKeepsSlots(System(before.db, now), steps[n].step);
    }
  }

  /** Over any worker passes, crashes and owner changes, a slot of a schedule has at most one run. */
  lemma EachSlotRunsAtMostOnce(offset: int, live: LiveFence, now: int, steps: seq<Timed>, a: Key, b: Key)
    requires var db := RunAll(Initial(offset, live, now), steps).db;
             SlotRun(db, a) && SlotRun(db, b) && SameSlot(db.runs[a].request, db.runs[b].request)
    ensures a == b
  {
    RunKeepsSlots(Initial(offset, live, now), steps);
  }

  // ---------- no slot is skipped ----------

  /** Every slot of schedule `id` from its next one in `a` up to its next one in `b` has its run in `b`. */
  ghost predicate SlotsServed(a: Db, b: Db, id: nat) {
    id in a.schedules && id in b.schedules && a.schedules[id].nextRunAt.Some? &&
    var s, t := a.schedules[id], b.schedules[id];
    && t.window == s.window
    && (t.nextRunAt.Some? ==> exists n: nat :: t.nextRunAt.value == s.nextRunAt.value + n * WEEK && ServedFrom(b, id, s.nextRunAt.value, s.window, n))
  }

  ghost predicate ServedFrom(db: Db, id: nat, slot: int, window: nat, n: nat) {
    forall k: nat | k < n :: Served(db, id, slot, window, k)
  }

  predicate Served(db: Db, id: nat, slot: int, window: nat, k: nat) {
    var key := SlotKey(id, slot + k * WEEK, window);
    key in db.runs && db.runs[key].request == Scheduled(id, slot + k * WEEK, window)
  }

  /** Runs keep their request, and schedule `id` either stays, ends, or passes one slot that has its run. */
  ghost predicate ServesOn(a: Db, b: Db, id: nat) {
    && (forall key <- a.runs :: key in b.runs && b.runs[key].request == a.runs[key].request)
    && id in a.schedules && id in b.schedules && b.schedules[id].window == a.schedules[id].window
    && (b.schedules[id].nextRunAt.Some? ==>
          a.schedules[id].nextRunAt.Some? &&
          var slot := a.schedules[id].nextRunAt.value;
          || b.schedules[id].nextRunAt.value == slot
          || (b.schedules[id].nextRunAt.value == slot + WEEK && Served(b, id, slot, a.schedules[id].window, 0)))
  }

  lemma ServedExtends(a: Db, b: Db, c: Db, id: nat)
    requires SlotsServed(a, b, id) && ServesOn(b, c, id)
    ensures SlotsServed(a, c, id)
  {
    var s := a.schedules[id];
    if c.schedules[id].nextRunAt.Some? {
      var from, window := s.nextRunAt.value, s.window;
      var n: nat :| b.schedules[id].nextRunAt.value == from + n * WEEK && ServedFrom(b, id, from, window, n);
      forall k: nat | k < n ensures Served(c, id, from, window, k) {
        assert Served(b, id, from, window, k);
      }
      if c.schedules[id].nextRunAt.value != from + n * WEEK {
        assert Served(c, id, from + n * WEEK, window, 0);
        assert Served(c, id, from, window, n);
        assert from + n * WEEK + WEEK == from + (n + 1) * WEEK;
        assert ServedFrom(c, id, from, window, n + 1);
      } else {
        assert ServedFrom(c, id, from, window, n);
      }
    }
  }

  lemma DutyServes(db: Db, duty: Duty, fence: Fence, now: int, id: nat)
    requires id in db.schedules && Perform(db, duty, fence, now).Some?
    ensures ServesOn(db, Perform(db, duty, fence, now).value, id)
  {
    match duty
    case EnqueueDuty(schedule, ready) =>
      if Due(db, schedule, now) && ready { EnqueueShape(db, schedule, now); }
    case ExhaustDuty(key) => ExhaustServes(db, key, now, id);
    case ClaimDuty(key) => ClaimServes(db, key, fence, now, id);
  }

  lemma ExhaustServes(db: Db, key: Key, now: int, id: nat)
    requires id in db.schedules && Exhaust(db, key, now).Some?
    ensures ServesOn(db, Exhaust(db, key, now).value, id)
  {
  }

  lemma ClaimServes(db: Db, key: Key, fence: Fence, now: int, id: nat)
    requires id in db.schedules && Claim(db, key, fence, now).Some?
    ensures ServesOn(db, Claim(db, key, fence, now).value, id)
  {
  }

  lemma {:induction false} DutiesServe(a: Db, db: Db, duties: seq<Duty>, fence: Fence, now: int, id: nat)
    requires SlotsServed(a, db, id) && PerformAll(db, duties, fence, now).Some?
    ensures SlotsServed(a, PerformAll(db, duties, fence, now).value, id)
    decreases |duties|
  {
    hide SlotsServed, ServesOn, Perform;
    if duties != [] {
      ServedExists(a, db, id);
      DutyServes(db, duties[0], fence, now, id);
      var one := Perform(db, duties[0], fence, now).value;
      ServedExtends(a, db, one, id);
      DutiesServe(a, one, duties[1..], fence, now, id);
    }
  }

  lemma ServedExists(a: Db, b: Db, id: nat)
    requires SlotsServed(a, b, id)
    ensures id in b.schedules
  {
  }

  lemma StepServes(a: Db, db: Db, step: Step, now: int, id: nat)
    requires SlotsServed(a, db, id) && !(step.UpsertStep? && step.schedule == id)
    ensures SlotsServed(a, Apply(db, step, now), id)
  {
    hide SlotsServed;
    ServedExists(a, db, id);
    if step.PassStep? {
      if IsLive(db.live, step.fence, now) && PerformAll(db, step.duties, step.fence, now).Some? {
        DutiesServe(a, db, step.duties, step.fence, now, id);
      }
    } else {
      OtherStepsServe(db, step, now, id);
      ServedExtends(a, db, Apply(db, step, now), id);
    }
  }

  lemma OtherStepsServe(db: Db, step: Step, now: int, id: nat)
    requires id in db.schedules && !step.PassStep? && !(step.UpsertStep? && step.schedule == id)
    ensures ServesOn(db, Apply(db, step, now), id)
  {
    hide NextWeekly, Served;
    if step.AskStep? || step.ExecuteStep? || step.RequeueStep? || step.Environment? {
      RunMovesAreUntouched(db, step, now);
    }
  }

  /**
   A slot is passed only when its run exists: while its owner does not reschedule it, an active schedule has a run for
   every slot between any two of its states.
   */
  lemma {:induction false} NoSlotIsSkipped(sys: System, steps: seq<Timed>, id: nat)
    requires id in sys.db.schedules && sys.db.schedules[id].nextRunAt.Some?
    requires forall t <- steps :: !(t.step.UpsertStep? && t.step.schedule == id)
    ensures SlotsServed(sys.db, RunAll(sys, steps).db, id)
    decreases |steps|
  {
    hide Apply;
    if steps == [] {
      assert ServedFrom(sys.db, id, sys.db.schedules[id].nextRunAt.value, sys.db.schedules[id].window, 0);
    } else {
      hide SlotsServed;
      var n := |steps| - 1;
      NoSlotIsSkipped(sys, steps[..n], id);
      var before := RunAll(sys, steps[..n]);
      assert steps[n] in steps;
      StepServes(sys.db, before.db, steps[n].step, before.now + steps[n].elapsed, id);
    }
  }

  // ---------- catching up ----------

  /** One enqueue of schedule `id` after another. */
  predicate OnlyEnqueues(duties: seq<Duty>, id: nat) { forall duty <- duties :: duty == EnqueueDuty(id, true) }

  lemma EnqueueStep(db: Db, duties: seq<Duty>, fence: Fence, now: int, id: nat)
    requires duties != [] && OnlyEnqueues(duties, id)
    ensures OnlyEnqueues(duties[1..], id)
    ensures PerformAll(db, duties, fence, now) ==
              if Enqueue(db, id, true, now).None? then None else PerformAll(Enqueue(db, id, true, now).value, duties[1..], fence, now)
  {
    hide Enqueue;
    assert duties[0] in duties && forall duty <- duties[1..] :: duty in duties;
  }

  /** Within one transaction as many enqueues as there are due slots leave the schedule not due. */
  lemma {:induction false} OnePassCatchesUp(db: Db, id: nat, duties: seq<Duty>, fence: Fence, now: int)
    requires id in db.schedules && db.schedules[id].state == Active && db.schedules[id].nextRunAt.Some?
    requires OnlyEnqueues(duties, id) && |duties| == Backlog(db.schedules[id].nextRunAt.value, now)
    ensures var after := PerformAll(db, duties, fence, now);
            after.Some? ==> id in after.value.schedules && after.value.schedules[id].state == Active && !Due(after.value, id, now)
    decreases |duties|
  {
    hide Enqueue, PerformAll, OnlyEnqueues;
    if duties == [] {
      NothingToPerform(db, fence, now);
    } else {
      EnqueueStep(db, duties, fence, now, id);
      OneSlotOn(db, id, now);
      var one := Enqueue(db, id, true, now);
      if one.Some? { OnePassCatchesUp(one.value, id, duties[1..], fence, now); }
    }
  }

  lemma OneSlotOn(db: Db, id: nat, now: int)
    requires id in db.schedules && db.schedules[id].state == Active && db.schedules[id].nextRunAt.Some?
    requires db.schedules[id].nextRunAt.value <= now
    ensures var one := Enqueue(db, id, true, now);
            var slot := db.schedules[id].nextRunAt.value;
            one.Some? ==> id in one.value.schedules && one.value.schedules[id].state == Active &&
                          one.value.schedules[id].nextRunAt == Some(slot + WEEK) && Backlog(slot + WEEK, now) == Backlog(slot, now) - 1
  {
    hide Enqueue;
    EnqueueAdvancesOnlyWithItsRun(db, id, true, now);
  }

  lemma NothingToPerform(db: Db, fence: Fence, now: int)
    ensures PerformAll(db, [], fence, now) == Some(db)
  {
  }

  // ---------- catching up over passes ----------

  function Weeks(n: nat): int
    decreases n
  {
    if n == 0 then 0 else Weeks(n - 1) + WEEK
  }

  lemma {:induction false} BacklogAtLeast(slot: int, now: int, n: nat)
    requires n > 0 ==> now >= slot + Weeks(n - 1)
    ensures Backlog(slot, now) >= n
    decreases n
  {
    if n > 0 {
      WeeksArePositive(n - 1);
      if n > 1 { WeeksFromTheFront(n - 1); }
      BacklogAtLeast(slot + WEEK, now, n - 1);
    }
  }

  lemma {:induction false} WeeksArePositive(n: nat)
    ensures Weeks(n) >= 0
    decreases n
  {
    if n > 0 { WeeksArePositive(n - 1); }
  }

  lemma WeeksFromTheFront(n: nat)
    requires n > 0
    ensures Weeks(n) == WEEK + Weeks(n - 1)
  {
  }

  /** Schedule `id` stands still, moves on by at least one slot, or ends. */
  ghost predicate MovesOn(a: Db, b: Db, id: nat) {
    id in a.schedules && id in b.schedules &&
    var s, t := a.schedules[id], b.schedules[id];
    t.nextRunAt.Some? ==>
      s.nextRunAt.Some? && t.state == s.state && (t.nextRunAt == s.nextRunAt || t.nextRunAt.value >= s.nextRunAt.value + WEEK)
  }

  lemma MovesOnTrans(a: Db, b: Db, c: Db, id: nat)
    requires MovesOn(a, b, id) && MovesOn(b, c, id)
    ensures MovesOn(a, c, id)
  {
  }

  lemma DutyMovesOn(db: Db, duty: Duty, fence: Fence, now: int, id: nat)
    requires id in db.schedules && Perform(db, duty, fence, now).Some?
    ensures MovesOn(db, Perform(db, duty, fence, now).value, id)
    ensures var t := Perform(db, duty, fence, now).value.schedules[id];
            duty == EnqueueDuty(id, true) && Due(db, id, now) && t.nextRunAt.Some? ==>
              t.nextRunAt.value >= db.schedules[id].nextRunAt.value + WEEK
  {
    match duty
    case EnqueueDuty(schedule, ready) =>
      if Due(db, schedule, now) && ready { EnqueueShape(db, schedule, now); }
    case ExhaustDuty(key) => ExhaustServes(db, key, now, id);
    case ClaimDuty(key) => ClaimServes(db, key, fence, now, id);
  }

  /** A transaction with an enqueue of a due schedule moves it on by a slot, whatever its other duties are. */
  lemma {:induction false} DutiesMoveOn(db: Db, duties: seq<Duty>, fence: Fence, now: int, id: nat)
    requires id in db.schedules && PerformAll(db, duties, fence, now).Some?
    ensures MovesOn(db, PerformAll(db, duties, fence, now).value, id)
    ensures var t := PerformAll(db, duties, fence, now).value.schedules[id];
            EnqueueDuty(id, true) in duties && Due(db, id, now) && t.nextRunAt.Some? ==>
              t.nextRunAt.value >= db.schedules[id].nextRunAt.value + WEEK
    decreases |duties|
  {
    hide Perform;
    if duties != [] {
      DutyMovesOn(db, duties[0], fence, now, id);
      var one := Perform(db, duties[0], fence, now).value;
      DutiesMoveOn(one, duties[1..], fence, now, id);
      MovesOnTrans(db, one, PerformAll(db, duties, fence, now).value, id);
      assert duties == [duties[0]] + duties[1..];
    }
  }

  /** A committed pass that enqueues schedule `id` with current authority. */
  predicate Serving(db: Db, step: Step, now: int, id: nat) {
    && step.PassStep? && EnqueueDuty(id, true) in step.duties && IsLive(db.live, step.fence, now)
    && PerformAll(db, step.duties, step.fence, now).Some?
  }

  lemma StepMovesOn(db: Db, step: Step, now: int, id: nat)
    requires id in db.schedules && !(step.UpsertStep? && step.schedule == id)
    ensures MovesOn(db, Apply(db, step, now), id)
    ensures var t := Apply(db, step, now).schedules[id];
            Serving(db, step, now, id) && Due(db, id, now) && t.nextRunAt.Some? ==>
              t.nextRunAt.value >= db.schedules[id].nextRunAt.value + WEEK
  {
    hide NextWeekly, PerformAll;
    if step.PassStep? {
      if IsLive(db.live, step.fence, now) && PerformAll(db, step.duties, step.fence, now).Some? {
        DutiesMoveOn(db, step.duties, step.fence, now, id);
      }
    } else if step.AskStep? || step.ExecuteStep? || step.RequeueStep? || step.Environment? {
      RunMovesAreUntouched(db, step, now);
    }
  }

  /** How many passes of a run served schedule `id` and found it due at their own reading. */
  function DueServings(sys: System, steps: seq<Timed>, id: nat): nat
    decreases |steps|
  {
    if steps == [] then 0
    else
      var n := |steps| - 1;
      var before := RunAll(sys, steps[..n]);
      var now := before.now + steps[n].elapsed;
      DueServings(sys, steps[..n], id) +
        if Serving(before.db, steps[n].step, now, id) && Due(before.db, id, now) then 1 else 0
  }

  lemma {:induction false} ServingsMoveOn(sys: System, steps: seq<Timed>, id: nat)
    requires id in sys.db.schedules && sys.db.schedules[id].nextRunAt.Some?
    requires forall t <- steps :: !(t.step.UpsertStep? && t.step.schedule == id)
    ensures var end, k := RunAll(sys, steps), DueServings(sys, steps, id);
            var slot := sys.db.schedules[id].nextRunAt.value;
            && id in end.db.schedules
            && (k > 0 ==> end.now >= slot + Weeks(k - 1))
            && (end.db.schedules[id].nextRunAt.Some? ==> end.db.schedules[id].nextRunAt.value >= slot + Weeks(k))
    decreases |steps|
  {
    hide Apply, Serving;
    if steps != [] {
      var n := |steps| - 1;
      ServingsMoveOn(sys, steps[..n], id);
      var before := RunAll(sys, steps[..n]);
      assert steps[n] in steps;
      StepMovesOn(before.db, steps[n].step, before.now + steps[n].elapsed, id);
    }
  }

  /**
   Catching up ends: in any run, with readings that do not go back, the passes that serve a schedule and still find it due
   are at most the slots due at the last reading, so one more serving finds it caught up.
   */
  lemma CatchingUpEnds(sys: System, steps: seq<Timed>, id: nat)
    requires id in sys.db.schedules && sys.db.schedules[id].nextRunAt.Some?
    requires forall t <- steps :: !(t.step.UpsertStep? && t.step.schedule == id)
    ensures DueServings(sys, steps, id) <= Backlog(sys.db.schedules[id].nextRunAt.value, RunAll(sys, steps).now)
  {
    hide RunAll, DueServings, Backlog, Weeks;
    ServingsMoveOn(sys, steps, id);
    BacklogAtLeast(sys.db.schedules[id].nextRunAt.value, RunAll(sys, steps).now, DueServings(sys, steps, id));
  }
}
