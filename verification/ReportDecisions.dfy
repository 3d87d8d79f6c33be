/** What each report transaction decides, on the fields of the run, its evidence, its delivery and the live fence. */
module ReportDecisions {
  import opened Wrappers
  import opened Fencing
  import opened WeeklySlots
  import opened ReportModel

  ghost predicate FenceLives(db: Db, fence: Fence, now: int) { db.live.fence == fence && db.live.expiresAt > now }

  /** The run is running for this worker. */
  ghost predicate RunsFor(db: Db, key: Key, fence: Fence) {
    key in db.runs && db.runs[key].state == Running && db.runs[key].worker == Some(fence)
  }

  /** Neither the ledger row nor the event of the run's next revision exists. */
  predicate NextFree(db: Db, key: Key) {
    key in db.runs && (key, db.runs[key].revision + 1) !in db.ledger && (key, db.runs[key].revision + 1) !in db.events
  }

  /** Only this run moved, one revision on, with its audit entry, ledger row and event. */
  ghost predicate MovedOn(db: Db, after: Db, key: Key, to: State, failure: Option<Code>) {
    && key in db.runs && key in after.runs
    && var run, end := db.runs[key], after.runs[key];
    && end.state == to && end.revision == run.revision + 1 && end.request == run.request
    && var entry := AuditEntry(At(run.state), to, run.revision + 1, failure);
    && end.audit == run.audit + [entry]
    && after.runs == db.runs[key := end] && after.ledger == db.ledger[(key, end.revision) := entry]
    && after.events == db.events + {(key, end.revision)}
    && after.schedules == db.schedules && after.scheduleEvents == db.scheduleEvents && after.live == db.live
  }

  /** The worker and its lease are gone. */
  predicate LetGo(run: Run) { run.worker.None? && run.leaseExpiresAt.None? }

  ghost predicate NothingDelivered(db: Db, after: Db, key: Key)
    requires key in db.runs && key in after.runs
  {
    && after.artifacts == db.artifacts && after.receipts == db.receipts
    && after.runs[key].artifact == db.runs[key].artifact && after.runs[key].metadata == db.runs[key].metadata
  }

  /**
   A worker that does not hold the run on an unexpired lease under a live fence changes nothing.  One that does delivers
   exactly what it produced, or ends the run with the code of the authority it found missing; a throw, or any id that is
   taken, leaves every table as it was.
   */
  lemma ExecutionsEndAsTheyMet(db: Db, key: Key, fence: Fence, x: Execution, now: int)
    ensures var result := Execute(db, key, fence, x, now);
            if !FenceLives(db, fence, now) || !RunsFor(db, key, fence) ||
               db.runs[key].leaseExpiresAt.None? || db.runs[key].leaseExpiresAt.value <= now then
              result == Some(db)
            else if x.Thrown? || !NextFree(db, key) || (x.Produced? && (key in db.artifacts || key in db.receipts)) then result.None?
            else
              && result.Some?
              && var after := result.value;
              && key in after.runs && LetGo(after.runs[key])
              && match x
                 case Forbidden =>
                   MovedOn(db, after, key, DeadLetter, Some(RecipientForbidden)) && NothingDelivered(db, after, key) &&
                   after.runs[key].failure == Some(RecipientForbidden)
                 case Stale =>
                   MovedOn(db, after, key, DeadLetter, Some(AuthorityStale)) && NothingDelivered(db, after, key) &&
                   after.runs[key].failure == Some(AuthorityStale)
                 case Produced(artifact, metadata) =>
                   && MovedOn(db, after, key, Succeeded, None)
                   && after.artifacts == db.artifacts[key := Artifact(artifact, metadata)]
                   && after.receipts == db.receipts[key := Receipt(artifact, metadata)]
                   && after.runs[key].artifact == Some(artifact) && after.runs[key].metadata == Some(metadata)
                   && after.runs[key].failure == db.runs[key].failure
                 case Thrown => true
    ensures Execute(db, key, fence, x, now).None? ==> OrSame(db, Execute(db, key, fence, x, now)) == db
  {
  }

  /**
   After a throw the run is requeued under the worker's identity alone: 15 seconds later after its first attempt and 30
   after its second.  It is dead after its third, or at once with its own code when authority or currency failed.
   */
  lemma ThrownRunsComeBack(db: Db, key: Key, fence: Fence, code: Code, now: int)
    ensures var result := Requeue(db, key, fence, code, now);
            if !FenceLives(db, fence, now) || !RunsFor(db, key, fence) then result == Some(db)
            else if !NextFree(db, key) then result.None?
            else
              && result.Some?
              && var run, after := db.runs[key], result.value;
              && key in after.runs && LetGo(after.runs[key]) && NothingDelivered(db, after, key)
              && after.runs[key].attempt == run.attempt
              && if code == AuthorityStale || code == CurrencyMixed then
                   MovedOn(db, after, key, DeadLetter, Some(code)) && after.runs[key].failure == Some(code)
                 else if run.attempt >= 3 then
                   MovedOn(db, after, key, DeadLetter, Some(RetryExhausted)) && after.runs[key].failure == Some(RetryExhausted)
                 else
                   && MovedOn(db, after, key, Queued, Some(code)) && after.runs[key].failure == Some(code)
                   && after.runs[key].nextAttemptAt == now + if run.attempt == 1 then 15_000 else 30_000
  {
  }

  /** Queued and due, or running on a lease that ran out, with an attempt left. */
  ghost predicate Waits(db: Db, key: Key, now: int) {
    && key in db.runs && db.runs[key].attempt < 3
    && var run := db.runs[key];
    || (run.state == Queued && run.nextAttemptAt <= now)
    || (run.state == Running && run.leaseExpiresAt.Some? && run.leaseExpiresAt.value < now)
  }

  /** A waiting run is claimed for a minute with one more attempt; no other run is claimed. */
  lemma ClaimsTakeWaitingRuns(db: Db, key: Key, fence: Fence, now: int)
    ensures var result := Claim(db, key, fence, now);
            if !Waits(db, key, now) then result == Some(db)
            else if !NextFree(db, key) then result.None?
            else
              && result.Some?
              && var run, after := db.runs[key], result.value;
              && MovedOn(db, after, key, Running, None) && NothingDelivered(db, after, key)
              && after.runs[key].worker == Some(fence) && after.runs[key].leaseExpiresAt == Some(now + 60_000)
              && after.runs[key].attempt == run.attempt + 1 && after.runs[key].leaseRevision == run.leaseRevision + 1
  {
  }

  /** A run whose third lease ran out is dead; no other run is touched. */
  lemma ThirdLeaseIsTheLast(db: Db, key: Key, now: int)
    ensures var result := Exhaust(db, key, now);
            if key in db.runs && db.runs[key].state == Running && db.runs[key].attempt >= 3 &&
               db.runs[key].leaseExpiresAt.Some? && db.runs[key].leaseExpiresAt.value < now then
              if !NextFree(db, key) then result.None?
              else
                && result.Some? && MovedOn(db, result.value, key, DeadLetter, Some(RetryExhausted))
                && LetGo(result.value.runs[key]) && NothingDelivered(db, result.value, key)
            else result == Some(db)
  {
  }

  /** A key asked for the first time waits, due at once and unattempted; asked again it answers, or conflicts, without a change. */
  lemma AskedOnce(db: Db, key: Key, request: Request, now: int)
    ensures var (after, reply) := Ask(db, key, request, now);
            if key in db.runs then after == db && reply == if db.runs[key].request == request then Accepted else Conflict
            else if (key, 1) in db.ledger || (key, 1) in db.events then after == db && reply == Collision
            else
              && reply == Accepted && key in after.runs && after.runs == db.runs[key := after.runs[key]]
              && var run := after.runs[key];
              && run.request == request && run.state == Queued && run.attempt == 0 && run.revision == 1 && run.nextAttemptAt == now
              && LetGo(run) && run.artifact.None? && run.metadata.None?
              && run.audit == [AuditEntry(Absent, Queued, 1, None)] && after.ledger == db.ledger[(key, 1) := run.audit[0]]
              && after.events == db.events + {(key, 1)}
              && after.artifacts == db.artifacts && after.receipts == db.receipts && after.schedules == db.schedules
  {
  }

  /**
   A due schedule without authority is cancelled and never due again; with it, the run of exactly its slot is there and the
   schedule stands a week further, or, when an id is taken, nothing happens at all.
   */
  lemma DueSchedulesMoveOn(db: Db, id: nat, ready: bool, now: int)
    ensures var result := Enqueue(db, id, ready, now);
            if id !in db.schedules || db.schedules[id].state != Active || db.schedules[id].nextRunAt.None? || db.schedules[id].nextRunAt.value > now then
              result == Some(db)
            else
              var s := db.schedules[id];
              var slot := s.nextRunAt.value;
              var key, request := SlotKey(id, slot, s.window), Scheduled(id, slot, s.window);
              if (id, s.revision + 1) in db.scheduleEvents then result.None?
              else if !ready then
                && result.Some? && result.value.runs == db.runs && ScheduleMoved(db, result.value, id)
                && result.value.schedules[id].state == ScheduleState.Cancelled && result.value.schedules[id].nextRunAt.None?
              else if key in db.runs && db.runs[key].request != request then result.None?
              else if key !in db.runs && ((key, 1) in db.ledger || (key, 1) in db.events) then result.None?
              else
                && result.Some? && key in result.value.runs && ScheduleMoved(db, result.value, id)
                && result.value.schedules[id].state == Active && result.value.schedules[id].window == s.window
                && result.value.schedules[id].nextRunAt == Some(slot + 604_800_000)
                && result.value.runs[key].request == request
                && (key in db.runs ==> result.value.runs == db.runs)
                && (key !in db.runs ==>
                      && result.value.runs == db.runs[key := result.value.runs[key]]
                      && result.value.runs[key].state == Queued && result.value.runs[key].attempt == 0 && result.value.runs[key].nextAttemptAt == now)
  {
  }

  /** Only this schedule moved, one revision on, with its event. */
  ghost predicate ScheduleMoved(db: Db, after: Db, id: nat) {
    && id in after.schedules && after.schedules == db.schedules[id := after.schedules[id]]
    && after.schedules[id].revision == (if id in db.schedules then db.schedules[id].revision else 0) + 1
    && after.scheduleEvents == db.scheduleEvents + {(id, after.schedules[id].revision)}
  }

  /**
   An owner's change needs the revision it knows, a weekday and a time of day, and makes the schedule active from its first
   slot after now; a cancellation needs the revision; both touch nothing else.
   */
  lemma OwnersMoveTheirRevision(db: Db, id: nat, expected: nat, window: nat, weekday: int, time: int, now: int)
    ensures var after, revision := Upsert(db, id, expected, window, weekday, time, now), if id in db.schedules then db.schedules[id].revision else 0;
            if revision != expected || weekday < 1 || weekday > 7 || time < 0 || time >= 86_400_000 || (id, expected + 1) in db.scheduleEvents then
              after == db
            else
              && ScheduleMoved(db, after, id) && after.runs == db.runs
              && after.schedules[id].state == Active
              && after.schedules[id].window == window && after.schedules[id].weekday == weekday && after.schedules[id].time == time
              && after.schedules[id].nextRunAt == Some(NextWeekly(now, weekday, time, db.offset))
    ensures var after := Cancel(db, id, expected);
            if id !in db.schedules || db.schedules[id].revision != expected || (id, expected + 1) in db.scheduleEvents then after == db
            else
              && ScheduleMoved(db, after, id) && after.runs == db.runs
              && after.schedules[id].state == ScheduleState.Cancelled && after.schedules[id].nextRunAt.None?
  {
  }

  /** Between two steps others may take event ids and promote the fence. */
  lemma OthersAreUnrestricted(db: Db, events: set<(Key, nat)>, scheduleEvents: set<(nat, nat)>, live: LiveFence, now: int)
    ensures var after := Apply(db, Environment(events, scheduleEvents, live), now);
            && after.events == db.events + events && after.scheduleEvents == db.scheduleEvents + scheduleEvents
            && (Succeeds(db.live, live) ==> after.live == live)
            && after == db.(events := after.events, scheduleEvents := after.scheduleEvents, live := after.live)
  {
  }

  // ---------- whole runs ----------

  /** The run succeeded with this artifact and metadata, and was delivered with them. */
  ghost predicate SucceededWith(db: Db, key: Key, artifact: Digest, metadata: Digest) {
    && key in db.runs && db.runs[key].state == Succeeded
    && db.runs[key].artifact == Some(artifact) && db.runs[key].metadata == Some(metadata)
    && key in db.artifacts && db.artifacts[key] == Artifact(artifact, metadata)
    && key in db.receipts && db.receipts[key] == Receipt(artifact, metadata)
  }

  predicate HasSucceeded(db: Db, key: Key) { key in db.runs && db.runs[key].state == Succeeded }

  /** A duty of a pass never makes a run succeed. */
  lemma DutiesNeverSucceed(db: Db, duty: Duty, fence: Fence, now: int, key: Key)
    requires Perform(db, duty, fence, now).Some?
    ensures HasSucceeded(Perform(db, duty, fence, now).value, key) ==> HasSucceeded(db, key)
  {
  }

  lemma {:induction false} PassesNeverSucceed(db: Db, duties: seq<Duty>, fence: Fence, now: int, key: Key)
    requires PerformAll(db, duties, fence, now).Some?
    ensures HasSucceeded(PerformAll(db, duties, fence, now).value, key) ==> HasSucceeded(db, key)
    decreases |duties|
  {
    hide Perform;
    if duties != [] {
      DutiesNeverSucceed(db, duties[0], fence, now, key);
      PassesNeverSucceed(Perform(db, duties[0], fence, now).value, duties[1..], fence, now, key);
    }
  }

  /** Step `i` of a run of the system executed this run for its live, leased worker, and the run succeeded with what it produced. */
  ghost predicate ProducedAt(start: System, steps: seq<Timed>, i: nat, key: Key, artifact: Digest, metadata: Digest) {
    && i < |steps| && steps[i].step.ExecuteStep? && steps[i].step.key == key
    && steps[i].step.execution == Produced(artifact, metadata)
    && var db, now := RunAll(start, steps[..i]).db, RunAll(start, steps[..i]).now + steps[i].elapsed;
    && FenceLives(db, steps[i].step.fence, now) && RunsFor(db, key, steps[i].step.fence)
    && db.runs[key].leaseExpiresAt.Some? && db.runs[key].leaseExpiresAt.value > now
    && SucceededWith(RunAll(start, steps[..i + 1]).db, key, artifact, metadata)
  }

  lemma OnlyProductionSucceeds(db: Db, step: Step, now: int, key: Key)
    requires HasSucceeded(Apply(db, step, now), key) && !HasSucceeded(db, key)
    ensures step.ExecuteStep? && step.key == key && step.execution.Produced?
    ensures FenceLives(db, step.fence, now) && RunsFor(db, key, step.fence)
    ensures db.runs[key].leaseExpiresAt.Some? && db.runs[key].leaseExpiresAt.value > now
    ensures SucceededWith(Apply(db, step, now), key, step.execution.artifact, step.execution.metadata)
  {
    match step
    case PassStep(duties, fence) =>
      if PerformAll(db, duties, fence, now).Some? { PassesNeverSucceed(db, duties, fence, now, key); }
    case ExecuteStep(k, fence, x) =>
      ExecutionsEndAsTheyMet(db, k, fence, x, now);
      hide Execute;
    case RequeueStep(k, fence, code) =>
      ThrownRunsComeBack(db, k, fence, code, now);
      hide Requeue;
    case AskStep(k, request) =>
      AskedOnce(db, k, request, now);
      hide Ask;
    case _ =>
  }

  /**
   In every run of the system, a run that succeeded did so in one step of its live worker under an unexpired lease, with
   exactly the artifact and metadata that step produced.
   */
  lemma {:induction false} EverySuccessWasProduced(start: System, steps: seq<Timed>, key: Key)
    requires !HasSucceeded(start.db, key) && HasSucceeded(RunAll(start, steps).db, key)
    ensures exists i: nat, artifact, metadata :: ProducedAt(start, steps, i, key, artifact, metadata)
    decreases |steps|
  {
    hide Apply, FenceLives, RunsFor, SucceededWith;
    var n := |steps| - 1;
    var before := RunAll(start, steps[..n]);
    if HasSucceeded(before.db, key) {
      EverySuccessWasProduced(start, steps[..n], key);
      var i: nat, artifact, metadata :| ProducedAt(start, steps[..n], i, key, artifact, metadata);
      assert steps[..n][..i] == steps[..i] && steps[..n][..i + 1] == steps[..i + 1];
      assert ProducedAt(start, steps, i, key, artifact, metadata);
    } else {
      OnlyProductionSucceeds(before.db, steps[n].step, before.now + steps[n].elapsed, key);
      assert steps[..n + 1] == steps;
      assert ProducedAt(start, steps, n, key, steps[n].step.execution.artifact, steps[n].step.execution.metadata);
    }
  }
}
