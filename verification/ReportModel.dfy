/** Report runs and the weekly schedules that create them: a leased state machine with one transaction for each step. */
module ReportModel {
  import opened Wrappers
  import opened Fencing
  import opened WeeklySlots

  const MAX_ATTEMPTS := 3
  const LEASE_MILLIS := 60_000

  type Digest = nat

  datatype State = Queued | Running | Succeeded | DeadLetter
  datatype Origin = Absent | At(state: State)
  datatype Code = RecipientForbidden | AuthorityStale | CurrencyMixed | SourceStale | RetryExhausted

  /** A run is identified by its idempotency key: a caller's own, or the identity of a schedule's slot. */
  datatype Key = UserKey(name: string) | SlotKey(schedule: nat, slot: int, window: nat)

  /** What the report digest of a run binds: who asked for what, or which slot it belongs to. */
  datatype Request = Asked(report: nat, window: nat, actor: string) | Scheduled(schedule: nat, slot: int, window: nat)

  datatype AuditEntry = AuditEntry(from: Origin, to: State, revision: nat, failure: Option<Code>)

  datatype Run = Run(
    request: Request, state: State, attempt: nat, revision: nat, audit: seq<AuditEntry>, failure: Option<Code>, nextAttemptAt: int,
    worker: Option<Fence>, leaseRevision: nat, leaseExpiresAt: Option<int>,
    artifact: Option<Digest>, metadata: Option<Digest>)

  datatype Artifact = Artifact(digest: Digest, metadata: Digest)
  datatype Receipt = Receipt(artifact: Digest, metadata: Digest)

  datatype ScheduleState = Active | Cancelled
  datatype Schedule = Schedule(state: ScheduleState, window: nat, weekday: int, time: int, nextRunAt: Option<int>, revision: nat)

  /** `events` holds the run events and `scheduleEvents` the schedule events in the outbox, by record and revision. */
  datatype Db = Db(
    runs: map<Key, Run>, ledger: map<(Key, nat), AuditEntry>, events: set<(Key, nat)>,
    artifacts: map<Key, Artifact>, receipts: map<Key, Receipt>,
    schedules: map<nat, Schedule>, scheduleEvents: set<(nat, nat)>, offset: int, live: LiveFence)

  predicate Terminal(s: State) { s == Succeeded || s == DeadLetter }

  // ---------- evidence ----------

  /** Stores a run that just moved, with its audit entry, ledger row and event; None when the row or the event is taken. */
  function Record(db: Db, key: Key, moved: Run, from: Origin, failure: Option<Code>): Option<Db> {
    var entry := AuditEntry(from, moved.state, moved.revision, failure);
    if (key, moved.revision) in db.ledger || (key, moved.revision) in db.events then None
    else Some(db.(runs := db.runs[key := moved.(audit := moved.audit + [entry])],
                  ledger := db.ledger[(key, moved.revision) := entry],
                  events := db.events + {(key, moved.revision)}))
  }

  function NewRun(request: Request, now: int): Run {
    Run(request, Queued, 0, 1, [], None, now, None, 0, None, None, None)
  }

  function Released(run: Run, state: State, failure: Option<Code>): Run {
    run.(state := state, revision := run.revision + 1, failure := failure, worker := None, leaseExpiresAt := None)
  }

  // ---------- asking for a run ----------

  datatype Reply = Accepted | Conflict | Collision

  /** An interactive request: a repeated one finds its run, a different one under the same key conflicts. */
  function Ask(db: Db, key: Key, request: Request, now: int): (Db, Reply) {
    if key in db.runs then (db, if db.runs[key].request == request then Accepted else Conflict)
    else
      var recorded := Record(db, key, NewRun(request, now), Absent, None);
      if recorded.None? then (db, Collision) else (recorded.value, Accepted)
  }

  // ---------- one worker pass ----------

  predicate Expired(run: Run, now: int) { run.leaseExpiresAt.Some? && run.leaseExpiresAt.value < now }

  predicate Exhausted(db: Db, key: Key, now: int) {
    key in db.runs && db.runs[key].state == Running && Expired(db.runs[key], now) && db.runs[key].attempt >= MAX_ATTEMPTS
  }

  predicate Claimable(db: Db, key: Key, now: int) {
    key in db.runs && db.runs[key].attempt < MAX_ATTEMPTS &&
    ((db.runs[key].state == Queued && db.runs[key].nextAttemptAt <= now) || (db.runs[key].state == Running && Expired(db.runs[key], now)))
  }

  function Exhaust(db: Db, key: Key, now: int): Option<Db> {
    if !Exhausted(db, key, now) then Some(db)
    else Record(db, key, Released(db.runs[key], DeadLetter, Some(RetryExhausted)), At(Running), Some(RetryExhausted))
  }

  function Claimed(run: Run, fence: Fence, now: int): Run {
    run.(state := Running, attempt := run.attempt + 1, revision := run.revision + 1, worker := Some(fence),
         leaseRevision := run.leaseRevision + 1, leaseExpiresAt := Some(now + LEASE_MILLIS))
  }

  function Claim(db: Db, key: Key, fence: Fence, now: int): Option<Db> {
    if !Claimable(db, key, now) then Some(db)
    else Record(db, key, Claimed(db.runs[key], fence, now), At(db.runs[key].state), None)
  }

  predicate Due(db: Db, id: nat, now: int) {
    id in db.schedules && db.schedules[id].state == Active && db.schedules[id].nextRunAt.Some? && db.schedules[id].nextRunAt.value <= now
  }

  /** Stores a schedule that just moved, with its event. */
  function RecordSchedule(db: Db, id: nat, moved: Schedule): Option<Db> {
    if (id, moved.revision) in db.scheduleEvents then None
    else Some(db.(schedules := db.schedules[id := moved], scheduleEvents := db.scheduleEvents + {(id, moved.revision)}))
  }

  /** Ensures the run of a slot: new, or already there for exactly this slot; None when the key is bound to anything else. */
  function EnsureRun(db: Db, id: nat, slot: int, window: nat, now: int): Option<Db> {
    var key, request := SlotKey(id, slot, window), Scheduled(id, slot, window);
    if key !in db.runs then Record(db, key, NewRun(request, now), Absent, None)
    else if db.runs[key].request == request then Some(db)
    else None
  }

  /**
   One due schedule: without current authority it is cancelled; otherwise its slot's run is ensured and it advances past
   the slot.
   */
  function Enqueue(db: Db, id: nat, ready: bool, now: int): Option<Db> {
    if !Due(db, id, now) then Some(db)
    else
      var s := db.schedules[id];
      if !ready then RecordSchedule(db, id, s.(state := Cancelled, nextRunAt := None, revision := s.revision + 1))
      else
        var ensured := EnsureRun(db, id, s.nextRunAt.value, s.window, now);
        if ensured.None? then None
        else RecordSchedule(ensured.value, id, s.(nextRunAt := Some(NextAfter(s.nextRunAt.value, db.offset)), revision := s.revision + 1))
  }

  datatype Duty = EnqueueDuty(schedule: nat, ready: bool) | ExhaustDuty(key: Key) | ClaimDuty(key: Key)

  function Perform(db: Db, duty: Duty, fence: Fence, now: int): Option<Db> {
    match duty
    case EnqueueDuty(id, ready) => Enqueue(db, id, ready, now)
    case ExhaustDuty(key) => Exhaust(db, key, now)
    case ClaimDuty(key) => Claim(db, key, fence, now)
  }

  /** The duties of one pass, in one transaction: any collision aborts them all. */
  function PerformAll(db: Db, duties: seq<Duty>, fence: Fence, now: int): Option<Db>
    decreases |duties|
  {
    if duties == [] then Some(db)
    else
      var one := Perform(db, duties[0], fence, now);
      if one.None? then None else PerformAll(one.value, duties[1..], fence, now)
  }

  function Pass(db: Db, duties: seq<Duty>, fence: Fence, now: int): Db {
    if !IsLive(db.live, fence, now) then db
    else
      var done := PerformAll(db, duties, fence, now);
      if done.None? then db else done.value
  }

  // ---------- executing a run ----------

  predicate Holds(db: Db, key: Key, fence: Fence) {
    key in db.runs && db.runs[key].state == Running && db.runs[key].worker == Some(fence)
  }

  /** What the authority checks and the report came to; anything that throws rolls back and is requeued. */
  datatype Execution = Forbidden | Stale | Produced(artifact: Digest, metadata: Digest) | Thrown

  function Deliver(db: Db, key: Key, artifact: Digest, metadata: Digest): Option<Db>
    requires key in db.runs
  {
    if key in db.artifacts || key in db.receipts then None
    else
      var moved := Released(db.runs[key], Succeeded, db.runs[key].failure).(artifact := Some(artifact), metadata := Some(metadata));
      Record(db.(artifacts := db.artifacts[key := Artifact(artifact, metadata)],
                 receipts := db.receipts[key := Receipt(artifact, metadata)]), key, moved, At(Running), None)
  }

  function Bury(db: Db, key: Key, code: Code): Option<Db>
    requires key in db.runs
  {
    Record(db, key, Released(db.runs[key], DeadLetter, Some(code)), At(Running), Some(code))
  }

  /** One execution transaction; None when it throws. */
  function Execute(db: Db, key: Key, fence: Fence, x: Execution, now: int): Option<Db> {
    if !IsLive(db.live, fence, now) || !Holds(db, key, fence) ||
       !(db.runs[key].leaseExpiresAt.Some? && db.runs[key].leaseExpiresAt.value > now) then Some(db)
    else
      match x
      case Forbidden => Bury(db, key, RecipientForbidden)
      case Stale => Bury(db, key, AuthorityStale)
      case Produced(artifact, metadata) => Deliver(db, key, artifact, metadata)
      case Thrown => None
  }

  predicate Authoritative(code: Code) { code == AuthorityStale || code == CurrencyMixed }

  /** After a throw: the worker's identity is checked, the claim it was made under is not. */
  function Requeue(db: Db, key: Key, fence: Fence, code: Code, now: int): Option<Db> {
    if !IsLive(db.live, fence, now) || !Holds(db, key, fence) then Some(db)
    else
      var run := db.runs[key];
      if run.attempt >= MAX_ATTEMPTS || Authoritative(code) then
        var last := if Authoritative(code) then code else RetryExhausted;
        Record(db, key, Released(run, DeadLetter, Some(last)), At(Running), Some(last))
      else
        var delay := if run.attempt == 1 then 15_000 else 30_000;
        Record(db, key, Released(run, Queued, Some(code)).(nextAttemptAt := now + delay), At(Running), Some(code))
  }

  function OrSame(db: Db, changed: Option<Db>): Db { if changed.Some? then changed.value else db }

  // ---------- schedules ----------

  /** The owner creates, changes or cancels a schedule at the revision it knows; a change starts at the next slot. */
  function Upsert(db: Db, id: nat, expected: nat, window: nat, weekday: int, time: int, now: int): Db {
    var revision := if id in db.schedules then db.schedules[id].revision else 0;
    if revision != expected || !ValidSlot(weekday, time) then db
    else OrSame(db, RecordSchedule(db, id, Schedule(Active, window, weekday, time, Some(NextWeekly(now, weekday, time, db.offset)), expected + 1)))
  }

  function Cancel(db: Db, id: nat, expected: nat): Db {
    if id !in db.schedules || db.schedules[id].revision != expected then db
    else OrSame(db, RecordSchedule(db, id, db.schedules[id].(state := Cancelled, nextRunAt := None, revision := expected + 1)))
  }

  // ---------- runs of the system ----------

  datatype Step =
    | AskStep(key: Key, request: Request)
    | PassStep(duties: seq<Duty>, fence: Fence)
    | ExecuteStep(key: Key, fence: Fence, execution: Execution)
    | RequeueStep(key: Key, fence: Fence, code: Code)
    | UpsertStep(schedule: nat, expected: nat, window: nat, weekday: int, time: int)
    | CancelStep(schedule: nat, expected: nat)
    | Environment(events: set<(Key, nat)>, scheduleEvents: set<(nat, nat)>, live: LiveFence)

  /** `now` is the time of the latest transaction; it never goes back. */
  datatype System = System(db: Db, now: int)

  datatype Timed = Timed(step: Step, elapsed: nat)

  function Apply(db: Db, step: Step, now: int): Db {
    match step
    case AskStep(key, request) => if request.Asked? then Ask(db, key, request, now).0 else db
    case PassStep(duties, fence) => Pass(db, duties, fence, now)
    case ExecuteStep(key, fence, x) => OrSame(db, Execute(db, key, fence, x, now))
    case RequeueStep(key, fence, code) => OrSame(db, Requeue(db, key, fence, code, now))
    case UpsertStep(id, expected, window, weekday, time) => Upsert(db, id, expected, window, weekday, time, now)
    case CancelStep(id, expected) => Cancel(db, id, expected)
    case Environment(events, scheduleEvents, live) =>
      db.(events := db.events + events, scheduleEvents := db.scheduleEvents + scheduleEvents,
          live := if Succeeds(db.live, live) then live else db.live)
  }

  function RunAll(sys: System, steps: seq<Timed>): System
    decreases |steps|
  {
    if steps == [] then sys
    else
      var before := RunAll(sys, steps[..|steps| - 1]);
      var last := steps[|steps| - 1];
      System(Apply(before.db, last.step, before.now + last.elapsed), before.now + last.elapsed)
  }

  function Initial(offset: int, live: LiveFence, now: int): System {
    System(Db(map[], map[], {}, map[], map[], map[], {}, offset, live), now)
  }
}
