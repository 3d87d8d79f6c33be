/** Reminder delivery: one notification for each reminder, three failures at most, and evidence for every move. */
module Reminders {
  import opened Wrappers
  import opened Fencing
  import opened Distinctness

  const MAX_FAILURES := 3

  datatype State = Scheduled | Delivered | Dismissed | Cancelled | Failed
  datatype AuditEntry = AuditEntry(from: State, to: State, revision: nat)

  /** Revision 1 is the creation, which the workflow engine audits; `moves` holds the audit entries after it. */
  datatype Reminder = Reminder(state: State, dueAt: int, attempt: nat, revision: nat, moves: seq<AuditEntry>)

  datatype Event = DeliveredEvent(reminder: nat) | NotificationEvent(notification: nat) | FailedEvent(reminder: nat)

  /** `notifications` maps each notification to the reminder it delivers; ids come from a sequence. */
  datatype Db = Db(
    reminders: map<nat, Reminder>, notifications: map<nat, nat>, sequence: nat, outbox: set<Event>, live: LiveFence)

  function Moved(r: Reminder, to: State): Reminder {
    r.(state := to, revision := r.revision + 1, moves := r.moves + [AuditEntry(r.state, to, r.revision + 1)])
  }

  /** `jsonb_array_length(audit) = revision`, with the creation entry counted. */
  predicate Consistent(r: Reminder) { |r.moves| + 1 == r.revision }

  predicate Deliverable(db: Db, id: nat, now: int) {
    id in db.reminders && db.reminders[id].state == Scheduled && db.reminders[id].dueAt <= now && Consistent(db.reminders[id])
  }

  datatype Ending = Done | Threw | Stale

  /** Reminder, notification and both events in one statement; anything less is rolled back. */
  function Deliver(db: Db, id: nat, fence: Fence, now: int): (Db, Ending) {
    if !IsLive(db.live, fence, now) then (db, Stale)
    else if !Deliverable(db, id, now) then (db, Threw)
    else
      var note := db.sequence;
      var used := db.(sequence := note + 1);
      if DeliveredEvent(id) in db.outbox || NotificationEvent(note) in db.outbox || note in db.notifications then (used, Threw)
      else (used.(reminders := db.reminders[id := Moved(db.reminders[id], Delivered)],
                  notifications := db.notifications[note := id],
                  outbox := db.outbox + {DeliveredEvent(id), NotificationEvent(note)}), Done)
  }

  /** After a throw: the third failure ends the reminder with its own event; earlier ones only count. */
  function RecordFailure(db: Db, id: nat, fence: Fence, now: int): Db {
    if !IsLive(db.live, fence, now) || id !in db.reminders then db
    else
      var r := db.reminders[id];
      if r.state != Scheduled || !Consistent(r) then db
      else if r.attempt + 1 < MAX_FAILURES then db.(reminders := db.reminders[id := r.(attempt := r.attempt + 1)])
      else if FailedEvent(id) in db.outbox then db
      else db.(reminders := db.reminders[id := Moved(r, Failed).(attempt := r.attempt + 1)], outbox := db.outbox + {FailedEvent(id)})
  }

  // ---------- runs ----------

  datatype Step =
    | Schedule(dueAt: int)
    | DeliverStep(id: nat, fence: Fence, now: int)
    | FailStep(id: nat, fence: Fence, now: int)
    | CancelStep(id: nat)
    | DismissStep(id: nat)
    | Environment(outbox: set<Event>, live: LiveFence, sequence: nat)

  function UserMove(db: Db, id: nat, from: State, to: State): Db {
    if id in db.reminders && db.reminders[id].state == from then db.(reminders := db.reminders[id := Moved(db.reminders[id], to)]) else db
  }

  function Apply(db: Db, step: Step): Db {
    match step
    case Schedule(dueAt) => db.(reminders := db.reminders[db.sequence := Reminder(Scheduled, dueAt, 0, 1, [])], sequence := db.sequence + 1)
    case DeliverStep(id, fence, now) => Deliver(db, id, fence, now).0
    case FailStep(id, fence, now) => RecordFailure(db, id, fence, now)
    case CancelStep(id) => UserMove(db, id, Scheduled, Cancelled)
    case DismissStep(id) => UserMove(db, id, Delivered, Dismissed)
    case Environment(outbox, live, sequence) =>
      db.(outbox := db.outbox + outbox, live := if Succeeds(db.live, live) then live else db.live,
          sequence := if sequence > db.sequence then sequence else db.sequence)
  }

  function Run(db: Db, steps: seq<Step>): Db
    decreases |steps|
  {
    if steps == [] then db else Apply(Run(db, steps[..|steps| - 1]), steps[|steps| - 1])
  }

  // ---------- invariants ----------

  predicate Notified(s: State) { s == Delivered || s == Dismissed }

  ghost predicate Linked(moves: seq<AuditEntry>) {
    && (forall i | 0 <= i < |moves| :: moves[i].revision == i + 2)
    && (|moves| > 0 ==> moves[0].from == Scheduled)
    && (forall i | 1 <= i < |moves| :: moves[i].from == moves[i - 1].to)
  }

  ghost predicate ReminderSound(db: Db, id: nat)
    requires id in db.reminders
  {
    var r := db.reminders[id];
    && id < db.sequence && Consistent(r) && r.revision <= 3
    && Linked(r.moves)
    && r.state == (if |r.moves| == 0 then Scheduled else r.moves[|r.moves| - 1].to)
    && (r.state == Scheduled ==> r.revision == 1) && (r.state != Dismissed ==> r.revision <= 2)
    && (if r.state == Failed then r.attempt == MAX_FAILURES else r.attempt < MAX_FAILURES)
    && (Notified(r.state) ==> DeliveredEvent(id) in db.outbox) && (r.state == Failed ==> FailedEvent(id) in db.outbox)
  }

  ghost predicate NotificationsExact(db: Db) {
    && (forall n <- db.notifications ::
          n < db.sequence && db.notifications[n] in db.reminders && Notified(db.reminders[db.notifications[n]].state) &&
          NotificationEvent(n) in db.outbox)
    && (forall id <- db.reminders :: Notified(db.reminders[id].state) ==> exists n <- db.notifications :: db.notifications[n] == id)
    && (forall a, b | a in db.notifications && b in db.notifications :: db.notifications[a] == db.notifications[b] ==> a == b)
  }

  ghost predicate Sound(db: Db) { (forall id <- db.reminders :: ReminderSound(db, id)) && NotificationsExact(db) }

  predicate Settled(s: State) { s == Dismissed || s == Cancelled || s == Failed }

  ghost predicate Evolves(a: Db, b: Db) {
    && (forall id <- a.reminders :: id in b.reminders && a.reminders[id].moves <= b.reminders[id].moves &&
          (Settled(a.reminders[id].state) ==> b.reminders[id] == a.reminders[id]))
    && (forall n <- a.notifications :: n in b.notifications && b.notifications[n] == a.notifications[n])
  }

  lemma DeliverKeeps(db: Db, id: nat, fence: Fence, now: int)
    requires Sound(db)
    ensures Sound(Deliver(db, id, fence, now).0) && Evolves(db, Deliver(db, id, fence, now).0)
  {
    hide NotificationsExact, ReminderSound;
    var (after, ending) := Deliver(db, id, fence, now);
    if ending.Done? {
      assert ReminderSound(db, id);
      DeliveredIsSound(db, after, id);
      forall k <- after.reminders ensures ReminderSound(after, k) {
        if k != id { SameIsSound(db, after, k); }
      }
      FreshNotification(db);
      DeliveredNotifications(db, after, id);
    } else {
      OthersKeep(db, after);
    }
  }

  lemma SameIsSound(db: Db, after: Db, id: nat)
    requires id in db.reminders && ReminderSound(db, id) && id in after.reminders && after.reminders[id] == db.reminders[id]
    requires db.outbox <= after.outbox && db.sequence <= after.sequence
    ensures ReminderSound(after, id)
  {
  }

  lemma DeliveredIsSound(db: Db, after: Db, id: nat)
    requires id in db.reminders && ReminderSound(db, id) && db.reminders[id].state == Scheduled && id in after.reminders
    requires after.reminders[id] == Moved(db.reminders[id], Delivered)
    requires DeliveredEvent(id) in after.outbox && db.sequence <= after.sequence
    ensures ReminderSound(after, id)
  {
  }

  lemma FreshNotification(db: Db)
    requires NotificationsExact(db)
    ensures db.sequence !in db.notifications
  {
  }

  lemma DeliveredNotifications(db: Db, after: Db, id: nat)
    requires NotificationsExact(db) && id in db.reminders && !Notified(db.reminders[id].state) && db.sequence !in db.notifications
    requires after.notifications == db.notifications[db.sequence := id] && after.sequence == db.sequence + 1
    requires after.outbox == db.outbox + {DeliveredEvent(id), NotificationEvent(db.sequence)}
    requires after.reminders == db.reminders[id := Moved(db.reminders[id], Delivered)]
    ensures NotificationsExact(after)
  {
    forall k <- after.reminders | Notified(after.reminders[k].state) ensures exists n <- after.notifications :: after.notifications[n] == k {
      if k == id {
        assert after.notifications[db.sequence] == k;
      } else {
        var n :| n in db.notifications && db.notifications[n] == k;
        assert after.notifications[n] == k;
      }
    }
  }

  /** Reminders and notifications untouched, the outbox and the sequence only grown. */
  lemma OthersKeep(db: Db, after: Db)
    requires Sound(db) && after == db.(outbox := after.outbox, sequence := after.sequence, live := after.live)
    requires db.outbox <= after.outbox && db.sequence <= after.sequence
    ensures Sound(after) && Evolves(db, after)
  {
    forall id <- after.reminders ensures ReminderSound(after, id) { assert ReminderSound(db, id); }
  }

  /** A reminder that moves without being notified, or while staying notified. */
  lemma MoveKeeps(db: Db, after: Db, id: nat)
    requires Sound(db) && id in db.reminders && after.reminders.Keys == db.reminders.Keys
    requires after == db.(reminders := db.reminders[id := after.reminders[id]], outbox := after.outbox) && db.outbox <= after.outbox
    requires Notified(after.reminders[id].state) <==> Notified(db.reminders[id].state)
    requires ReminderSound(after, id) && db.reminders[id].moves <= after.reminders[id].moves && !Settled(db.reminders[id].state)
    ensures Sound(after) && Evolves(db, after)
  {
    hide NotificationsExact, ReminderSound;
    forall k <- after.reminders ensures ReminderSound(after, k) {
      if k != id { SameIsSound(db, after, k); }
    }
    SameNotifications(db, after, id);
  }

  lemma SameNotifications(db: Db, after: Db, id: nat)
    requires NotificationsExact(db) && id in db.reminders && after.reminders.Keys == db.reminders.Keys
    requires after == db.(reminders := db.reminders[id := after.reminders[id]], outbox := after.outbox) && db.outbox <= after.outbox
    requires Notified(after.reminders[id].state) <==> Notified(db.reminders[id].state)
    ensures NotificationsExact(after)
  {
  }

  lemma StepKeeps(db: Db, step: Step)
    requires Sound(db)
    ensures Sound(Apply(db, step)) && Evolves(db, Apply(db, step))
  {
    hide NotificationsExact, Sound, Evolves;
    OthersKeep(db, db);
    match step
    case Schedule(dueAt) => ScheduleKeeps(db, dueAt);
    case DeliverStep(id, fence, now) => DeliverKeeps(db, id, fence, now);
    case FailStep(id, fence, now) => FailureKeeps(db, id, fence, now);
    case CancelStep(id) => UserMoveKeeps(db, id, Scheduled, Cancelled);
    case DismissStep(id) => UserMoveKeeps(db, id, Delivered, Dismissed);
    case Environment(_, _, _) => OthersKeep(db, Apply(db, step));
  }

  lemma ScheduleKeeps(db: Db, dueAt: int)
    requires Sound(db)
    ensures Sound(Apply(db, Schedule(dueAt))) && Evolves(db, Apply(db, Schedule(dueAt)))
  {
    hide NotificationsExact;
    var after := Apply(db, Schedule(dueAt));
    forall id <- db.reminders ensures id < db.sequence { assert ReminderSound(db, id); }
    forall id <- after.reminders ensures ReminderSound(after, id) {
      if id in db.reminders { assert ReminderSound(db, id); }
    }
    hide ReminderSound;
    ScheduledNotifications(db, after);
  }

  lemma ScheduledNotifications(db: Db, after: Db)
    requires NotificationsExact(db) && db.sequence !in db.reminders && db.sequence in after.reminders
    requires after == db.(reminders := db.reminders[db.sequence := after.reminders[db.sequence]], sequence := db.sequence + 1)
    requires after.reminders[db.sequence].state == Scheduled
    ensures NotificationsExact(after)
  {
  }

  lemma FailureKeeps(db: Db, id: nat, fence: Fence, now: int)
    requires Sound(db)
    ensures Sound(RecordFailure(db, id, fence, now)) && Evolves(db, RecordFailure(db, id, fence, now))
  {
    hide NotificationsExact, ReminderSound, Sound, Evolves;
    var after := RecordFailure(db, id, fence, now);
    OthersKeep(db, db);
    if after != db {
      FailedIsSound(db, id, fence, now);
      MoveKeeps(db, after, id);
    }
  }

  lemma FailedIsSound(db: Db, id: nat, fence: Fence, now: int)
    requires Sound(db) && id in db.reminders
    ensures id in RecordFailure(db, id, fence, now).reminders && ReminderSound(RecordFailure(db, id, fence, now), id)
  {
    hide NotificationsExact;
    assert ReminderSound(db, id);
  }

  lemma UserMoveKeeps(db: Db, id: nat, from: State, to: State)
    requires Sound(db) && ((from == Scheduled && to == Cancelled) || (from == Delivered && to == Dismissed))
    ensures Sound(UserMove(db, id, from, to)) && Evolves(db, UserMove(db, id, from, to))
  {
    hide NotificationsExact, ReminderSound, Sound, Evolves;
    var after := UserMove(db, id, from, to);
    OthersKeep(db, db);
    if id in db.reminders && db.reminders[id].state == from {
      MovedByUserIsSound(db, id, from, to);
      MoveKeeps(db, after, id);
    }
  }

  lemma MovedByUserIsSound(db: Db, id: nat, from: State, to: State)
    requires Sound(db) && id in db.reminders && db.reminders[id].state == from
    requires (from == Scheduled && to == Cancelled) || (from == Delivered && to == Dismissed)
    ensures id in UserMove(db, id, from, to).reminders && ReminderSound(UserMove(db, id, from, to), id)
  {
    hide NotificationsExact;
    assert ReminderSound(db, id);
  }

  lemma EvolvesTrans(a: Db, b: Db, c: Db)
    requires Evolves(a, b) && Evolves(b, c)
    ensures Evolves(a, c)
  {
  }

  lemma {:induction false} RunKeeps(db: Db, steps: seq<Step>)
    requires Sound(db)
    ensures Sound(Run(db, steps)) && Evolves(db, Run(db, steps))
    decreases |steps|
  {
    hide Sound, Evolves, Apply;
    OthersKeep(db, db);
    if steps != [] {
      var n := |steps| - 1;
      RunKeeps(db, steps[..n]);
      StepKeeps(Run(db, steps[..n]), steps[n]);
      EvolvesTrans(db, Run(db, steps[..n]), Run(db, steps));
    }
  }

  function Initial(outbox: set<Event>, live: LiveFence): Db { Db(map[], map[], 1, outbox, live) }

  /** Over any run a reminder has exactly one notification if it was delivered, and none otherwise; failures end at three. */
  lemma RemindersNotifyOnce(outbox: set<Event>, live: LiveFence, steps: seq<Step>, id: nat)
    requires id in Run(Initial(outbox, live), steps).reminders
    ensures var db := Run(Initial(outbox, live), steps);
            var r := db.reminders[id];
            && (Notified(r.state) <==> exists n <- db.notifications :: db.notifications[n] == id)
            && (forall a, b | a in db.notifications && b in db.notifications :: db.notifications[a] == id == db.notifications[b] ==> a == b)
            && r.attempt <= 3 && (r.state == Failed <==> r.attempt == 3)
            && |r.moves| + 1 == r.revision <= 3
  {
    RunKeeps(Initial(outbox, live), steps);
    var db := Run(Initial(outbox, live), steps);
    hide Run;
    assert ReminderSound(db, id);
  }

  /** A reminder that failed, was cancelled or was dismissed never changes, whatever stale workers try. */
  lemma SettledRemindersStay(db: Db, steps: seq<Step>, id: nat)
    requires Sound(db) && id in db.reminders
    requires db.reminders[id].state == Failed || db.reminders[id].state == Cancelled || db.reminders[id].state == Dismissed
    ensures id in Run(db, steps).reminders && Run(db, steps).reminders[id] == db.reminders[id]
  {
    RunKeeps(db, steps);
  }

  // ---------- what a delivery needs ----------

  /** Scheduled, due, with a consistent audit, and with neither of its events taken. */
  ghost predicate ReadyToGo(db: Db, id: nat, now: int) {
    && id in db.reminders && db.reminders[id].state == Scheduled && db.reminders[id].dueAt <= now
    && |db.reminders[id].moves| + 1 == db.reminders[id].revision
    && DeliveredEvent(id) !in db.outbox
    && forall n: nat | n >= db.sequence :: NotificationEvent(n) !in db.outbox && n !in db.notifications
  }

  /**
   A delivery under a live fence needs a scheduled reminder that is due and consistent, with untaken ids; then reminder,
   one notification for it and both events are written.  Anything else writes nothing but the sequence.
   */
  lemma DeliveriesAreDue(db: Db, id: nat, fence: Fence, now: int)
    ensures var (after, ending) := Deliver(db, id, fence, now);
            && (ending == Stale <==> db.live.fence != fence || db.live.expiresAt <= now)
            && (ending != Done ==> after == db.(sequence := after.sequence))
            && (ending == Done ==>
                  && id in db.reminders && db.reminders[id].state == Scheduled && db.reminders[id].dueAt <= now
                  && |db.reminders[id].moves| + 1 == db.reminders[id].revision
                  && id in after.reminders && after.reminders == db.reminders[id := after.reminders[id]]
                  && after.reminders[id].state == Delivered && after.reminders[id].revision == db.reminders[id].revision + 1
                  && after.reminders[id].moves == db.reminders[id].moves + [AuditEntry(Scheduled, Delivered, after.reminders[id].revision)]
                  && after.reminders[id].dueAt == db.reminders[id].dueAt && after.reminders[id].attempt == db.reminders[id].attempt
                  && after.notifications == db.notifications[db.sequence := id] && after.sequence == db.sequence + 1
                  && after.outbox == db.outbox + {DeliveredEvent(id), NotificationEvent(db.sequence)})
    ensures ReadyToGo(db, id, now) && db.live.fence == fence && db.live.expiresAt > now ==> Deliver(db, id, fence, now).1 == Done
  {
  }

  /** A failure under a live fence counts once on a scheduled reminder; the third ends it with its own event. */
  lemma ThirdFailureEnds(db: Db, id: nat, fence: Fence, now: int)
    ensures var after := RecordFailure(db, id, fence, now);
            if db.live.fence != fence || db.live.expiresAt <= now || id !in db.reminders || db.reminders[id].state != Scheduled ||
               |db.reminders[id].moves| + 1 != db.reminders[id].revision then after == db
            else
              var r := db.reminders[id];
              if r.attempt < 2 then after == db.(reminders := db.reminders[id := r.(attempt := r.attempt + 1)])
              else if FailedEvent(id) in db.outbox then after == db
              else
                && after.outbox == db.outbox + {FailedEvent(id)} && after.notifications == db.notifications
                && id in after.reminders && after.reminders == db.reminders[id := after.reminders[id]]
                && after.reminders[id].state == Failed && after.reminders[id].attempt == r.attempt + 1
                && after.reminders[id].dueAt == r.dueAt
                && after.reminders[id].revision == r.revision + 1
                && after.reminders[id].moves == r.moves + [AuditEntry(Scheduled, Failed, r.revision + 1)]
  {
  }

  /** Step `i` of a run delivered the reminder, under a live fence and not before it was due. */
  ghost predicate DeliveredAt(start: Db, steps: seq<Step>, i: nat, id: nat, dueAt: int) {
    && i < |steps| && steps[i].DeliverStep? && steps[i].id == id && dueAt <= steps[i].now
    && Run(start, steps[..i]).live.fence == steps[i].fence && Run(start, steps[..i]).live.expiresAt > steps[i].now
  }

  lemma OnlyDueDeliveriesNotify(db: Db, step: Step, id: nat)
    requires Sound(db) && id in Apply(db, step).reminders
    ensures id in db.reminders ==> Apply(db, step).reminders[id].dueAt == db.reminders[id].dueAt
    ensures Notified(Apply(db, step).reminders[id].state) && !(id in db.reminders && Notified(db.reminders[id].state)) ==>
              step.DeliverStep? && step.id == id && id in db.reminders && db.reminders[id].dueAt <= step.now &&
              db.live.fence == step.fence && db.live.expiresAt > step.now
  {
    hide Sound, Deliver, RecordFailure;
    IdsAreUsed(db, id);
    match step
    case DeliverStep(k, fence, now) => DeliveriesAreDue(db, k, fence, now);
    case FailStep(k, fence, now) => ThirdFailureEnds(db, k, fence, now);
    case _ =>
  }

  lemma IdsAreUsed(db: Db, id: nat)
    requires Sound(db)
    ensures id in db.reminders ==> id < db.sequence
  {
    if id in db.reminders { assert ReminderSound(db, id); }
  }

  /** No run ever notifies anybody before the reminder is due, or through a worker whose fence is gone. */
  lemma {:induction false} NobodyIsNotifiedEarly(start: Db, steps: seq<Step>, id: nat)
    requires Sound(start) && id in Run(start, steps).reminders && Notified(Run(start, steps).reminders[id].state)
    requires !(id in start.reminders && Notified(start.reminders[id].state))
    ensures exists i: nat :: DeliveredAt(start, steps, i, id, Run(start, steps).reminders[id].dueAt)
    decreases |steps|
  {
    hide Apply, Sound, Evolves;
    var n := |steps| - 1;
    var before := Run(start, steps[..n]);
    RunKeeps(start, steps[..n]);
    OnlyDueDeliveriesNotify(before, steps[n], id);
    if id in before.reminders && Notified(before.reminders[id].state) {
      NobodyIsNotifiedEarly(start, steps[..n], id);
      var i: nat :| DeliveredAt(start, steps[..n], i, id, before.reminders[id].dueAt);
      assert steps[..n][..i] == steps[..i];
      assert DeliveredAt(start, steps, i, id, Run(start, steps).reminders[id].dueAt);
    } else {
      assert DeliveredAt(start, steps, n, id, Run(start, steps).reminders[id].dueAt);
    }
  }

  /** Between two steps others may publish events, promote the fence and use notification ids. */
  lemma OthersAreUnrestricted(db: Db, outbox: set<Event>, live: LiveFence, sequence: nat)
    ensures var after := Apply(db, Environment(outbox, live, sequence));
            && after.outbox == db.outbox + outbox && (Succeeds(db.live, live) ==> after.live == live)
            && (sequence >= db.sequence ==> after.sequence == sequence)
            && after.reminders == db.reminders && after.notifications == db.notifications
  {
  }

  // ---------- the worker over mutable tables ----------

  class Store {
    var reminders: map<nat, Reminder>
    var notifications: map<nat, nat>
    var sequence: nat
    var outbox: set<Event>
    var live: LiveFence

    function Snapshot(): Db
      reads this
    {
      Db(reminders, notifications, sequence, outbox, live)
    }

    constructor (db: Db)
      ensures Snapshot() == db
    {
      reminders, notifications, sequence, outbox, live := db.reminders, db.notifications, db.sequence, db.outbox, db.live;
    }

    method DeliverOne(id: nat, fence: Fence, now: int) returns (ending: Ending)
      modifies this
      ensures (Snapshot(), ending) == Deliver(old(Snapshot()), id, fence, now)
    {
      if !IsLive(live, fence, now) { return Stale; }
      if !Deliverable(Snapshot(), id, now) { return Threw; }
      var note := sequence;
      sequence := sequence + 1;
      if DeliveredEvent(id) in outbox || NotificationEvent(note) in outbox || note in notifications { return Threw; }
      reminders := reminders[id := Moved(reminders[id], Delivered)];
      notifications := notifications[note := id];
      outbox := outbox + {DeliveredEvent(id), NotificationEvent(note)};
      return Done;
    }

    method FailOne(id: nat, fence: Fence, now: int)
      modifies this
      ensures Snapshot() == RecordFailure(old(Snapshot()), id, fence, now)
    {
      if !IsLive(live, fence, now) || id !in reminders { return; }
      var r := reminders[id];
      if r.state != Scheduled || !Consistent(r) { return; }
      if r.attempt + 1 < MAX_FAILURES {
        reminders := reminders[id := r.(attempt := r.attempt + 1)];
      } else if FailedEvent(id) !in outbox {
        reminders := reminders[id := Moved(r, Failed).(attempt := r.attempt + 1)];
        outbox := outbox + {FailedEvent(id)};
      }
    }

    /**
     One pass over the due reminders: deliver each, and record a failure when that threw.  Under a live fence every
     candidate that is ready to go is delivered, whatever becomes of the others.
     */
    method Process(candidates: seq<nat>, fence: Fence, now: int) returns (completed: nat)
      requires Sound(Snapshot()) && Distinct(candidates)
      modifies this
      ensures Sound(Snapshot()) && Evolves(old(Snapshot()), Snapshot())
      ensures completed <= |candidates| && |notifications| == |old(notifications)| + completed
      ensures live == old(live)
      ensures live.fence == fence && live.expiresAt > now ==>
                forall c <- candidates :: ReadyToGo(old(Snapshot()), c, now) ==> IsDelivered(Snapshot(), c)
    {
      completed := 0;
      var i := 0;
      ghost var start := Snapshot();
      OthersKeep(start, start);
      assert Underway(start, start, candidates, 0, fence, now) by { NothingDelivered(start, candidates, fence, now); }
      while i < |candidates|
        invariant completed <= i <= |candidates| && live == old(live)
        invariant Sound(Snapshot()) && Evolves(start, Snapshot()) && Underway(start, Snapshot(), candidates, i, fence, now)
        invariant |notifications| == |old(notifications)| + completed
      {
        hide Sound, Evolves, Deliver, RecordFailure, Underway;
        ghost var before := Snapshot();
        DeliverKeeps(before, candidates[i], fence, now);
        var ending := DeliverOne(candidates[i], fence, now);
        EvolvesTrans(start, before, Snapshot());
        OneNotification(before, candidates[i], fence, now);
        OneCandidateOn(start, before, candidates, i, fence, now);
        FencesStay(before, candidates[i], fence, now);
        if ending.Done? {
          completed := completed + 1;
        } else {
          ghost var delivered := Snapshot();
          FailureKeeps(delivered, candidates[i], fence, now);
          FailureNotifiesNobody(delivered, candidates[i], fence, now);
          FencesStay(delivered, candidates[i], fence, now);
          FailOne(candidates[i], fence, now);
          EvolvesTrans(start, delivered, Snapshot());
        }
        i := i + 1;
      }
      AllDelivered(start, Snapshot(), candidates, fence, now);
    }
  }

  ghost predicate IsDelivered(db: Db, id: nat) { id in db.reminders && db.reminders[id].state == Delivered }

  /** The candidates before `i` that were ready are delivered, and the later ones are as ready as they were. */
  ghost predicate Underway(start: Db, db: Db, candidates: seq<nat>, i: nat, fence: Fence, now: int) {
    start.live.fence == fence && start.live.expiresAt > now ==>
      && db.live == start.live
      && forall j | 0 <= j < |candidates| :: ReadyToGo(start, candidates[j], now) ==>
           if j < i then IsDelivered(db, candidates[j]) else ReadyToGo(db, candidates[j], now)
  }

  lemma NothingDelivered(db: Db, candidates: seq<nat>, fence: Fence, now: int)
    ensures Underway(db, db, candidates, 0, fence, now)
  {
    hide ReadyToGo;
  }

  lemma AllDelivered(start: Db, db: Db, candidates: seq<nat>, fence: Fence, now: int)
    requires Underway(start, db, candidates, |candidates|, fence, now)
    ensures start.live.fence == fence && start.live.expiresAt > now ==>
              forall c <- candidates :: ReadyToGo(start, c, now) ==> IsDelivered(db, c)
  {
    hide ReadyToGo, IsDelivered;
  }

  /** What one round of the pass makes of the tables. */
  function Round(db: Db, id: nat, fence: Fence, now: int): Db {
    var (after, ending) := Deliver(db, id, fence, now);
    if ending.Done? then after else RecordFailure(after, id, fence, now)
  }

  lemma OneCandidateOn(start: Db, db: Db, candidates: seq<nat>, i: nat, fence: Fence, now: int)
    requires Distinct(candidates) && i < |candidates| && Underway(start, db, candidates, i, fence, now)
    ensures Underway(start, Round(db, candidates[i], fence, now), candidates, i + 1, fence, now)
  {
    var after := Round(db, candidates[i], fence, now);
    hide Round, Deliver, ReadyToGo, IsDelivered;
    if start.live.fence == fence && start.live.expiresAt > now {
      RoundDelivers(db, candidates[i], fence, now);
      forall j | 0 <= j < |candidates| && ReadyToGo(start, candidates[j], now)
        ensures if j < i + 1 then IsDelivered(after, candidates[j]) else ReadyToGo(after, candidates[j], now)
      {
        if j != i { RoundLeavesOthers(db, candidates[i], fence, now, candidates[j]); }
      }
    }
  }

  lemma RoundDelivers(db: Db, id: nat, fence: Fence, now: int)
    ensures Round(db, id, fence, now).live == db.live
    ensures db.live.fence == fence && db.live.expiresAt > now && ReadyToGo(db, id, now) ==> IsDelivered(Round(db, id, fence, now), id)
  {
    DeliveriesAreDue(db, id, fence, now);
  }

  lemma RoundLeavesOthers(db: Db, id: nat, fence: Fence, now: int, other: nat)
    requires other != id
    ensures ReadyToGo(db, other, now) ==> ReadyToGo(Round(db, id, fence, now), other, now)
    ensures IsDelivered(db, other) ==> IsDelivered(Round(db, id, fence, now), other)
  {
  }

  lemma FencesStay(db: Db, id: nat, fence: Fence, now: int)
    ensures Deliver(db, id, fence, now).0.live == db.live && RecordFailure(db, id, fence, now).live == db.live
  {
  }

  lemma FailureNotifiesNobody(db: Db, id: nat, fence: Fence, now: int)
    ensures RecordFailure(db, id, fence, now).notifications == db.notifications
  {
  }

  lemma OneNotification(db: Db, id: nat, fence: Fence, now: int)
    ensures var (after, ending) := Deliver(db, id, fence, now);
            |after.notifications| == |db.notifications| + if ending.Done? then 1 else 0
  {
    var (after, ending) := Deliver(db, id, fence, now);
    if ending.Done? {
      assert after.notifications.Keys == db.notifications.Keys + {db.sequence};
      assert |after.notifications.Keys| == |after.notifications| && |db.notifications.Keys| == |db.notifications|;
    }
  }
}
