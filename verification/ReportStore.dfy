/** The report worker over mutable tables: one pass with its three loops, the execution of a run, and its requeue. */
module ReportStore {
  import opened Wrappers
  import opened Fencing
  import opened WeeklySlots
  import opened ReportModel

  const BATCH := 16

  /** `LIMIT 16`. */
  function Batch<T>(s: seq<T>): (r: seq<T>)
    ensures r <= s && |r| <= BATCH && (|r| == BATCH || r == s)
  {
    if |s| <= BATCH then s else s[..BATCH]
  }

  function Enqueues(ids: seq<nat>, ready: map<nat, bool>): (r: seq<Duty>)
    ensures |r| == |ids|
  {
    seq(|ids|, i requires 0 <= i < |ids| => EnqueueDuty(ids[i], ids[i] in ready && ready[ids[i]]))
  }

  function Exhausts(keys: seq<Key>): (r: seq<Duty>)
    ensures |r| == |keys|
  {
    seq(|keys|, i requires 0 <= i < |keys| => ExhaustDuty(keys[i]))
  }

  function Claims(keys: seq<Key>): (r: seq<Duty>)
    ensures |r| == |keys|
  {
    seq(|keys|, i requires 0 <= i < |keys| => ClaimDuty(keys[i]))
  }

  lemma {:induction false} PerformAllSplits(db: Db, a: seq<Duty>, b: seq<Duty>, fence: Fence, now: int)
    ensures PerformAll(db, a + b, fence, now) ==
              var first := PerformAll(db, a, fence, now);
              if first.None? then None else PerformAll(first.value, b, fence, now)
    decreases |a|
  {
    hide Perform;
    if a == [] {
      assert a + b == b;
    } else {
      assert (a + b)[0] == a[0] && (a + b)[1..] == a[1..] + b;
      var one := Perform(db, a[0], fence, now);
      if one.Some? { PerformAllSplits(one.value, a[1..], b, fence, now); }
    }
  }

  class Store {
    var runs: map<Key, Run>
    var ledger: map<(Key, nat), AuditEntry>
    var events: set<(Key, nat)>
    var artifacts: map<Key, Artifact>
    var receipts: map<Key, Receipt>
    var schedules: map<nat, Schedule>
    var scheduleEvents: set<(nat, nat)>
    var offset: int
    var live: LiveFence

    function Snapshot(): Db
      reads this
    {
      Db(runs, ledger, events, artifacts, receipts, schedules, scheduleEvents, offset, live)
    }

    constructor (db: Db)
      ensures Snapshot() == db
    {
      runs, ledger, events := db.runs, db.ledger, db.events;
      artifacts, receipts := db.artifacts, db.receipts;
      schedules, scheduleEvents, offset, live := db.schedules, db.scheduleEvents, db.offset, db.live;
    }

    method RollbackTo(saved: Db)
      modifies this
      ensures Snapshot() == saved
    {
      runs, ledger, events := saved.runs, saved.ledger, saved.events;
      artifacts, receipts := saved.artifacts, saved.receipts;
      schedules, scheduleEvents, offset, live := saved.schedules, saved.scheduleEvents, saved.offset, saved.live;
    }

    /** Row, ledger and event of one move; false when the ledger row or the event is taken, leaving a partial write. */
    method Append(key: Key, moved: Run, from: Origin, failure: Option<Code>) returns (ok: bool)
      modifies this
      ensures ok ==> Record(old(Snapshot()), key, moved, from, failure) == Some(Snapshot())
      ensures !ok ==> Record(old(Snapshot()), key, moved, from, failure).None?
    {
      var entry := AuditEntry(from, moved.state, moved.revision, failure);
      runs := runs[key := moved.(audit := moved.audit + [entry])];
      if (key, moved.revision) in ledger { return false; }
      ledger := ledger[(key, moved.revision) := entry];
      if (key, moved.revision) in events { return false; }
      events := events + {(key, moved.revision)};
      return true;
    }

    method AppendSchedule(id: nat, moved: Schedule) returns (ok: bool)
      modifies this
      ensures ok ==> RecordSchedule(old(Snapshot()), id, moved) == Some(Snapshot())
      ensures !ok ==> RecordSchedule(old(Snapshot()), id, moved).None?
    {
      schedules := schedules[id := moved];
      if (id, moved.revision) in scheduleEvents { return false; }
      scheduleEvents := scheduleEvents + {(id, moved.revision)};
      return true;
    }

    method EnqueueOne(id: nat, ready: bool, now: int) returns (ok: bool)
      modifies this
      ensures Enqueue(old(Snapshot()), id, ready, now) == if ok then Some(Snapshot()) else None
    {
      if !Due(Snapshot(), id, now) { return true; }
      var s := schedules[id];
      if !ready {
        ok := AppendSchedule(id, s.(state := Cancelled, nextRunAt := None, revision := s.revision + 1));
        return;
      }
      var slot := s.nextRunAt.value;
      var key, request := SlotKey(id, slot, s.window), Scheduled(id, slot, s.window);
      if key !in runs {
        ok := Append(key, NewRun(request, now), Absent, None);
        if !ok { return; }
      } else if runs[key].request != request {
        return false;
      }
      ok := AppendSchedule(id, s.(nextRunAt := Some(NextAfter(slot, offset)), revision := s.revision + 1));
    }

    method ExhaustOne(key: Key, now: int) returns (ok: bool)
      modifies this
      ensures Exhaust(old(Snapshot()), key, now) == if ok then Some(Snapshot()) else None
    {
      if !Exhausted(Snapshot(), key, now) { return true; }
      ok := Append(key, Released(runs[key], DeadLetter, Some(RetryExhausted)), At(Running), Some(RetryExhausted));
    }

    method ClaimOne(key: Key, fence: Fence, now: int) returns (ok: bool)
      modifies this
      ensures Claim(old(Snapshot()), key, fence, now) == if ok then Some(Snapshot()) else None
    {
      if !Claimable(Snapshot(), key, now) { return true; }
      ok := Append(key, Claimed(runs[key], fence, now), At(runs[key].state), None);
    }

    /** Duty after duty until one fails, leaving a partial write for the caller to roll back. */
    method PerformDuties(duties: seq<Duty>, fence: Fence, now: int) returns (ok: bool)
      modifies this
      ensures PerformAll(old(Snapshot()), duties, fence, now) == if ok then Some(Snapshot()) else None
    {
      var i := 0;
      assert duties[0..] == duties;
      while i < |duties|
        invariant i <= |duties|
        invariant PerformAll(old(Snapshot()), duties, fence, now) == PerformAll(Snapshot(), duties[i..], fence, now)
      {
        hide Enqueue, Exhaust, Claim;
        ghost var rest := duties[i..];
        assert rest[0] == duties[i] && rest[1..] == duties[i + 1..];
        match duties[i] {
          case EnqueueDuty(id, ready) => ok := EnqueueOne(id, ready, now);
          case ExhaustDuty(key) => ok := ExhaustOne(key, now);
          case ClaimDuty(key) => ok := ClaimOne(key, fence, now);
        }
        if !ok { return false; }
        i := i + 1;
      }
      return true;
    }

    /** One worker pass: due schedules, then exhausted runs, then claims, at most 16 of each, in one transaction. */
    method ProcessPass(due: seq<nat>, ready: map<nat, bool>, exhausted: seq<Key>, candidates: seq<Key>, fence: Fence, now: int)
      returns (committed: bool)
      modifies this
      ensures Snapshot() ==
              Pass(old(Snapshot()), Enqueues(Batch(due), ready) + Exhausts(Batch(exhausted)) + Claims(Batch(candidates)), fence, now)
      ensures !committed ==> Snapshot() == old(Snapshot())
    {
      if !IsLive(live, fence, now) { return false; }
      var saved := Snapshot();
      hide PerformAll;
      var enqueues, exhausts, claims := Enqueues(Batch(due), ready), Exhausts(Batch(exhausted)), Claims(Batch(candidates));
      PerformAllSplits(saved, enqueues, exhausts, fence, now);
      PerformAllSplits(saved, enqueues + exhausts, claims, fence, now);
      committed := PerformDuties(enqueues, fence, now);
      if committed { committed := PerformDuties(exhausts, fence, now); }
      if committed { committed := PerformDuties(claims, fence, now); }
      if !committed { RollbackTo(saved); }
    }

    method ExecuteRun(key: Key, fence: Fence, x: Execution, now: int) returns (ok: bool)
      modifies this
      ensures Snapshot() == OrSame(old(Snapshot()), Execute(old(Snapshot()), key, fence, x, now))
      ensures ok <==> Execute(old(Snapshot()), key, fence, x, now).Some?
    {
      var saved := Snapshot();
      if !IsLive(live, fence, now) || !Holds(saved, key, fence) { return true; }
      var run := runs[key];
      if !(run.leaseExpiresAt.Some? && run.leaseExpiresAt.value > now) { return true; }
      match x {
        case Forbidden => ok := Append(key, Released(run, DeadLetter, Some(RecipientForbidden)), At(Running), Some(RecipientForbidden));
        case Stale => ok := Append(key, Released(run, DeadLetter, Some(AuthorityStale)), At(Running), Some(AuthorityStale));
        case Thrown => ok := false;
        case Produced(artifact, metadata) =>
          ok := key !in artifacts && key !in receipts;
          if ok {
            artifacts := artifacts[key := Artifact(artifact, metadata)];
            receipts := receipts[key := Receipt(artifact, metadata)];
            ok := Append(key, Released(run, Succeeded, run.failure).(artifact := Some(artifact), metadata := Some(metadata)), At(Running), None);
          }
      }
      if !ok { RollbackTo(saved); }
    }

    method RequeueRun(key: Key, fence: Fence, code: Code, now: int)
      modifies this
      ensures Snapshot() == OrSame(old(Snapshot()), Requeue(old(Snapshot()), key, fence, code, now))
    {
      var saved := Snapshot();
      if !IsLive(live, fence, now) || !Holds(saved, key, fence) { return; }
      var run := runs[key];
      var ok: bool;
      if run.attempt >= MAX_ATTEMPTS || Authoritative(code) {
        var last := if Authoritative(code) then code else RetryExhausted;
        ok := Append(key, Released(run, DeadLetter, Some(last)), At(Running), Some(last));
      } else {
        var delay := if run.attempt == 1 then 15_000 else 30_000;
        ok := Append(key, Released(run, Queued, Some(code)).(nextAttemptAt := now + delay), At(Running), Some(code));
      }
      if !ok { RollbackTo(saved); }
    }
  }
}
