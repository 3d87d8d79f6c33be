/** The transactions of provider dispatch over mutable tables. */
module ProviderStore {
  import opened Wrappers
  import opened Fencing
  import opened ProviderModel
  import ProviderDecisions

  /** A claim loop that already took `keys` and ends as `rest`. */
  function Joined(keys: seq<Key>, rest: Claims): Claims { Claims(rest.host, keys + rest.keys) }

  class Store {
    var operations: map<Key, Operation>
    var activities: map<nat, Activity>
    var activityReceipts: map<Key, ActivityReceipt>
    var timeline: set<Key>
    var world: World
    var live: LiveFence

    function Snapshot(): Host
      reads this
    {
      Host(operations, activities, activityReceipts, timeline, world, live)
    }

    constructor (host: Host)
      ensures Snapshot() == host
    {
      operations, activities, activityReceipts := host.operations, host.activities, host.activityReceipts;
      timeline, world, live := host.timeline, host.world, host.live;
    }

    method Enqueue(key: Key, i: Intent, now: int) returns (outcome: Option<bool>)
      modifies this
      ensures Snapshot() == Dispatch(old(Snapshot()), key, i, now)
      ensures outcome == if i.provider !in old(world).configurations then None else Some(key !in old(operations))
    {
      if i.provider !in world.configurations { return None; }
      if key in operations { return Some(false); }
      operations := operations[key :=
        Operation(i.provider, i.actor, i.related, i.binding, world.configurations[i.provider], i.authority,
                  Queued, 0, now, None, None, None, None, None)];
      return Some(true);
    }

    method Claim(order: seq<Key>, fence: Fence, now: int) returns (keys: seq<Key>)
      modifies this
      ensures Claims(Snapshot(), keys) == ClaimBatch(old(Snapshot()), order, fence, now)
    {
      keys := [];
      if !IsLive(live, fence, now) { return; }
      ghost var start := Snapshot();
      var i := 0;
      assert order[0..] == order;
      ghost var all := ClaimEach(start, order, CLAIM_LIMIT, fence, now);
      assert [] + all.keys == all.keys;
      while i < |order| && |keys| < CLAIM_LIMIT
        invariant i <= |order| && |keys| <= CLAIM_LIMIT
        invariant all == Joined(keys, ClaimEach(Snapshot(), order[i..], CLAIM_LIMIT - |keys|, fence, now))
      {
        hide Claimable;
        ghost var rest := order[i..];
        assert rest[0] == order[i] && rest[1..] == order[i + 1..];
        if Claimable(Snapshot(), order[i], now) {
          IsOperation(Snapshot(), order[i], now);
          operations := operations[order[i] := operations[order[i]].(state := Running, worker := Some(fence))];
          ghost var tail := ClaimEach(Snapshot(), order[i + 1..], CLAIM_LIMIT - |keys| - 1, fence, now);
          assert keys + ([order[i]] + tail.keys) == (keys + [order[i]]) + tail.keys;
          keys := keys + [order[i]];
        }
        i := i + 1;
      }
      assert keys + [] == keys;
    }

    lemma IsOperation(host: Host, key: Key, now: int)
      requires Claimable(host, key, now)
      ensures key in host.operations
    {
    }

    /** The marker transaction. */
    method PrepareCall(key: Key, fence: Fence, claim: nat, now: int) returns (outcome: Preparation)
      modifies this
      ensures (Snapshot(), outcome) == Prepare(old(Snapshot()), key, fence, claim, now)
      ensures outcome.Ready? <==> ProviderDecisions.MayCall(old(Snapshot()), key, fence, now)
    {
      ProviderDecisions.PreparedExactlyWhenCurrent(Snapshot(), key, fence, claim, now);
      hide ProviderDecisions.MayCall;
      if !Held(Snapshot(), key, fence) || !IsLive(live, fence, now) || !Authorized(world, operations[key]) { return Refused(Revoked); }
      var op := operations[key];
      if !ActivityOpen(Snapshot(), op) { return Refused(HostInvariant); }
      if (op.actor, op.binding.value.activity) !in world.visible || !RecipientKnown(world, op) { return Refused(HostInvariant); }
      outcome := Ready(op.marker.Some?, op.receipt);
      if op.marker.None? {
        operations := operations[key := op.(marker := Some(Marker(claim, now)))];
      } else {
        assert operations[key := op] == operations;
      }
    }

    /** The receipt transaction, which no fence guards. */
    method KeepReceipt(key: Key, receipt: ReceiptId) returns (kept: bool)
      modifies this
      ensures (Snapshot(), kept) == Keep(old(Snapshot()), key, receipt)
    {
      if key !in operations || operations[key].state != Running { return false; }
      var op := operations[key];
      if op.receipt.None? {
        operations := operations[key := op.(receipt := Some(receipt))];
      } else {
        assert operations[key := op] == operations;
      }
      return true;
    }

    method CompleteActivity(key: Key, fence: Fence, receipt: ReceiptId, now: int) returns (outcome: Completion)
      modifies this
      ensures (Snapshot(), outcome) == Complete(old(Snapshot()), key, fence, receipt, now)
    {
      if !Held(Snapshot(), key, fence) || !IsLive(live, fence, now) { return StaleWorker; }
      var op := operations[key];
      if !ActivityOpen(Snapshot(), op) || key in activityReceipts || key in timeline { return Incomplete(Unreconciled); }
      var id := op.binding.value.activity;
      if ActivityUsed(Snapshot(), id) { return Incomplete(HostInvariant); }
      var a := activities[id];
      activities := activities[id := a.(scheduled := false, revision := a.revision + 1, completedBy := a.completedBy + [key])];
      activityReceipts := activityReceipts[key := ActivityReceipt(id, receipt)];
      operations := operations[key := op.(state := Accepted, digest := Some(receipt), worker := None)];
      timeline := timeline + {key};
      return Completed;
    }

    method Fail(key: Key, fence: Fence, code: Code, retry: bool, now: int)
      modifies this
      ensures Snapshot() == RecordFailure(old(Snapshot()), key, fence, code, retry, now)
    {
      if !Held(Snapshot(), key, fence) || !IsLive(live, fence, now) { return; }
      var op := operations[key];
      var attempt := op.attempt + 1;
      operations := operations[key := op.(
        state := if retry then Queued else DeadLetter, attempt := attempt,
        nextAttemptAt := if retry then now + attempt * RETRY_STEP_MILLIS else now, failure := Some(code), worker := None)];
    }
  }
}
