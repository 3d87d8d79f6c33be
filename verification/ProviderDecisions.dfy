/** What each provider transaction decides, on the fields of the operation, its activity, current authority and the fence. */
module ProviderDecisions {
  import opened Wrappers
  import opened Fencing
  import opened ProviderModel

  /** The worker still owns the running operation under a live fence, and its authority is current to the revision. */
  ghost predicate AuthorityCurrent(host: Host, key: Key, fence: Fence, now: int) {
    && key in host.operations
    && var op, w := host.operations[key], host.world;
    && op.state == Running && op.worker == Some(fence)
    && host.live.fence == fence && host.live.expiresAt > now
    && w.authorization == op.authority.authorization && w.lifecycle == op.authority.lifecycle
    && op.actor in w.scopes && w.scopes[op.actor] == op.authority.scope
    && op.provider in w.configurations && w.configurations[op.provider] == op.configuration
  }

  /** The activity is scheduled, unchanged since the intent, about the bound record, and visible to the actor. */
  ghost predicate ActivityBound(host: Host, op: Operation) {
    && op.binding.Some? && op.related.Some? && op.binding.value.activity in host.activities
    && host.activities[op.binding.value.activity].scheduled
    && host.activities[op.binding.value.activity].revision == op.binding.value.revision
    && host.activities[op.binding.value.activity].related == op.related
  }

  /** Mail goes only to a contact or a lead whose address the actor may use. */
  ghost predicate RecipientReachable(host: Host, op: Operation) {
    op.provider == Email ==>
      && op.related.Some? && (op.related.value.kind == Contact || op.related.value.kind == Lead)
      && (op.actor, op.related.value) in host.world.recipients
  }

  ghost predicate MayCall(host: Host, key: Key, fence: Fence, now: int) {
    && AuthorityCurrent(host, key, fence, now)
    && var op := host.operations[key];
    && ActivityBound(host, op) && (op.actor, op.binding.value.activity) in host.world.visible && RecipientReachable(host, op)
  }

  /**
   A call is prepared exactly when authority, activity and recipient all hold; a failed authority check revokes, any other
   is an invariant violation, and neither leaves a marker.  The first marker stays.
   */
  lemma PreparedExactlyWhenCurrent(host: Host, key: Key, fence: Fence, claim: nat, now: int)
    ensures var (after, outcome) := Prepare(host, key, fence, claim, now);
            && (outcome.Ready? <==> MayCall(host, key, fence, now))
            && (outcome == Refused(Revoked) <==> !AuthorityCurrent(host, key, fence, now))
            && (outcome.Ready? || outcome == Refused(Revoked) || outcome == Refused(HostInvariant))
            && (!outcome.Ready? ==> after == host)
            && (outcome.Ready? ==>
                  var op := host.operations[key];
                  && outcome == Ready(op.marker.Some?, op.receipt)
                  && after == host.(operations := host.operations[key := after.operations[key]])
                  && after.operations[key] == op.(marker := after.operations[key].marker)
                  && after.operations[key].marker == if op.marker.Some? then op.marker else Some(Marker(claim, now)))
  {
    if key in host.operations { assert host.operations[key := host.operations[key]] == host.operations; }
  }

  // ---------- no call without authority ----------

  /** Step `i` of a run prepared session `sid` for this operation and worker, and at that moment the call was allowed. */
  ghost predicate PreparedAt(start: System, steps: seq<Step>, i: nat, sid: nat, key: Key, fence: Fence) {
    && i < |steps| && steps[i].PrepareStep? && steps[i].sid == sid
    && var sys := Run(start, steps[..i]);
    && sid < |sys.sessions| && sys.sessions[sid].key == key && sys.sessions[sid].fence == fence
    && MayCall(sys.host, key, fence, steps[i].now)
  }

  ghost predicate WasPrepared(start: System, steps: seq<Step>, sid: nat, key: Key, fence: Fence) {
    exists i: nat :: PreparedAt(start, steps, i, sid, key, fence)
  }

  predicate PastPreparation(sys: System, sid: nat) {
    sid in sys.calls ||
    (sid < |sys.sessions| && !(sys.sessions[sid].phase.Claimed? || sys.sessions[sid].phase.Failing? || sys.sessions[sid].phase.Closed?))
  }

  /** A step takes a session past its preparation only by preparing it. */
  lemma OnlyPreparationPrepares(sys: System, step: Step, sid: nat)
    requires PastPreparation(Apply(sys, step), sid) && !PastPreparation(sys, sid)
    ensures step.PrepareStep? && step.sid == sid && sid < |sys.sessions|
    ensures MayCall(sys.host, sys.sessions[sid].key, sys.sessions[sid].fence, step.now)
  {
    if step.PrepareStep? && step.sid < |sys.sessions| {
      var s := sys.sessions[step.sid];
      PreparedExactlyWhenCurrent(sys.host, s.key, s.fence, step.claim, step.now);
      hide Prepare, MayCall;
    } else {
      hide Prepare, MayCall, Complete, Keep, LookUp, FirstReceipt, ClaimBatch, RecordFailure, Disturbed;
    }
  }

  /** A session never changes its operation or its worker, and calls belong to sessions. */
  lemma SessionsKeepTheirOperation(sys: System, step: Step)
    ensures var after := Apply(sys, step);
            && |sys.sessions| <= |after.sessions|
            && (forall i | 0 <= i < |sys.sessions| ::
                  after.sessions[i].key == sys.sessions[i].key && after.sessions[i].fence == sys.sessions[i].fence)
            && (forall sid <- after.calls :: sid in sys.calls || sid < |sys.sessions|)
  {
    hide Prepare, Complete, Keep, LookUp, FirstReceipt, ClaimBatch, RecordFailure, Disturbed, SessionStep;
    if step.PrepareStep? || step.ReuseStep? || step.ReconcileStep? || step.InvokeStep? || step.ReceiveStep? || step.RaiseStep? ||
       step.KeepStep? || step.CompleteStep? || step.FailStep? || step.CrashStep? {
      if step.sid < |sys.sessions| { SessionStepsKeepTheirOperation(sys, step); }
    }
  }

  lemma SessionStepsKeepTheirOperation(sys: System, step: Step)
    requires !step.DispatchStep? && !step.ClaimStep? && !step.Environment? && !step.DeliverStep? && !step.LoseStep?
    requires step.sid < |sys.sessions|
    ensures var after := SessionStep(sys, step);
            && |sys.sessions| == |after.sessions|
            && (forall i | 0 <= i < |sys.sessions| ::
                  after.sessions[i].key == sys.sessions[i].key && after.sessions[i].fence == sys.sessions[i].fence)
            && (forall sid <- after.calls :: sid in sys.calls || sid < |sys.sessions|)
  {
    hide Prepare, Complete, Keep, LookUp, FirstReceipt, RecordFailure;
  }

  /**
   In every run, a call in flight, answered or lost was prepared by its own worker for its own operation, at a moment when
   that operation's authority, activity and recipient were all current.
   */
  lemma {:induction false} EveryCallWasAuthorized(start: System, steps: seq<Step>, sid: nat)
    requires start.sessions == [] && start.calls == map[]
    ensures var sys := Run(start, steps);
            && (sid in sys.calls ==> sid < |sys.sessions|)
            && (PastPreparation(sys, sid) ==> WasPrepared(start, steps, sid, sys.sessions[sid].key, sys.sessions[sid].fence))
    decreases |steps|
  {
    hide Apply, MayCall;
    if steps != [] {
      var n := |steps| - 1;
      var before := Run(start, steps[..n]);
      EveryCallWasAuthorized(start, steps[..n], sid);
      SessionsKeepTheirOperation(before, steps[n]);
      if PastPreparation(before, sid) {
        var s := before.sessions[sid];
        var i: nat :| PreparedAt(start, steps[..n], i, sid, s.key, s.fence);
        assert steps[..n][..i] == steps[..i];
        assert PreparedAt(start, steps, i, sid, s.key, s.fence);
      } else if PastPreparation(Run(start, steps), sid) {
        OnlyPreparationPrepares(before, steps[n], sid);
        assert PreparedAt(start, steps, n, sid, before.sessions[sid].key, before.sessions[sid].fence);
      }
    }
  }

  // ---------- claims ----------

  /** Queued and due, or running for a worker whose fence died. */
  ghost predicate Due(host: Host, key: Key, now: int) {
    && key in host.operations
    && var op := host.operations[key];
    || (op.state == Queued && op.nextAttemptAt <= now)
    || (op.state == Running && (op.worker.None? || op.worker.value != host.live.fence || host.live.expiresAt <= now))
  }

  lemma ClaimableIsDue(host: Host, key: Key, now: int)
    ensures Claimable(host, key, now) <==> Due(host, key, now)
  {
  }

  /** What a claim batch made of the operations: those in `keys` run for `fence`, the others are as they were. */
  ghost predicate Taken(before: Host, after: Host, keys: seq<Key>, fence: Fence) {
    && after == before.(operations := after.operations) && after.operations.Keys == before.operations.Keys
    && forall k <- before.operations ::
         after.operations[k] == if k in keys then before.operations[k].(state := Running, worker := Some(fence)) else before.operations[k]
  }

  lemma {:induction false} ClaimEachTakesTheDue(host: Host, order: seq<Key>, limit: nat, fence: Fence, now: int)
    requires host.live.fence == fence && host.live.expiresAt > now
    ensures var claims := ClaimEach(host, order, limit, fence, now);
            && |claims.keys| <= limit && Taken(host, claims.host, claims.keys, fence)
            && (forall k <- claims.keys :: k in order && Due(host, k, now))
            && (forall k <- order :: Due(host, k, now) && k !in claims.keys ==> |claims.keys| == limit)
    decreases |order|
  {
    if order != [] && limit != 0 {
      hide Claimable, Due, Taken, ClaimOne;
      ClaimableIsDue(host, order[0], now);
      assert order == [order[0]] + order[1..];
      if Due(host, order[0], now) {
        DueExists(host, order[0], now);
        var one := ClaimOne(host, order[0], fence);
        OneClaimTakesOne(host, order[0], fence, now);
        ClaimEachTakesTheDue(one, order[1..], limit - 1, fence, now);
        var rest := ClaimEach(one, order[1..], limit - 1, fence, now);
        TakenJoins(host, one, rest.host, order[0], rest.keys, fence);
      } else {
        ClaimEachTakesTheDue(host, order[1..], limit, fence, now);
      }
    } else {
      assert Taken(host, host, [], fence);
    }
  }

  lemma DueExists(host: Host, key: Key, now: int)
    requires Due(host, key, now)
    ensures key in host.operations
  {
  }

  lemma OneClaimTakesOne(host: Host, key: Key, fence: Fence, now: int)
    requires key in host.operations && host.live.fence == fence && host.live.expiresAt > now
    ensures var one := ClaimOne(host, key, fence);
            && Taken(host, one, [key], fence) && one.live == host.live
            && forall k :: Due(one, k, now) <==> Due(host, k, now) && k != key
  {
  }

  lemma TakenJoins(a: Host, b: Host, c: Host, key: Key, keys: seq<Key>, fence: Fence)
    requires Taken(a, b, [key], fence) && Taken(b, c, keys, fence)
    ensures Taken(a, c, [key] + keys, fence)
  {
  }

  /**
   A claim under a live fence takes only due operations, at most four, leaves a visible due one out only when it has four,
   and changes nothing but who runs what; a worker whose fence is not live claims nothing.
   */
  lemma ClaimTakesTheDue(host: Host, order: seq<Key>, fence: Fence, now: int)
    ensures var claims := ClaimBatch(host, order, fence, now);
            if host.live.fence == fence && host.live.expiresAt > now then
              && |claims.keys| <= 4 && Taken(host, claims.host, claims.keys, fence)
              && (forall k <- claims.keys :: k in order && Due(host, k, now))
              && (forall k <- order :: Due(host, k, now) && k !in claims.keys ==> |claims.keys| == 4)
            else claims == Claims(host, [])
  {
    hide Due, Taken, ClaimEach;
    if host.live.fence == fence && host.live.expiresAt > now {
      ClaimEachTakesTheDue(host, order, CLAIM_LIMIT, fence, now);
    }
  }

  // ---------- receipts, completion, failure ----------

  /** The first receipt of a running operation is stored and stays; nothing else changes. */
  lemma FirstReceiptStays(host: Host, key: Key, receipt: ReceiptId)
    ensures var (after, kept) := Keep(host, key, receipt);
            && (kept <==> key in host.operations && host.operations[key].state == Running)
            && (!kept ==> after == host)
            && (kept ==>
                  && after == host.(operations := host.operations[key := after.operations[key]])
                  && after.operations[key] == host.operations[key].(receipt := after.operations[key].receipt)
                  && after.operations[key].receipt ==
                       (if host.operations[key].receipt.Some? then host.operations[key].receipt else Some(receipt)))
  {
  }

  /**
   An activity is completed exactly under the live claim, while it still is as bound, without a receipt for the operation
   or the activity and without a published event; then activity, receipt, operation and event change together.
   */
  lemma CompletedExactlyWhenBound(host: Host, key: Key, fence: Fence, receipt: ReceiptId, now: int)
    ensures var (after, outcome) := Complete(host, key, fence, receipt, now);
            if key !in host.operations || host.operations[key].state != Running || host.operations[key].worker != Some(fence) ||
               host.live.fence != fence || host.live.expiresAt <= now then
              outcome == StaleWorker && after == host
            else
              var op := host.operations[key];
              if !ActivityBound(host, op) || key in host.activityReceipts || key in host.timeline then
                outcome == Incomplete(Unreconciled) && after == host
              else if exists k <- host.activityReceipts :: host.activityReceipts[k].activity == op.binding.value.activity then
                outcome == Incomplete(HostInvariant) && after == host
              else
                var id := op.binding.value.activity;
                && outcome == Completed && after.timeline == host.timeline + {key}
                && after.activityReceipts == host.activityReceipts[key := ActivityReceipt(id, receipt)]
                && key in after.operations && after.operations == host.operations[key := after.operations[key]]
                && after.operations[key].state == Accepted && after.operations[key].digest == Some(receipt)
                && after.operations[key].worker.None? && after.operations[key].receipt == op.receipt
                && id in after.activities && after.activities == host.activities[id := after.activities[id]]
                && !after.activities[id].scheduled && after.activities[id].revision == host.activities[id].revision + 1
                && after.activities[id].completedBy == host.activities[id].completedBy + [key]
  {
  }

  /**
   A worker's failure is recorded only under its live claim and counts an attempt.  Only an outage met at the first or
   second attempt is tried again, 15 seconds later for each attempt made; everything else ends the operation.
   */
  lemma OnlyEarlyOutagesRetry(host: Host, key: Key, fence: Fence, attempt: nat, code: Code, now: int)
    ensures var after := RecordFailure(host, key, fence, code, Retries(attempt, code), now);
            if key !in host.operations || host.operations[key].state != Running || host.operations[key].worker != Some(fence) ||
               host.live.fence != fence || host.live.expiresAt <= now then after == host
            else
              && key in after.operations && after == host.(operations := host.operations[key := after.operations[key]])
              && var op, end := host.operations[key], after.operations[key];
              && end.attempt == op.attempt + 1 && end.failure == Some(code) && end.worker.None?
              && end.marker == op.marker && end.receipt == op.receipt
              && if code == Outage && attempt < 2 then end.state == Queued && end.nextAttemptAt == now + (op.attempt + 1) * 15_000
                 else end.state == DeadLetter && end.nextAttemptAt == now
  {
  }

  /** A new intent waits for its provider's active configuration, unmarked and unattempted; a known key changes nothing. */
  lemma IntentsAreQueuedOnce(host: Host, key: Key, i: Intent, now: int)
    ensures var after := Dispatch(host, key, i, now);
            if key in host.operations || i.provider !in host.world.configurations then after == host
            else
              && key in after.operations && after == host.(operations := host.operations[key := after.operations[key]])
              && var op := after.operations[key];
              && op.state == Queued && op.attempt == 0 && op.nextAttemptAt == now && op.worker.None?
              && op.marker.None? && op.receipt.None? && op.digest.None?
              && op.configuration == host.world.configurations[i.provider]
              && op.provider == i.provider && op.actor == i.actor && op.related == i.related && op.binding == i.binding
              && op.authority == i.authority
  {
  }

  /**
   A session prepared for the first time calls without looking; one prepared again with no stored receipt looks first, and
   is cleared to call exactly when the provider has not served its key.
   */
  lemma OnlyRepeatedPassesLook(sys: System, sid: nat, which: nat)
    requires sid < |sys.sessions|
    ensures var s, looked := sys.sessions[sid], Apply(sys, ReconcileStep(sid, which));
            && |looked.sessions| == |sys.sessions| && looked.sends == sys.sends && looked.host == sys.host
            && (s.phase != Prepared(true, None) ==> looked == sys)
            && (s.phase == Prepared(true, None) ==>
                  if exists x <- sys.sends :: x.key == s.key then
                    looked.sessions[sid].phase.Received? && Send(s.key, looked.sessions[sid].phase.receipt) in sys.sends
                  else looked.sessions[sid].phase == Cleared)
    ensures var s, called := sys.sessions[sid], Apply(sys, InvokeStep(sid));
            if s.phase == Prepared(false, None) || s.phase == Cleared then
              called.calls == sys.calls[sid := InFlight] && called.host == sys.host && called.sends == sys.sends
            else called == sys
  {
    hide FirstReceipt;
  }

  /** Between two steps authority, configurations, visibility and addresses may become anything, and activities anything but unaudited. */
  lemma OthersAreUnrestricted(sys: System, activities: map<nat, Activity>, timeline: set<Key>, world: World, live: LiveFence)
    ensures var after := Apply(sys, Environment(activities, timeline, world, live)).host;
            && after.world == world && after.timeline == sys.host.timeline + timeline
            && after.operations == sys.host.operations && after.activityReceipts == sys.host.activityReceipts
            && (Succeeds(sys.host.live, live) ==> after.live == live)
            && (forall id <- activities :: id in after.activities &&
                  after.activities[id].scheduled == activities[id].scheduled && after.activities[id].revision == activities[id].revision &&
                  after.activities[id].related == activities[id].related)
  {
  }
}
