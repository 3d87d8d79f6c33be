/** Safety of every run of provider dispatch. */
module ProviderSafety {
  import opened Wrappers
  import opened Fencing
  import opened ProviderModel
  import opened ProviderInvariants

  lemma InitialIsSound(activities: map<nat, Activity>, timeline: set<Key>, world: World, live: LiveFence, honours: bool)
    ensures Sound(Initial(activities, timeline, world, live, honours))
  {
  }

  lemma UnchangedEvolves(sys: System)
    ensures SystemEvolves(sys, sys)
  {
  }

  // ---------- steps of a session ----------

  lemma MovedIsSound(sys: System, sid: nat, phase: Phase)
    requires Sound(sys) && sid < |sys.sessions|
    requires sys.sessions[sid].key in sys.host.operations ==> Allowed(sys, sid, sys.host.operations[sys.sessions[sid].key], phase)
    ensures Sound(Moved(sys, sid, phase)) && SystemEvolves(sys, Moved(sys, sid, phase))
  {
    hide OperationsSound, OneHolder, CallsSound, ContractKept, CompletionsExact, AcceptedReal, Allowed, SystemEvolves;
    assert SessionSound(sys, sys.sessions[sid]);
    var op := sys.host.operations[sys.sessions[sid].key];
    assert sys.host.operations[sys.sessions[sid].key := op] == sys.host.operations;
    TouchedIsSound(sys, sid, op, phase);
  }

  lemma MoveAllowed(sys: System, sid: nat, phase: Phase)
    requires Sound(sys) && sid < |sys.sessions| && (sys.sessions[sid].phase.Closed? ==> phase.Closed?)
    requires PastMarker(phase) ==> PastMarker(sys.sessions[sid].phase)
    requires BeforeCall(phase) ==> BeforeCall(sys.sessions[sid].phase)
    requires phase.Received? ==> Real(sys, sys.sessions[sid].key, phase.receipt)
    requires phase.Kept? || phase.Prepared? ==> phase == sys.sessions[sid].phase
    ensures sys.sessions[sid].key in sys.host.operations && Allowed(sys, sid, sys.host.operations[sys.sessions[sid].key], phase)
  {
    hide OneHolder, CallsSound, ContractKept, CompletionsExact, AcceptedReal;
    assert SessionSound(sys, sys.sessions[sid]);
  }

  lemma PrepareKeeps(sys: System, sid: nat, claim: nat, now: int)
    requires Sound(sys) && sid < |sys.sessions|
    ensures var after := SessionStep(sys, PrepareStep(sid, claim, now)); Sound(after) && SystemEvolves(sys, after)
  {
    UnchangedEvolves(sys);
    hide OneHolder, CallsSound, ContractKept, CompletionsExact, AcceptedReal, SystemEvolves, ActivityOpen, Authorized, RecipientKnown;
    var s := sys.sessions[sid];
    if s.phase.Claimed? {
      assert SessionSound(sys, s);
      var (host, outcome) := Prepare(sys.host, s.key, s.fence, claim, now);
      match outcome
      case Refused(code) =>
        MoveAllowed(sys, sid, Failing(code));
        MovedIsSound(sys, sid, Failing(code));
      case Ready(before, stored) =>
        TouchedIsSound(sys, sid, host.operations[s.key], Prepared(before, stored));
    }
  }

  lemma KeepKeeps(sys: System, sid: nat)
    requires Sound(sys) && sid < |sys.sessions|
    ensures var after := SessionStep(sys, KeepStep(sid)); Sound(after) && SystemEvolves(sys, after)
  {
    UnchangedEvolves(sys);
    hide OneHolder, CallsSound, ContractKept, CompletionsExact, AcceptedReal, SystemEvolves;
    var s := sys.sessions[sid];
    if s.phase.Received? {
      assert SessionSound(sys, s);
      var (host, kept) := Keep(sys.host, s.key, s.phase.receipt);
      if kept {
        TouchedIsSound(sys, sid, host.operations[s.key], Kept(s.phase.receipt));
      } else {
        MoveAllowed(sys, sid, Failing(HostInvariant));
        MovedIsSound(sys, sid, Failing(HostInvariant));
      }
    }
  }

  lemma FailKeeps(sys: System, sid: nat, now: int)
    requires Sound(sys) && sid < |sys.sessions|
    ensures var after := SessionStep(sys, FailStep(sid, now)); Sound(after) && SystemEvolves(sys, after)
  {
    UnchangedEvolves(sys);
    hide OneHolder, CallsSound, ContractKept, CompletionsExact, AcceptedReal, SystemEvolves;
    var s := sys.sessions[sid];
    if s.phase.Failing? {
      assert SessionSound(sys, s);
      if Held(sys.host, s.key, s.fence) && IsLive(sys.host.live, s.fence, now) {
        var host := RecordFailure(sys.host, s.key, s.fence, s.phase.code, Retries(s.attempt, s.phase.code), now);
        TouchedIsSound(sys, sid, host.operations[s.key], Closed);
      } else {
        MoveAllowed(sys, sid, Closed);
        MovedIsSound(sys, sid, Closed);
      }
    }
  }

  // ---------- completion ----------

  lemma CompleteKeeps(sys: System, sid: nat, now: int)
    requires Sound(sys) && sid < |sys.sessions|
    ensures var after := SessionStep(sys, CompleteStep(sid, now)); Sound(after) && SystemEvolves(sys, after)
  {
    UnchangedEvolves(sys);
    hide OneHolder, CallsSound, ContractKept, CompletionsExact, AcceptedReal, SystemEvolves, CompleteWrites;
    var s := sys.sessions[sid];
    if s.phase.Kept? {
      assert SessionSound(sys, s);
      var (host, outcome) := Complete(sys.host, s.key, s.fence, s.phase.receipt, now);
      if outcome.Completed? {
        CompletedIsSound(sys, sid, now);
      } else {
        var phase := if outcome.Incomplete? then Failing(outcome.code) else Closed;
        MoveAllowed(sys, sid, phase);
        MovedIsSound(sys, sid, phase);
      }
    }
  }

  /** The commit a completion makes, when all its guards held. */
  ghost predicate MayComplete(sys: System, sid: nat) {
    && sid < |sys.sessions|
    && var s := sys.sessions[sid];
    && s.phase.Kept? && Held(sys.host, s.key, s.fence) && s.fence == sys.host.live.fence
    && ActivityOpen(sys.host, sys.host.operations[s.key])
    && s.key !in sys.host.activityReceipts
    && !ActivityUsed(sys.host, sys.host.operations[s.key].binding.value.activity)
  }

  function AfterCompletion(sys: System, sid: nat): System
    requires MayComplete(sys, sid)
  {
    Moved(sys.(host := CompleteWrites(sys.host, sys.sessions[sid].key, sys.sessions[sid].phase.receipt)), sid, Closed)
  }

  lemma CompletedIsSound(sys: System, sid: nat, now: int)
    requires Sound(sys) && MayComplete(sys, sid)
    ensures Sound(AfterCompletion(sys, sid)) && SystemEvolves(sys, AfterCompletion(sys, sid))
  {
    hide CompletionsExact, AcceptedReal, SessionSound, OneHolder, CompleteWrites;
    CompletedOperations(sys, sid);
    CompletedSessions(sys, sid);
    CompletedHolders(sys, sid);
    CompletedCalls(sys, sid);
    CompletedReceipts(sys, sid);
    CompletedEvolves(sys, sid);
  }

  lemma CompletedOperations(sys: System, sid: nat)
    requires OperationsSound(sys) && SessionsSound(sys) && MayComplete(sys, sid)
    ensures OperationsSound(AfterCompletion(sys, sid))
    ensures AfterCompletion(sys, sid).sends == sys.sends && AfterCompletion(sys, sid).honours == sys.honours
  {
    assert SessionSound(sys, sys.sessions[sid]);
  }

  lemma CompletedSessions(sys: System, sid: nat)
    requires SessionsSound(sys) && OneHolder(sys) && MayComplete(sys, sid)
    ensures SessionsSound(AfterCompletion(sys, sid))
  {
    var after := AfterCompletion(sys, sid);
    forall other | 0 <= other < |after.sessions| ensures SessionSound(after, after.sessions[other]) {
      assert SessionSound(sys, sys.sessions[other]) && Holder(sys, sid);
      if other != sid && Holder(sys, other) {
        assert sys.sessions[other].key != sys.sessions[sid].key;
      }
    }
  }

  lemma CompletedHolders(sys: System, sid: nat)
    requires OneHolder(sys) && MayComplete(sys, sid)
    ensures OneHolder(AfterCompletion(sys, sid))
  {
    var after := AfterCompletion(sys, sid);
    forall a, b | 0 <= a < b < |after.sessions| && Holder(after, a) && Holder(after, b)
      ensures after.sessions[a].key != after.sessions[b].key
    {
      assert Holder(sys, a) && Holder(sys, b);
    }
  }

  lemma CompletedCalls(sys: System, sid: nat)
    requires CallsSound(sys) && MayComplete(sys, sid)
    ensures CallsSound(AfterCompletion(sys, sid))
  {
    forall key | Marked(sys.host, key) ensures Marked(AfterCompletion(sys, sid).host, key) {}
  }

  lemma CompletedReceipts(sys: System, sid: nat)
    requires SessionsSound(sys) && CompletionsExact(sys.host) && AcceptedReal(sys) && MayComplete(sys, sid)
    ensures CompletionsExact(AfterCompletion(sys, sid).host) && AcceptedReal(AfterCompletion(sys, sid))
  {
    hide SessionsSound, ActivityUsed, CompletionsExact, ReceiptExact, CompletedOnce;
    var key := sys.sessions[sid].key;
    assert Real(sys, key, sys.sessions[sid].phase.receipt) by { SessionIsSound(sys, sid); }
    UnusedIsUncompleted(sys.host, sys.host.operations[key].binding.value.activity);
    CompletedStates(sys.host, key, sys.sessions[sid].phase.receipt);
    CompletedReceiptTable(sys.host, key, sys.sessions[sid].phase.receipt);
    CompletedActivities(sys.host, key, sys.sessions[sid].phase.receipt);
    ExactFromTables(AfterCompletion(sys, sid).host);
  }

  lemma ExactFromTables(host: Host)
    requires AcceptedHaveReceipts(host) && (forall k <- host.activityReceipts :: ReceiptExact(host, k))
    requires forall a <- host.activities :: CompletedOnce(host, a)
    ensures CompletionsExact(host)
  {
  }

  lemma CompletedStates(host: Host, key: Key, receipt: ReceiptId)
    requires CompletionsExact(host) && key in host.operations && ActivityOpen(host, host.operations[key])
    ensures AcceptedHaveReceipts(CompleteWrites(host, key, receipt))
  {
    hide ReceiptExact, CompletedOnce;
  }

  lemma CompletedReceiptTable(host: Host, key: Key, receipt: ReceiptId)
    requires CompletionsExact(host) && key in host.operations && ActivityOpen(host, host.operations[key])
    requires var id := host.operations[key].binding.value.activity;
             host.activities[id].completedBy == [] && forall k <- host.activityReceipts :: host.activityReceipts[k].activity != id
    ensures var after := CompleteWrites(host, key, receipt); forall k <- after.activityReceipts :: ReceiptExact(after, k)
  {
    hide CompletedOnce, AcceptedHaveReceipts;
    var after := CompleteWrites(host, key, receipt);
    forall k <- after.activityReceipts ensures ReceiptExact(after, k) {
      if k != key { assert ReceiptExact(host, k); }
    }
  }

  lemma CompletedActivities(host: Host, key: Key, receipt: ReceiptId)
    requires CompletionsExact(host) && key in host.operations && ActivityOpen(host, host.operations[key])
    requires key !in host.activityReceipts && host.activities[host.operations[key].binding.value.activity].completedBy == []
    ensures var after := CompleteWrites(host, key, receipt); forall a <- after.activities :: CompletedOnce(after, a)
  {
    hide ReceiptExact, AcceptedHaveReceipts;
    var after := CompleteWrites(host, key, receipt);
    forall a <- after.activities ensures CompletedOnce(after, a) { assert CompletedOnce(host, a); }
  }

  lemma UnusedIsUncompleted(host: Host, id: nat)
    requires CompletionsExact(host) && id in host.activities && !ActivityUsed(host, id)
    ensures host.activities[id].completedBy == []
    ensures forall k <- host.activityReceipts :: host.activityReceipts[k].activity != id
  {
    assert CompletedOnce(host, id);
  }

  lemma SessionIsSound(sys: System, sid: nat)
    requires SessionsSound(sys) && sid < |sys.sessions|
    ensures SessionSound(sys, sys.sessions[sid])
  {
  }

  lemma CompletedEvolves(sys: System, sid: nat)
    requires SessionsSound(sys) && MayComplete(sys, sid)
    ensures SystemEvolves(sys, AfterCompletion(sys, sid))
  {
    SessionIsSound(sys, sid);
  }

  // ---------- the network ----------

  /** Call `sid` becomes `call`, and the provider may serve its key. */
  lemma CallChanges(sys: System, after: System, sid: nat, call: Call)
    requires Sound(sys) && sid < |sys.sessions| && Marked(sys.host, sys.sessions[sid].key)
    requires !BeforeCall(sys.sessions[sid].phase) && sys.sends <= after.sends
    requires after == sys.(calls := sys.calls[sid := call], sends := after.sends)
    requires forall s <- after.sends :: s in sys.sends || s.key == sys.sessions[sid].key
    requires call.Answered? ==> Real(after, sys.sessions[sid].key, call.receipt)
    requires ContractKept(after)
    ensures Sound(after) && SystemEvolves(sys, after)
  {
    hide SessionsSound, OneHolder, CallsSound, ContractKept, CompletionsExact;
    RealStays(sys, after);
    CallsAfter(sys, after, sid, call);
    FrameHolders(sys, after);
    SessionsAfter(sys, after, sid);
  }

  lemma SessionsAfter(sys: System, after: System, sid: nat)
    requires SessionsSound(sys) && sid < |sys.sessions| && !BeforeCall(sys.sessions[sid].phase) && sys.sends <= after.sends
    requires after == sys.(calls := after.calls, sends := after.sends)
    requires after.calls.Keys <= sys.calls.Keys + {sid}
    ensures SessionsSound(after)
  {
    RealStays(sys, after);
    forall other | 0 <= other < |after.sessions| ensures SessionSound(after, after.sessions[other]) {
      SessionIsSound(sys, other);
    }
  }

  lemma RealStays(sys: System, after: System)
    requires sys.sends <= after.sends
    ensures forall key, r | Real(sys, key, r) :: Real(after, key, r)
  {
    forall key, r | Real(sys, key, r) ensures Real(after, key, r) {
      var i :| 0 <= i < |sys.sends| && sys.sends[i] == Send(key, r);
      assert after.sends[i] == Send(key, r);
    }
  }

  lemma CallsAfter(sys: System, after: System, sid: nat, call: Call)
    requires CallsSound(sys) && sid < |sys.sessions| && Marked(sys.host, sys.sessions[sid].key) && sys.sends <= after.sends
    requires after == sys.(calls := sys.calls[sid := call], sends := after.sends)
    requires forall s <- after.sends :: s in sys.sends || s.key == sys.sessions[sid].key
    requires call.Answered? ==> Real(after, sys.sessions[sid].key, call.receipt)
    ensures CallsSound(after)
  {
    RealStays(sys, after);
  }

  lemma InvokeKeeps(sys: System, sid: nat)
    requires Sound(sys) && sid < |sys.sessions|
    ensures var after := SessionStep(sys, InvokeStep(sid)); Sound(after) && SystemEvolves(sys, after)
  {
    UnchangedEvolves(sys);
    var s := sys.sessions[sid];
    if s.phase == Prepared(false, None) || s.phase.Cleared? {
      SessionIsSound(sys, sid);
      MoveAllowed(sys, sid, Calling);
      MovedIsSound(sys, sid, Calling);
      var moved := Moved(sys, sid, Calling);
      var after := moved.(calls := moved.calls[sid := InFlight]);
      CallChanges(moved, after, sid, InFlight);
      hide Sound, SystemEvolves;
      EvolvesTrans(sys, moved, after);
      assert after == SessionStep(sys, InvokeStep(sid));
    }
  }

  lemma DeliverKeeps(sys: System, sid: nat, receipt: ReceiptId)
    requires Sound(sys)
    ensures var after := Delivered(sys, sid, receipt); Sound(after) && SystemEvolves(sys, after)
  {
    UnchangedEvolves(sys);
    if sid < |sys.sessions| && sid in sys.calls && sys.calls[sid].InFlight? {
      var key := sys.sessions[sid].key;
      var known := FirstReceipt(sys.sends, key);
      var after := Delivered(sys, sid, receipt);
      if !(sys.honours && known.Some?) {
        OneSendMore(sys.sends, Send(key, receipt));
        assert Send(key, receipt) in after.sends;
      }
      CallChanges(sys, after, sid, after.calls[sid]);
    }
  }

  lemma OneSendMore(sends: seq<Send>, s: Send)
    ensures OneSendEach(sends) && (forall t <- sends :: t.key != s.key) ==> OneSendEach(sends + [s])
  {
  }

  lemma LoseKeeps(sys: System, sid: nat)
    requires Sound(sys)
    ensures var after := Apply(sys, LoseStep(sid)); Sound(after) && SystemEvolves(sys, after)
  {
    UnchangedEvolves(sys);
    if sid in sys.calls && sys.calls[sid].InFlight? {
      CallChanges(sys, Apply(sys, LoseStep(sid)), sid, Lost);
    }
  }

  lemma SimpleKeeps(sys: System, step: Step)
    requires Sound(sys) && (step.ReuseStep? || step.ReconcileStep? || step.ReceiveStep? || step.RaiseStep? || step.CrashStep?)
    requires step.sid < |sys.sessions|
    ensures var after := SessionStep(sys, step); Sound(after) && SystemEvolves(sys, after)
  {
    hide SystemEvolves, OneHolder, OperationsSound, CompletionsExact, AcceptedReal, ContractKept;
    UnchangedEvolves(sys);
    var sid := step.sid;
    SessionIsSound(sys, sid);
    var after := SessionStep(sys, step);
    if after != sys {
      var phase := after.sessions[sid].phase;
      assert step.ReceiveStep? ==> Real(sys, sys.sessions[sid].key, phase.receipt);
      MoveAllowed(sys, sid, phase);
      MovedIsSound(sys, sid, phase);
    }
  }

  // ---------- claims, new operations and everyone else ----------

  lemma DispatchKeeps(sys: System, key: Key, intent: Intent, now: int)
    requires Sound(sys)
    ensures var after := Apply(sys, DispatchStep(key, intent, now)); Sound(after) && SystemEvolves(sys, after)
  {
    UnchangedEvolves(sys);
    var after := Apply(sys, DispatchStep(key, intent, now));
    if after != sys {
      hide SystemEvolves, OperationsSound, CallsSound, ContractKept, SessionsSound, OneHolder, CompletionsExact, AcceptedReal;
      assert key !in sys.host.operations && after.host.operations == sys.host.operations[key := after.host.operations[key]];
      DispatchTables(sys, after, key);
      DispatchSessions(sys, after, key);
      FrameHolders(sys, after);
      DispatchReceipts(sys, after, key);
    }
  }

  lemma DispatchTables(sys: System, after: System, key: Key)
    requires OperationsSound(sys) && CallsSound(sys) && ContractKept(sys) && key !in sys.host.operations
    requires after == sys.(host := sys.host.(operations := after.host.operations))
    requires key in after.host.operations && after.host.operations == sys.host.operations[key := after.host.operations[key]]
    requires OperationSound(after.host.operations[key], after.host.live) && after.host.operations[key].receipt.None?
    ensures OperationsSound(after) && CallsSound(after) && ContractKept(after) && SystemEvolves(sys, after)
  {
    forall k | Marked(sys.host, k) ensures Marked(after.host, k) {}
  }

  lemma DispatchSessions(sys: System, after: System, key: Key)
    requires SessionsSound(sys) && key !in sys.host.operations
    requires after == sys.(host := sys.host.(operations := after.host.operations))
    requires key in after.host.operations && after.host.operations == sys.host.operations[key := after.host.operations[key]]
    ensures SessionsSound(after)
  {
    forall sid | 0 <= sid < |after.sessions| ensures SessionSound(after, after.sessions[sid]) {
      SessionIsSound(sys, sid);
    }
  }

  lemma DispatchReceipts(sys: System, after: System, key: Key)
    requires CompletionsExact(sys.host) && AcceptedReal(sys) && key !in sys.host.operations
    requires after == sys.(host := sys.host.(operations := after.host.operations))
    requires key in after.host.operations && after.host.operations == sys.host.operations[key := after.host.operations[key]]
    requires after.host.operations[key].state == Queued
    ensures CompletionsExact(after.host) && AcceptedReal(after)
  {
    forall k <- sys.host.activityReceipts ensures k in sys.host.operations { assert ReceiptExact(sys.host, k); }
    forall k <- after.host.activityReceipts ensures ReceiptExact(after.host, k) { assert ReceiptExact(sys.host, k); }
    forall a <- after.host.activities ensures CompletedOnce(after.host, a) { assert CompletedOnce(sys.host, a); }
  }

  lemma FrameHolders(sys: System, after: System)
    requires OneHolder(sys) && after.sessions == sys.sessions
    requires after.host.live.fence == sys.host.live.fence
    ensures OneHolder(after)
  {
    forall a, b | 0 <= a < b < |after.sessions| && Holder(after, a) && Holder(after, b)
      ensures after.sessions[a].key != after.sessions[b].key
    {
      assert Holder(sys, a) && Holder(sys, b);
    }
  }

  lemma DisturbanceKeeps(sys: System, activities: map<nat, Activity>, timeline: set<Key>, world: World, live: LiveFence)
    requires Sound(sys)
    ensures var after := Apply(sys, Environment(activities, timeline, world, live)); Sound(after) && SystemEvolves(sys, after)
  {
    hide SessionsSound, OneHolder, CompletionsExact, OperationsSound;
    var after := Apply(sys, Environment(activities, timeline, world, live));
    DisturbedSessions(sys, after);
    DisturbedOperations(sys, after);
    DisturbedCompletions(sys.host, after.host, activities);
  }

  lemma DisturbedOperations(sys: System, after: System)
    requires OperationsSound(sys) && Succeeds(sys.host.live, after.host.live)
    requires after.sends == sys.sends && after.host.operations == sys.host.operations
    ensures OperationsSound(after)
  {
  }

  lemma DisturbedSessions(sys: System, after: System)
    requires SessionsSound(sys) && OneHolder(sys) && Succeeds(sys.host.live, after.host.live)
    requires after.sessions == sys.sessions && after.calls == sys.calls && after.sends == sys.sends
    requires after.host.operations == sys.host.operations
    ensures SessionsSound(after) && OneHolder(after)
  {
    forall sid | 0 <= sid < |after.sessions| ensures SessionSound(after, after.sessions[sid]) {
      SessionIsSound(sys, sid);
      SupersededForGood(sys.sessions[sid].fence, sys.host.live, after.host.live);
    }
    forall a, b | 0 <= a < b < |after.sessions| && Holder(after, a) && Holder(after, b)
      ensures after.sessions[a].key != after.sessions[b].key
    {
      SessionIsSound(sys, a);
      SupersededForGood(sys.sessions[a].fence, sys.host.live, after.host.live);
      assert Holder(sys, a) && Holder(sys, b);
    }
  }

  lemma DisturbedCompletions(host: Host, after: Host, activities: map<nat, Activity>)
    requires CompletionsExact(host)
    requires after.operations == host.operations && after.activityReceipts == host.activityReceipts
    requires after.activities.Keys == host.activities.Keys + activities.Keys
    requires forall a <- after.activities ::
               after.activities[a].completedBy == if a in host.activities then host.activities[a].completedBy else []
    ensures CompletionsExact(after)
  {
    forall k <- after.activityReceipts ensures ReceiptExact(after, k) { assert ReceiptExact(host, k); }
    forall a <- after.activities ensures CompletedOnce(after, a) {
      if a in host.activities { assert CompletedOnce(host, a); }
    }
  }

  // ---------- a claim batch, one operation at a time ----------

  /** The tables after one claim, with the session the worker opens for it. */
  function AfterClaim(sys: System, key: Key, fence: Fence): System
    requires key in sys.host.operations
  {
    var host := ClaimOne(sys.host, key, fence);
    sys.(host := host, sessions := sys.sessions + [Session(key, fence, host.operations[key].attempt, Claimed)])
  }

  lemma ClaimOneKeeps(sys: System, key: Key, fence: Fence, now: int)
    requires Sound(sys) && Claimable(sys.host, key, now) && IsLive(sys.host.live, fence, now)
    ensures Sound(AfterClaim(sys, key, fence)) && SystemEvolves(sys, AfterClaim(sys, key, fence))
  {
    var after := AfterClaim(sys, key, fence);
    assert OperationSound(sys.host.operations[key], sys.host.live);
    NobodyHolds(sys, key, now);
    ClaimedSessions(sys, key, fence, now);
    ClaimedTables(sys, key, fence, now);
  }

  lemma NobodyHolds(sys: System, key: Key, now: int)
    requires Sound(sys) && Claimable(sys.host, key, now) && sys.host.live.expiresAt > now
    ensures forall sid :: 0 <= sid < |sys.sessions| && Holder(sys, sid) ==> sys.sessions[sid].key != key
  {
    hide CallsSound, CompletionsExact, AcceptedReal, OneHolder;
    forall sid | 0 <= sid < |sys.sessions| && Holder(sys, sid) ensures sys.sessions[sid].key != key {
      SessionIsSound(sys, sid);
      assert OperationSound(sys.host.operations[key], sys.host.live);
    }
  }

  lemma ClaimedSessions(sys: System, key: Key, fence: Fence, now: int)
    requires SessionsSound(sys) && OneHolder(sys) && CallsSound(sys)
    requires key in sys.host.operations && sys.host.live.fence == fence
    requires forall sid :: 0 <= sid < |sys.sessions| && Holder(sys, sid) ==> sys.sessions[sid].key != key
    ensures SessionsSound(AfterClaim(sys, key, fence)) && OneHolder(AfterClaim(sys, key, fence))
  {
    var after := AfterClaim(sys, key, fence);
    forall sid | 0 <= sid < |after.sessions| ensures SessionSound(after, after.sessions[sid]) {
      if sid < |sys.sessions| {
        SessionIsSound(sys, sid);
        if Holder(sys, sid) { assert sys.sessions[sid].key != key; }
      }
    }
    forall a, b | 0 <= a < b < |after.sessions| && Holder(after, a) && Holder(after, b)
      ensures after.sessions[a].key != after.sessions[b].key
    {
      assert Holder(sys, a);
      if b < |sys.sessions| { assert Holder(sys, b); }
    }
  }

  lemma ClaimedTables(sys: System, key: Key, fence: Fence, now: int)
    requires OperationsSound(sys) && CallsSound(sys) && ContractKept(sys) && CompletionsExact(sys.host) && AcceptedReal(sys)
    requires key in sys.host.operations && !Settled(sys.host.operations[key]) && sys.host.live.fence == fence
    ensures var after := AfterClaim(sys, key, fence);
            && OperationsSound(after) && CallsSound(after) && ContractKept(after)
            && CompletionsExact(after.host) && AcceptedReal(after) && SystemEvolves(sys, after)
  {
    hide CompletionsExact, OperationsSound;
    var after := AfterClaim(sys, key, fence);
    ClaimedOperations(sys, key, fence);
    ClaimedCompletions(sys.host, key, fence);
    forall k | Marked(sys.host, k) ensures Marked(after.host, k) {}
  }

  lemma ClaimedOperations(sys: System, key: Key, fence: Fence)
    requires OperationsSound(sys)
    requires key in sys.host.operations && !Settled(sys.host.operations[key]) && sys.host.live.fence == fence
    ensures OperationsSound(AfterClaim(sys, key, fence))
  {
    assert OperationSound(sys.host.operations[key], sys.host.live);
  }

  lemma ClaimedCompletions(host: Host, key: Key, fence: Fence)
    requires CompletionsExact(host) && key in host.operations && !Settled(host.operations[key])
    ensures CompletionsExact(ClaimOne(host, key, fence))
  {
    var after := ClaimOne(host, key, fence);
    forall k <- after.activityReceipts ensures ReceiptExact(after, k) { assert ReceiptExact(host, k); }
    forall a <- after.activities ensures CompletedOnce(after, a) { assert CompletedOnce(host, a); }
  }

  lemma {:induction false} ClaimEachKeeps(sys: System, order: seq<Key>, limit: nat, fence: Fence, now: int)
    requires Sound(sys) && IsLive(sys.host.live, fence, now)
    ensures var claims := ClaimEach(sys.host, order, limit, fence, now);
            var after := sys.(host := claims.host, sessions := sys.sessions + Opened(claims.host, claims.keys, fence));
            Sound(after) && SystemEvolves(sys, after)
    decreases |order|
  {
    hide Sound, SystemEvolves, Claimable;
    if order == [] || limit == 0 || !Claimable(sys.host, order[0], now) {
      UnchangedEvolves(sys);
      if order == [] || limit == 0 {
        assert sys.sessions + Opened(sys.host, [], fence) == sys.sessions;
      } else {
        ClaimEachKeeps(sys, order[1..], limit, fence, now);
      }
    } else {
      var key := order[0];
      assert key in sys.host.operations by { ClaimableExists(sys.host, key, now); }
      var one := AfterClaim(sys, key, fence);
      ClaimOneKeeps(sys, key, fence, now);
      ClaimEachKeeps(one, order[1..], limit - 1, fence, now);
      var rest := ClaimEach(one.host, order[1..], limit - 1, fence, now);
      ClaimKeepsAttempts(one.host, order[1..], limit - 1, fence, now, key);
      var after := sys.(host := rest.host, sessions := sys.sessions + Opened(rest.host, [key] + rest.keys, fence));
      assert after.sessions == one.sessions + Opened(rest.host, rest.keys, fence);
      EvolvesTrans(sys, one, after);
    }
  }

  lemma ClaimableExists(host: Host, key: Key, now: int)
    requires Claimable(host, key, now)
    ensures key in host.operations
  {
  }

  lemma {:induction false} ClaimKeepsAttempts(host: Host, order: seq<Key>, limit: nat, fence: Fence, now: int, key: Key)
    requires key in host.operations
    ensures var after := ClaimEach(host, order, limit, fence, now).host;
            key in after.operations && after.operations[key].attempt == host.operations[key].attempt
    decreases |order|
  {
    hide Claimable;
    if order != [] && limit != 0 {
      if Claimable(host, order[0], now) {
        ClaimableExists(host, order[0], now);
        ClaimKeepsAttempts(ClaimOne(host, order[0], fence), order[1..], limit - 1, fence, now, key);
      } else {
        ClaimKeepsAttempts(host, order[1..], limit, fence, now, key);
      }
    }
  }

  // ---------- runs ----------

  lemma StepKeeps(sys: System, step: Step)
    requires Sound(sys)
    ensures Sound(Apply(sys, step)) && SystemEvolves(sys, Apply(sys, step))
  {
    UnchangedEvolves(sys);
    hide Sound, SystemEvolves, SessionStep, Delivered, Dispatch;
    match step
    case DispatchStep(key, intent, now) => DispatchKeeps(sys, key, intent, now);
    case ClaimStep(fence, order, now) =>
      if IsLive(sys.host.live, fence, now) {
        ClaimEachKeeps(sys, order, CLAIM_LIMIT, fence, now);
      } else {
        assert sys.sessions + Opened(sys.host, [], fence) == sys.sessions;
      }
    case Environment(activities, timeline, world, live) => DisturbanceKeeps(sys, activities, timeline, world, live);
    case DeliverStep(sid, receipt) => DeliverKeeps(sys, sid, receipt);
    case LoseStep(sid) => LoseKeeps(sys, sid);
    case _ => if step.sid < |sys.sessions| { SessionKeeps(sys, step); }
  }

  lemma SessionKeeps(sys: System, step: Step)
    requires Sound(sys)
    requires !step.DispatchStep? && !step.ClaimStep? && !step.Environment? && !step.DeliverStep? && !step.LoseStep?
    requires step.sid < |sys.sessions|
    ensures Sound(SessionStep(sys, step)) && SystemEvolves(sys, SessionStep(sys, step))
  {
    hide Sound, SystemEvolves, SessionStep;
    match step
    case PrepareStep(sid, claim, now) => PrepareKeeps(sys, sid, claim, now);
    case InvokeStep(sid) => InvokeKeeps(sys, sid);
    case KeepStep(sid) => KeepKeeps(sys, sid);
    case CompleteStep(sid, now) => CompleteKeeps(sys, sid, now);
    case FailStep(sid, now) => FailKeeps(sys, sid, now);
    case _ => SimpleKeeps(sys, step);
  }

  lemma {:induction false} RunKeeps(sys: System, steps: seq<Step>)
    requires Sound(sys)
    ensures Sound(Run(sys, steps)) && SystemEvolves(sys, Run(sys, steps))
    decreases |steps|
  {
    hide Sound, SystemEvolves, Apply;
    UnchangedEvolves(sys);
    if steps != [] {
      var n := |steps| - 1;
      RunKeeps(sys, steps[..n]);
      StepKeeps(Run(sys, steps[..n]), steps[n]);
      EvolvesTrans(sys, Run(sys, steps[..n]), Run(sys, steps));
    }
  }
}
