/** What provider dispatch promises over whole runs: at most one send, truthful receipts, bounded retries. */
module ProviderTheorems {
  import opened Wrappers
  import opened Fencing
  import opened ProviderModel
  import opened ProviderInvariants
  import opened ProviderSafety

  /** A start with no operation, any activities, business records and owner, and a provider that may break its contract. */
  datatype Start = Start(activities: map<nat, Activity>, timeline: set<Key>, world: World, live: LiveFence, honours: bool)

  function Reached(start: Start, steps: seq<Step>): System {
    Run(Initial(start.activities, start.timeline, start.world, start.live, start.honours), steps)
  }

  lemma ReachedIsSound(start: Start, steps: seq<Step>)
    ensures Sound(Reached(start, steps)) && Reached(start, steps).honours == start.honours
  {
    var first := Initial(start.activities, start.timeline, start.world, start.live, start.honours);
    InitialIsSound(start.activities, start.timeline, start.world, start.live, start.honours);
    RunKeeps(first, steps);
    hide Sound, Run;
    assert SystemEvolves(first, Run(first, steps));
  }

  function SendCount(sends: seq<Send>, key: Key): nat
    decreases |sends|
  {
    if sends == [] then 0 else SendCount(sends[1..], key) + if sends[0].key == key then 1 else 0
  }

  lemma {:induction false} UnsentCountsZero(sends: seq<Send>, key: Key)
    requires forall s <- sends :: s.key != key
    ensures SendCount(sends, key) == 0
    decreases |sends|
  {
    if sends != [] { UnsentCountsZero(sends[1..], key); }
  }

  lemma {:induction false} OneSendCounts(sends: seq<Send>, key: Key)
    requires OneSendEach(sends)
    ensures SendCount(sends, key) == if exists s <- sends :: s.key == key then 1 else 0
    decreases |sends|
  {
    if sends != [] {
      assert sends == [sends[0]] + sends[1..];
      if sends[0].key == key {
        forall s <- sends[1..] ensures s.key != key {
          var j :| 0 <= j < |sends[1..]| && sends[1..][j] == s;
          assert sends[j + 1] == s;
        }
        UnsentCountsZero(sends[1..], key);
        assert sends[0] in sends;
      } else {
        OneSendCounts(sends[1..], key);
      }
    }
  }

  /** No call is made and no effect happens unless the dispatch marker is already committed. */
  lemma MarkerPrecedesEffect(start: Start, steps: seq<Step>, sid: nat)
    ensures var sys := Reached(start, steps);
            && (sid in sys.calls ==> sid < |sys.sessions| && Marked(sys.host, sys.sessions[sid].key))
            && (forall s <- sys.sends :: Marked(sys.host, s.key))
  {
    ReachedIsSound(start, steps);
  }

  /** Whatever happens later, a committed marker or receipt is the one that was first written. */
  lemma EvidenceIsWrittenOnce(start: Start, early: seq<Step>, late: seq<Step>, key: Key)
    requires key in Reached(start, early).host.operations
    ensures var a := Reached(start, early).host;
            var b := Run(Reached(start, early), late).host;
            && key in b.operations
            && (a.operations[key].marker.Some? ==> b.operations[key].marker == a.operations[key].marker)
            && (a.operations[key].receipt.Some? ==> b.operations[key].receipt == a.operations[key].receipt)
            && (a.operations[key].state == Accepted || a.operations[key].state == DeadLetter ==> b.operations[key] == a.operations[key])
            && (key in a.activityReceipts ==> key in b.activityReceipts && b.activityReceipts[key] == a.activityReceipts[key])
  {
    ReachedIsSound(start, early);
    RunKeeps(Reached(start, early), late);
    hide Sound;
  }

  /** When the provider served a key at most once, every receipt anyone holds for it is that one. */
  lemma OneSendOneReceipt(sys: System, key: Key, a: ReceiptId, b: ReceiptId)
    requires OneSendEach(sys.sends) && Real(sys, key, a) && Real(sys, key, b)
    ensures a == b
  {
    var i :| 0 <= i < |sys.sends| && sys.sends[i] == Send(key, a);
    var j :| 0 <= j < |sys.sends| && sys.sends[j] == Send(key, b);
  }

  /**
   What acceptance means: the effect happened, the stored receipt is one the provider issued for the key, and the bound
   activity was completed by this operation and by no other, once.
   */
  ghost predicate Delivered(sys: System, key: Key) {
    key in sys.host.operations && key in sys.host.activityReceipts &&
    var op, r := sys.host.operations[key], sys.host.activityReceipts[key];
    && op.receipt.Some? && Real(sys, key, op.receipt.value) && Real(sys, key, r.receipt) && op.digest == Some(r.receipt)
    && op.binding.Some? && op.binding.value.activity == r.activity
    && r.activity in sys.host.activities && sys.host.activities[r.activity].completedBy == [key]
    && SendCount(sys.sends, key) >= 1
  }

  lemma AcceptedMeansDelivered(start: Start, steps: seq<Step>, key: Key)
    requires key in Reached(start, steps).host.operations
    ensures var sys := Reached(start, steps);
            sys.host.operations[key].state == Accepted <==> Delivered(sys, key)
  {
    ReachedIsSound(start, steps);
    hide Reached, SessionsSound, OneHolder, CallsSound;
    var sys := Reached(start, steps);
    if sys.host.operations[key].state == Accepted {
      assert ReceiptExact(sys.host, key) && OperationSound(sys.host.operations[key], sys.host.live);
      var s := Send(key, sys.host.activityReceipts[key].receipt);
      assert s in sys.sends;
      SentCounts(sys.sends, key);
    }
  }

  lemma {:induction false} SentCounts(sends: seq<Send>, key: Key)
    requires exists s <- sends :: s.key == key
    ensures SendCount(sends, key) >= 1
    decreases |sends|
  {
    assert sends == [sends[0]] + sends[1..];
    if sends[0].key != key { SentCounts(sends[1..], key); }
  }

  /** At most one effect, and one receipt for it in every place it is recorded. */
  ghost predicate AtMostOnce(sys: System, key: Key) {
    && SendCount(sys.sends, key) <= 1
    && (key in sys.host.operations && sys.host.operations[key].state == Accepted ==>
          SendCount(sys.sends, key) == 1 && key in sys.host.activityReceipts &&
          sys.host.operations[key].receipt == Some(sys.host.activityReceipts[key].receipt))
  }

  lemma OneSendIsAtMostOnce(start: Start, steps: seq<Step>, key: Key)
    requires OneSendEach(Reached(start, steps).sends)
    ensures AtMostOnce(Reached(start, steps), key)
  {
    ReachedIsSound(start, steps);
    var sys := Reached(start, steps);
    OneSendCounts(sys.sends, key);
    if key in sys.host.operations && sys.host.operations[key].state == Accepted {
      AcceptedMeansDelivered(start, steps, key);
      OneSendOneReceipt(sys, key, sys.host.operations[key].receipt.value, sys.host.activityReceipts[key].receipt);
    }
  }

  /** With a provider that keeps its key-scoped contract there is at most one effect, however calls overlap. */
  lemma ContractGivesAtMostOnce(start: Start, steps: seq<Step>, key: Key)
    requires start.honours
    ensures AtMostOnce(Reached(start, steps), key)
  {
    ReachedIsSound(start, steps);
    OneSendIsAtMostOnce(start, steps, key);
  }

  // ---------- without overlapping calls ----------

  /** A session between its marker and the end of its call, or a call still on its way. */
  predicate Open(sys: System, sid: nat) {
    sid < |sys.sessions| &&
    (sys.sessions[sid].phase.Prepared? || sys.sessions[sid].phase.Cleared? || sys.sessions[sid].phase.Calling? ||
     (sid in sys.calls && sys.calls[sid].InFlight?))
  }

  /** A session that may yet cause an effect. */
  predicate Armed(sys: System, sid: nat) {
    sid < |sys.sessions| &&
    (sys.sessions[sid].phase == Prepared(false, None) || sys.sessions[sid].phase.Cleared? ||
     (sid in sys.calls && sys.calls[sid].InFlight?))
  }

  /** A worker prepares an operation only when no other call for it is open. */
  predicate Exclusive(sys: System, step: Step) {
    step.PrepareStep? && step.sid < |sys.sessions| ==>
      forall other: nat :: other < |sys.sessions| && other != step.sid && Open(sys, other) ==>
        sys.sessions[other].key != sys.sessions[step.sid].key
  }

  predicate ExclusiveRun(sys: System, steps: seq<Step>)
    decreases |steps|
  {
    steps == [] ||
    (ExclusiveRun(sys, steps[..|steps| - 1]) && Exclusive(Run(sys, steps[..|steps| - 1]), steps[|steps| - 1]))
  }

  ghost predicate Separate(sys: System) {
    && (forall a: nat, b: nat :: a < b && Open(sys, a) && Open(sys, b) ==> sys.sessions[a].key != sys.sessions[b].key)
    && (forall sid: nat :: Armed(sys, sid) ==> !Sent(sys, sys.sessions[sid].key))
    && OneSendEach(sys.sends)
  }

  lemma QuietStepKeepsSeparate(sys: System, after: System)
    requires Separate(sys) && Quiet(sys, after)
    ensures Separate(after)
  {
    forall sid: nat | Armed(after, sid) ensures !Sent(after, after.sessions[sid].key) {
      assert Armed(sys, sid);
    }
  }

  lemma PrepareKeepsSeparate(sys: System, step: Step)
    requires Sound(sys) && Separate(sys) && step.PrepareStep? && Exclusive(sys, step)
    ensures Separate(Apply(sys, step))
  {
    hide OperationsSound, OneHolder, ContractKept, CompletionsExact, AcceptedReal, ActivityOpen, Authorized, RecipientKnown;
    var sid := step.sid;
    var after := Apply(sys, step);
    if after != sys {
      SessionIsSound(sys, sid);
      forall other: nat | Armed(after, other) ensures !Sent(after, after.sessions[other].key) {
        if other != sid { assert Armed(sys, other); }
      }
    }
  }

  lemma DeliverKeepsSeparate(sys: System, step: Step)
    requires SessionsSound(sys) && Separate(sys) && step.DeliverStep?
    ensures Separate(Apply(sys, step))
  {
    var sid := step.sid;
    var after := Apply(sys, step);
    if after != sys {
      assert Armed(sys, sid) && Open(sys, sid);
      OneSendMore(sys.sends, Send(sys.sessions[sid].key, step.receipt));
      forall other: nat | Armed(after, other) ensures !Sent(after, after.sessions[other].key) {
        assert other != sid && Armed(sys, other) && Open(sys, other);
      }
    }
  }

  lemma StepKeepsSeparate(sys: System, step: Step)
    requires Sound(sys) && Separate(sys) && Exclusive(sys, step)
    ensures Separate(Apply(sys, step))
  {
    if step.PrepareStep? {
      PrepareKeepsSeparate(sys, step);
    } else if step.DeliverStep? {
      DeliverKeepsSeparate(sys, step);
    } else if step.ReconcileStep? {
      ReconcileKeepsSeparate(sys, step);
    } else {
      OthersAreQuiet(sys, step);
      QuietStepKeepsSeparate(sys, Apply(sys, step));
    }
  }

  lemma ReconcileKeepsSeparate(sys: System, step: Step)
    requires Separate(sys) && step.ReconcileStep?
    ensures Separate(Apply(sys, step))
  {
    var after := Apply(sys, step);
    if after != sys {
      forall other: nat | Armed(after, other) ensures !Sent(after, after.sessions[other].key) {
        if other != step.sid { assert Armed(sys, other); }
      }
    }
  }

  /** Nothing opens, nothing is armed, nothing is sent. */
  ghost predicate Quiet(sys: System, after: System) {
    && after.sends == sys.sends && |sys.sessions| <= |after.sessions|
    && (forall i | 0 <= i < |sys.sessions| :: after.sessions[i].key == sys.sessions[i].key)
    && (forall sid: nat :: Open(after, sid) ==> Open(sys, sid))
    && (forall sid: nat :: Armed(after, sid) ==> Armed(sys, sid))
  }

  lemma OthersAreQuiet(sys: System, step: Step)
    requires Sound(sys) && !step.PrepareStep? && !step.DeliverStep? && !step.ReconcileStep?
    ensures Quiet(sys, Apply(sys, step))
  {
    hide OperationsSound, OneHolder, ContractKept, CompletionsExact, AcceptedReal, SessionsSound, SessionStep;
    hide Dispatch, ClaimBatch, Keep, Complete, RecordFailure, Disturbed;
    if step.ClaimStep? {
      var claims := ClaimBatch(sys.host, step.order, step.fence, step.now);
      ClaimsAreQuiet(sys, claims.host, Opened(claims.host, claims.keys, step.fence));
    } else if !step.DispatchStep? && !step.Environment? && !step.LoseStep? && step.sid < |sys.sessions| {
      SessionIsQuiet(sys, step);
    }
  }

  lemma ClaimsAreQuiet(sys: System, host: Host, added: seq<Session>)
    requires CallsSound(sys) && forall i | 0 <= i < |added| :: added[i].phase == Claimed
    ensures Quiet(sys, sys.(host := host, sessions := sys.sessions + added))
  {
  }

  /** A session that moves without entering a call, or that makes the call it was armed for. */
  lemma MoveIsQuiet(sys: System, host: Host, sid: nat, phase: Phase)
    requires sid < |sys.sessions| && !phase.Prepared? && !phase.Cleared? && !phase.Calling?
    ensures Quiet(sys, Moved(sys.(host := host), sid, phase))
  {
  }

  lemma InvokeIsQuiet(sys: System, sid: nat)
    requires sid < |sys.sessions|
    ensures Quiet(sys, SessionStep(sys, InvokeStep(sid)))
  {
  }

  lemma SessionIsQuiet(sys: System, step: Step)
    requires step.InvokeStep? || step.ReuseStep? || step.ReceiveStep? || step.RaiseStep? || step.KeepStep? || step.CompleteStep? ||
             step.FailStep? || step.CrashStep?
    requires step.sid < |sys.sessions|
    ensures Quiet(sys, SessionStep(sys, step))
  {
    hide Keep, Complete, RecordFailure, MayRaise, Quiet;
    UnchangedIsQuiet(sys);
    if step.InvokeStep? {
      InvokeIsQuiet(sys, step.sid);
    } else {
      var after := SessionStep(sys, step);
      if after != sys {
        MoveIsQuiet(sys, after.host, step.sid, after.sessions[step.sid].phase);
      }
    }
  }

  lemma UnchangedIsQuiet(sys: System)
    ensures Quiet(sys, sys)
  {
  }

  /** Without overlapping calls there is at most one effect, even if the provider does not deduplicate. */
  lemma {:induction false} ExclusiveRunsSendOnce(start: Start, steps: seq<Step>)
    requires ExclusiveRun(Initial(start.activities, start.timeline, start.world, start.live, start.honours), steps)
    ensures Separate(Reached(start, steps))
    decreases |steps|
  {
    hide Sound, Apply, Exclusive;
    if steps != [] {
      var n := |steps| - 1;
      ExclusiveRunsSendOnce(start, steps[..n]);
      ReachedIsSound(start, steps[..n]);
      StepKeepsSeparate(Reached(start, steps[..n]), steps[n]);
    }
  }

  lemma NoOverlapGivesAtMostOnce(start: Start, steps: seq<Step>, key: Key)
    requires ExclusiveRun(Initial(start.activities, start.timeline, start.world, start.live, start.honours), steps)
    ensures AtMostOnce(Reached(start, steps), key)
  {
    ExclusiveRunsSendOnce(start, steps);
    OneSendIsAtMostOnce(start, steps, key);
  }

  // ---------- retries ----------

  /** However often claims change hands, an operation fails at most three times and then is a dead letter. */
  lemma RetriesAreBounded(start: Start, steps: seq<Step>, key: Key)
    requires key in Reached(start, steps).host.operations
    ensures var op := Reached(start, steps).host.operations[key];
            && op.attempt <= 3
            && (op.state == Queued || op.state == Running ==> op.attempt <= 2)
            && (op.state == DeadLetter ==> op.attempt >= 1)
  {
    ReachedIsSound(start, steps);
    assert OperationSound(Reached(start, steps).host.operations[key], Reached(start, steps).host.live);
  }

  /** Taking over a dead worker's claim spends no attempt. */
  lemma ReclaimIsFree(host: Host, order: seq<Key>, fence: Fence, now: int, key: Key)
    requires key in host.operations
    ensures var after := ClaimBatch(host, order, fence, now).host;
            key in after.operations && after.operations[key].attempt == host.operations[key].attempt
  {
    ClaimKeepsAttempts(host, order, CLAIM_LIMIT, fence, now, key);
  }
}
