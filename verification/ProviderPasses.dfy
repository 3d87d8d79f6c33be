/** What a later pass over an operation does before it calls the provider. */
module ProviderPasses {
  import opened Wrappers
  import opened Fencing
  import opened ProviderModel
  import opened ProviderInvariants
  import opened ProviderSafety

  /** Step `k` of the run was this session's lookup, and the provider had not served the key then. */
  predicate FoundNothingAt(sys: System, steps: seq<Step>, sid: nat, k: nat) {
    k < |steps| && steps[k].ReconcileStep? && steps[k].sid == sid &&
    var before := Run(sys, steps[..k]);
    sid < |before.sessions| && !Sent(before, before.sessions[sid].key)
  }

  ghost predicate FoundNothing(sys: System, steps: seq<Step>, sid: nat) { exists k: nat :: FoundNothingAt(sys, steps, sid, k) }

  /** A session that found the marker already committed, anywhere after its own preparation. */
  ghost predicate OnLaterPass(after: System, sid: nat, stored: Option<ReceiptId>, lookedUp: bool) {
    && sid < |after.sessions| && !after.sessions[sid].phase.Claimed?
    && (after.sessions[sid].phase.Prepared? ==> after.sessions[sid].phase == Prepared(true, stored))
    && (after.sessions[sid].phase.Cleared? || sid in after.calls ==> lookedUp)
    && (stored.Some? ==> !after.sessions[sid].phase.Cleared? && sid !in after.calls)
  }

  /** Steps of others leave the session alone and start no call of its own. */
  lemma OthersStayAway(sys: System, step: Step, sid: nat)
    requires sid < |sys.sessions|
    requires step.DispatchStep? || step.ClaimStep? || step.Environment? || step.DeliverStep? || step.LoseStep? || step.sid != sid
    ensures var after := Apply(sys, step);
            sid < |after.sessions| && after.sessions[sid] == sys.sessions[sid] && (sid in after.calls ==> sid in sys.calls)
  {
    hide Dispatch, ClaimBatch, Disturbed, Prepare, Keep, Complete, RecordFailure, MayRaise;
  }

  lemma OwnStepLooksFirst(sys: System, step: Step, sid: nat, stored: Option<ReceiptId>, lookedUp: bool)
    requires OnLaterPass(sys, sid, stored, lookedUp)
    requires !step.DispatchStep? && !step.ClaimStep? && !step.Environment? && !step.DeliverStep? && !step.LoseStep? && step.sid == sid
    ensures OnLaterPass(Apply(sys, step), sid, stored,
              lookedUp || (step.ReconcileStep? && !Sent(sys, sys.sessions[sid].key)))
  {
    hide Prepare, Keep, Complete, RecordFailure, MayRaise;
  }

  lemma {:induction false} LaterPassHolds(sys: System, steps: seq<Step>, sid: nat, stored: Option<ReceiptId>)
    requires sid < |sys.sessions| && sys.sessions[sid].phase == Prepared(true, stored) && sid !in sys.calls
    ensures OnLaterPass(Run(sys, steps), sid, stored, FoundNothing(sys, steps, sid))
    decreases |steps|
  {
    hide Apply;
    if steps != [] {
      var n := |steps| - 1;
      var before, step := Run(sys, steps[..n]), steps[n];
      LaterPassHolds(sys, steps[..n], sid, stored);
      LookupsStay(sys, steps, sid);
      if step.DispatchStep? || step.ClaimStep? || step.Environment? || step.DeliverStep? || step.LoseStep? || step.sid != sid {
        OthersStayAway(before, step, sid);
      } else {
        OwnStepLooksFirst(before, step, sid, stored, FoundNothing(sys, steps[..n], sid));
        if step.ReconcileStep? && !Sent(before, before.sessions[sid].key) { assert FoundNothingAt(sys, steps, sid, n); }
      }
    }
  }

  lemma LookupsStay(sys: System, steps: seq<Step>, sid: nat)
    requires steps != []
    ensures FoundNothing(sys, steps[..|steps| - 1], sid) ==> FoundNothing(sys, steps, sid)
  {
    hide Run;
    var front := steps[..|steps| - 1];
    if FoundNothing(sys, front, sid) {
      var k: nat :| FoundNothingAt(sys, front, sid, k);
      assert front[..k] == steps[..k];
      assert FoundNothingAt(sys, steps, sid, k);
    }
  }

  /**
   A session that prepares an operation whose marker is already committed either finds the stored receipt, and then it
   never calls, or calls only after a lookup that found the key not served.
   */
  lemma LaterPassesLookBeforeTheyCall(sys: System, claim: nat, now: int, sid: nat, steps: seq<Step>)
    requires Sound(sys) && sid < |sys.sessions| && sys.sessions[sid].phase.Claimed?
    requires Marked(sys.host, sys.sessions[sid].key)
    ensures var prepared := Apply(sys, PrepareStep(sid, claim, now));
            var after := Run(prepared, steps);
            prepared.sessions[sid].phase.Prepared? && sid in after.calls ==>
              sys.host.operations[sys.sessions[sid].key].receipt.None? && FoundNothing(prepared, steps, sid)
  {
    var prepared := Apply(sys, PrepareStep(sid, claim, now));
    assert sid !in sys.calls by { hide OperationsSound, OneHolder, CallsSound, CompletionsExact, AcceptedReal; }
    PreparationSeesTheMarker(sys, sid, claim, now);
    if prepared.sessions[sid].phase.Prepared? {
      LaterPassHolds(prepared, steps, sid, sys.host.operations[sys.sessions[sid].key].receipt);
    }
  }

  lemma PreparationSeesTheMarker(sys: System, sid: nat, claim: nat, now: int)
    requires sid < |sys.sessions| && sys.sessions[sid].phase.Claimed? && Marked(sys.host, sys.sessions[sid].key)
    ensures var prepared := Apply(sys, PrepareStep(sid, claim, now));
            && sid < |prepared.sessions| && prepared.calls == sys.calls
            && (prepared.sessions[sid].phase.Prepared? ==>
                  prepared.sessions[sid].phase == Prepared(true, sys.host.operations[sys.sessions[sid].key].receipt))
  {
    hide ActivityOpen, Authorized, RecipientKnown;
  }
}
