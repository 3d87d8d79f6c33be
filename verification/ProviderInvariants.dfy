/** What every step of provider dispatch keeps, whatever the interleaving, the crashes and the provider. */
module ProviderInvariants {
  import opened Wrappers
  import opened Fencing
  import opened ProviderModel

  /** Retry budget, lease, and the order marker, receipt, acceptance. */
  predicate OperationSound(op: Operation, live: LiveFence) {
    && (op.state == Running <==> op.worker.Some?)
    && (op.worker.Some? ==> NotAhead(op.worker.value, live))
    && (op.state == DeadLetter ==> 1 <= op.attempt <= 3) && (op.state != DeadLetter ==> op.attempt <= 2)
    && (op.receipt.Some? ==> op.marker.Some?)
    && (op.state == Accepted <==> op.digest.Some?)
    && (op.state == Accepted ==> op.receipt.Some?)
  }

  ghost predicate OperationsSound(sys: System) {
    forall key <- sys.host.operations ::
      OperationSound(sys.host.operations[key], sys.host.live) &&
      (sys.host.operations[key].receipt.Some? ==> Real(sys, key, sys.host.operations[key].receipt.value))
  }

  predicate PastMarker(phase: Phase) {
    phase.Prepared? || phase.Cleared? || phase.Calling? || phase.Received? || phase.Kept?
  }

  predicate BeforeCall(phase: Phase) { phase.Claimed? || phase.Prepared? || phase.Cleared? }

  /** One worker's memory agrees with the tables and the provider. */
  predicate SessionSound(sys: System, s: Session) {
    s.key in sys.host.operations &&
    var op := sys.host.operations[s.key];
    && NotAhead(s.fence, sys.host.live)
    && (PastMarker(s.phase) ==> op.marker.Some?)
    && (s.phase.Received? ==> Real(sys, s.key, s.phase.receipt))
    && (s.phase.Kept? ==> Real(sys, s.key, s.phase.receipt) && op.receipt.Some?)
    && (s.phase.Prepared? && s.phase.stored.Some? ==> Real(sys, s.key, s.phase.stored.value))
    && (!s.phase.Closed? && s.fence == sys.host.live.fence ==> op.worker == Some(s.fence) && op.attempt == s.attempt)
  }

  ghost predicate SessionsSound(sys: System) {
    && (forall sid :: 0 <= sid < |sys.sessions| ==> SessionSound(sys, sys.sessions[sid]))
    && (forall sid :: 0 <= sid < |sys.sessions| && BeforeCall(sys.sessions[sid].phase) ==> sid !in sys.calls)
  }

  predicate Holder(sys: System, sid: nat)
    requires sid < |sys.sessions|
  {
    !sys.sessions[sid].phase.Closed? && sys.sessions[sid].fence == sys.host.live.fence
  }

  /** The live owner works on an operation in at most one session. */
  ghost predicate OneHolder(sys: System) {
    forall a, b :: 0 <= a < b < |sys.sessions| && Holder(sys, a) && Holder(sys, b) ==> sys.sessions[a].key != sys.sessions[b].key
  }

  predicate Marked(host: Host, key: Key) { key in host.operations && host.operations[key].marker.Some? }

  /** No call and no effect without a committed marker. */
  ghost predicate CallsSound(sys: System) {
    && (forall sid <- sys.calls :: sid < |sys.sessions| && Marked(sys.host, sys.sessions[sid].key) &&
          (sys.calls[sid].Answered? ==> Real(sys, sys.sessions[sid].key, sys.calls[sid].receipt)))
    && (forall s <- sys.sends :: Marked(sys.host, s.key))
  }

  ghost predicate OneSendEach(sends: seq<Send>) {
    forall i, j :: 0 <= i < j < |sends| ==> sends[i].key != sends[j].key
  }

  ghost predicate ContractKept(sys: System) { sys.honours ==> OneSendEach(sys.sends) }

  ghost predicate AcceptedHaveReceipts(host: Host) {
    forall key <- host.operations :: host.operations[key].state == Accepted <==> key in host.activityReceipts
  }

  /** The receipt of `key` names the activity the operation was bound to, and that activity names the operation. */
  ghost predicate ReceiptExact(host: Host, key: Key)
    requires key in host.activityReceipts
  {
    var r := host.activityReceipts[key];
    && key in host.operations && host.operations[key].digest == Some(r.receipt)
    && host.operations[key].binding.Some? && host.operations[key].binding.value.activity == r.activity
    && r.activity in host.activities && host.activities[r.activity].completedBy == [key]
  }

  /** Activity `a` was completed at most once, by an operation that holds its receipt. */
  ghost predicate CompletedOnce(host: Host, a: nat)
    requires a in host.activities
  {
    var done := host.activities[a].completedBy;
    done == [] || (|done| == 1 && done[0] in host.activityReceipts && host.activityReceipts[done[0]].activity == a)
  }

  /** Acceptance, activity receipt and completion of the activity name each other. */
  ghost predicate CompletionsExact(host: Host) {
    && AcceptedHaveReceipts(host)
    && (forall key <- host.activityReceipts :: ReceiptExact(host, key))
    && (forall a <- host.activities :: CompletedOnce(host, a))
  }

  ghost predicate AcceptedReal(sys: System) {
    forall key <- sys.host.activityReceipts :: Real(sys, key, sys.host.activityReceipts[key].receipt)
  }

  ghost predicate Sound(sys: System) {
    && OperationsSound(sys) && SessionsSound(sys) && OneHolder(sys) && CallsSound(sys) && ContractKept(sys)
    && CompletionsExact(sys.host) && AcceptedReal(sys)
  }

  // ---------- evolution ----------

  /** Identity never changes, marker and receipt are written once, and a settled operation never changes. */
  predicate Evolves(a: Operation, b: Operation) {
    && a.provider == b.provider && a.actor == b.actor && a.related == b.related && a.binding == b.binding
    && a.configuration == b.configuration && a.authority == b.authority
    && (a.marker.Some? ==> b.marker == a.marker)
    && (a.receipt.Some? ==> b.receipt == a.receipt)
    && a.attempt <= b.attempt
    && (Settled(a) ==> a == b)
  }

  ghost predicate HostEvolves(a: Host, b: Host) {
    && (forall key <- a.operations :: key in b.operations && Evolves(a.operations[key], b.operations[key]))
    && (forall key <- a.activityReceipts :: key in b.activityReceipts && b.activityReceipts[key] == a.activityReceipts[key])
    && Succeeds(a.live, b.live)
  }

  ghost predicate SystemEvolves(a: System, b: System) {
    HostEvolves(a.host, b.host) && a.sends <= b.sends && a.honours == b.honours
  }

  lemma EvolvesTrans(a: System, b: System, c: System)
    requires SystemEvolves(a, b) && SystemEvolves(b, c)
    ensures SystemEvolves(a, c)
  {
    SucceedsTrans(a.host.live, b.host.live, c.host.live);
    forall key <- a.host.operations ensures key in c.host.operations && Evolves(a.host.operations[key], c.host.operations[key]) {
      assert Evolves(a.host.operations[key], b.host.operations[key]) && Evolves(b.host.operations[key], c.host.operations[key]);
    }
  }

  // ---------- one session moves, and its operation with it ----------

  /** The session's operation becomes `next` and its phase `phase`. */
  function Touched(sys: System, sid: nat, next: Operation, phase: Phase): System
    requires sid < |sys.sessions|
  {
    Moved(sys.(host := sys.host.(operations := sys.host.operations[sys.sessions[sid].key := next])), sid, phase)
  }

  /** What a change of one operation must respect: only the live holder may let go of it, and only by closing. */
  ghost predicate Allowed(sys: System, sid: nat, next: Operation, phase: Phase) {
    && sid < |sys.sessions| && sys.sessions[sid].key in sys.host.operations
    && var s := sys.sessions[sid];
    var op := sys.host.operations[s.key];
    && OperationSound(next, sys.host.live) && Evolves(op, next)
    && (next.receipt.Some? ==> Real(sys, s.key, next.receipt.value))
    && next.digest == op.digest
    && ((next.worker == op.worker && next.attempt == op.attempt) || (Holder(sys, sid) && phase.Closed?))
    && (BeforeCall(phase) ==> BeforeCall(s.phase))
    && (s.phase.Closed? ==> phase.Closed?)
    && (PastMarker(phase) ==> next.marker.Some?)
    && (phase.Received? ==> Real(sys, s.key, phase.receipt))
    && (phase.Kept? ==> Real(sys, s.key, phase.receipt) && next.receipt.Some?)
    && (phase.Prepared? && phase.stored.Some? ==> Real(sys, s.key, phase.stored.value))
  }

  lemma TouchedIsSound(sys: System, sid: nat, next: Operation, phase: Phase)
    requires Sound(sys) && Allowed(sys, sid, next, phase)
    ensures Sound(Touched(sys, sid, next, phase)) && SystemEvolves(sys, Touched(sys, sid, next, phase))
  {
    TouchedOperations(sys, sid, next, phase);
    TouchedSessions(sys, sid, next, phase);
    TouchedHolders(sys, sid, next, phase);
    TouchedCalls(sys, sid, next, phase);
    TouchedCompletions(sys, sid, next, phase);
  }

  lemma TouchedOperations(sys: System, sid: nat, next: Operation, phase: Phase)
    requires OperationsSound(sys) && Allowed(sys, sid, next, phase)
    ensures OperationsSound(Touched(sys, sid, next, phase))
  {
  }

  lemma TouchedSessions(sys: System, sid: nat, next: Operation, phase: Phase)
    requires SessionsSound(sys) && OneHolder(sys) && Allowed(sys, sid, next, phase)
    ensures SessionsSound(Touched(sys, sid, next, phase))
  {
    var after := Touched(sys, sid, next, phase);
    forall other | 0 <= other < |after.sessions| ensures SessionSound(after, after.sessions[other]) {
      assert SessionSound(sys, sys.sessions[other]) && SessionSound(sys, sys.sessions[sid]);
      if other != sid && Holder(sys, sid) && Holder(sys, other) {
        assert sys.sessions[other].key != sys.sessions[sid].key;
      }
    }
  }

  lemma TouchedHolders(sys: System, sid: nat, next: Operation, phase: Phase)
    requires OneHolder(sys) && Allowed(sys, sid, next, phase)
    ensures OneHolder(Touched(sys, sid, next, phase))
  {
    var after := Touched(sys, sid, next, phase);
    forall a, b | 0 <= a < b < |after.sessions| && Holder(after, a) && Holder(after, b)
      ensures after.sessions[a].key != after.sessions[b].key
    {
      assert Holder(sys, a) && Holder(sys, b);
    }
  }

  lemma TouchedCalls(sys: System, sid: nat, next: Operation, phase: Phase)
    requires CallsSound(sys) && Allowed(sys, sid, next, phase)
    ensures CallsSound(Touched(sys, sid, next, phase))
  {
    var after := Touched(sys, sid, next, phase);
    forall key | Marked(sys.host, key) ensures Marked(after.host, key) {}
  }

  lemma TouchedCompletions(sys: System, sid: nat, next: Operation, phase: Phase)
    requires OperationsSound(sys) && CompletionsExact(sys.host) && AcceptedReal(sys) && Allowed(sys, sid, next, phase)
    ensures CompletionsExact(Touched(sys, sid, next, phase).host) && AcceptedReal(Touched(sys, sid, next, phase))
  {
    var key := sys.sessions[sid].key;
    var host, after := sys.host, Touched(sys, sid, next, phase).host;
    assert next.state == Accepted <==> host.operations[key].state == Accepted;
    hide OperationsSound;
    forall k <- after.activityReceipts ensures ReceiptExact(after, k) { assert ReceiptExact(host, k); }
    forall a <- after.activities ensures CompletedOnce(after, a) { assert CompletedOnce(host, a); }
  }
}
