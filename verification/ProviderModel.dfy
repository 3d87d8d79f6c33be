/**
 Provider dispatch: an external effect split over claim, dispatch marker, network call, receipt and local commit, each
 in its own transaction.  An operation is identified by its idempotency digest.
 */
module ProviderModel {
  import opened Wrappers
  import opened Fencing

  const CLAIM_LIMIT := 4
  const RETRY_LIMIT := 2
  const RETRY_STEP_MILLIS := 15_000

  type Key = nat
  type ReceiptId = nat

  datatype Provider = Email | Calendar
  datatype RecordKind = Account | Contact | Lead | Opportunity | Task
  datatype Record = Record(kind: RecordKind, id: nat)
  datatype OperationState = Queued | Running | Accepted | DeadLetter
  datatype Code = HostInvariant | Revoked | Outage | DuplicateKey | Unreconciled

  /** The activity an operation completes, at the revision it was accepted for. */
  datatype Binding = Binding(activity: nat, revision: nat)
  datatype Authority = Authority(authorization: int, lifecycle: int, scope: int)
  datatype Marker = Marker(claim: nat, at: int)

  datatype Operation = Operation(
    provider: Provider, actor: string, related: Option<Record>, binding: Option<Binding>,
    configuration: int, authority: Authority,
    state: OperationState, attempt: nat, nextAttemptAt: int, worker: Option<Fence>,
    marker: Option<Marker>, receipt: Option<ReceiptId>, digest: Option<ReceiptId>, failure: Option<Code>)

  datatype Intent = Intent(provider: Provider, actor: string, related: Option<Record>, binding: Option<Binding>, authority: Authority)

  /** `completedBy` lists the provider completions in the activity's audit. */
  datatype Activity = Activity(scheduled: bool, revision: nat, related: Option<Record>, completedBy: seq<Key>)
  datatype ActivityReceipt = ActivityReceipt(activity: nat, receipt: ReceiptId)

  /** Current authority: active scopes and configurations, and which activities and recipient addresses an actor may use. */
  datatype World = World(
    authorization: int, lifecycle: int, scopes: map<string, int>, configurations: map<Provider, int>,
    visible: set<(string, nat)>, recipients: set<(string, Record)>)

  /** `timeline` holds the operations whose completion event is in the outbox. */
  datatype Host = Host(
    operations: map<Key, Operation>, activities: map<nat, Activity>, activityReceipts: map<Key, ActivityReceipt>,
    timeline: set<Key>, world: World, live: LiveFence)

  predicate Settled(op: Operation) { op.state == Accepted || op.state == DeadLetter }

  // ---------- transactions ----------

  /** A repeated intent finds its operation; a new one is queued against the active configuration. */
  function Dispatch(host: Host, key: Key, i: Intent, now: int): Host {
    if i.provider !in host.world.configurations || key in host.operations then host
    else host.(operations := host.operations[key :=
      Operation(i.provider, i.actor, i.related, i.binding, host.world.configurations[i.provider], i.authority,
                Queued, 0, now, None, None, None, None, None)])
  }

  /** Queued and due, or running for a worker whose fence is no longer live. */
  predicate Claimable(host: Host, key: Key, now: int) {
    key in host.operations &&
    var op := host.operations[key];
    || (op.state == Queued && op.nextAttemptAt <= now)
    || (op.state == Running && (op.worker.None? || !IsLive(host.live, op.worker.value, now)))
  }

  function ClaimOne(host: Host, key: Key, fence: Fence): Host
    requires key in host.operations
  {
    host.(operations := host.operations[key := host.operations[key].(state := Running, worker := Some(fence))])
  }

  datatype Claims = Claims(host: Host, keys: seq<Key>)

  /** The first claimable operations of the unlocked ones in `order`, at most `limit`. */
  function ClaimEach(host: Host, order: seq<Key>, limit: nat, fence: Fence, now: int): Claims
    decreases |order|
  {
    if order == [] || limit == 0 then Claims(host, [])
    else if Claimable(host, order[0], now) then
      var rest := ClaimEach(ClaimOne(host, order[0], fence), order[1..], limit - 1, fence, now);
      Claims(rest.host, [order[0]] + rest.keys)
    else ClaimEach(host, order[1..], limit, fence, now)
  }

  function ClaimBatch(host: Host, order: seq<Key>, fence: Fence, now: int): Claims {
    if IsLive(host.live, fence, now) then ClaimEach(host, order, CLAIM_LIMIT, fence, now) else Claims(host, [])
  }

  predicate Held(host: Host, key: Key, fence: Fence) {
    key in host.operations && host.operations[key].state == Running && host.operations[key].worker == Some(fence)
  }

  predicate Authorized(w: World, op: Operation) {
    && w.authorization == op.authority.authorization && w.lifecycle == op.authority.lifecycle
    && op.actor in w.scopes && w.scopes[op.actor] == op.authority.scope
    && op.provider in w.configurations && w.configurations[op.provider] == op.configuration
  }

  predicate ActivityOpen(host: Host, op: Operation) {
    && op.binding.Some? && op.related.Some? && op.binding.value.activity in host.activities
    && var a := host.activities[op.binding.value.activity];
    a.scheduled && a.revision == op.binding.value.revision && a.related == op.related
  }

  predicate RecipientKnown(w: World, op: Operation) {
    op.provider == Email ==>
      op.related.Some? && op.related.value.kind in {Contact, Lead} && (op.actor, op.related.value) in w.recipients
  }

  datatype Preparation = Ready(dispatchedBefore: bool, stored: Option<ReceiptId>) | Refused(code: Code)

  /** The dispatch marker commits before any network call; an earlier marker is kept. */
  function Prepare(host: Host, key: Key, fence: Fence, claim: nat, now: int): (Host, Preparation) {
    if !Held(host, key, fence) || !IsLive(host.live, fence, now) || !Authorized(host.world, host.operations[key]) then
      (host, Refused(Revoked))
    else
      var op := host.operations[key];
      if !ActivityOpen(host, op) || (op.actor, op.binding.value.activity) !in host.world.visible || !RecipientKnown(host.world, op) then
        (host, Refused(HostInvariant))
      else
        var marker := if op.marker.Some? then op.marker else Some(Marker(claim, now));
        (host.(operations := host.operations[key := op.(marker := marker)]), Ready(op.marker.Some?, op.receipt))
  }

  /** The receipt is an external fact: it is kept without a fence, and an earlier one is never replaced. */
  function Keep(host: Host, key: Key, receipt: ReceiptId): (Host, bool) {
    if key in host.operations && host.operations[key].state == Running then
      var op := host.operations[key];
      (host.(operations := host.operations[key := op.(receipt := if op.receipt.Some? then op.receipt else Some(receipt))]), true)
    else (host, false)
  }

  datatype Completion = Completed | StaleWorker | Incomplete(code: Code)

  predicate ActivityUsed(host: Host, activity: nat) {
    exists k <- host.activityReceipts :: host.activityReceipts[k].activity == activity
  }

  /** Activity, activity receipt, operation and event in one commit, or none of them. */
  function Complete(host: Host, key: Key, fence: Fence, receipt: ReceiptId, now: int): (Host, Completion) {
    if !Held(host, key, fence) || !IsLive(host.live, fence, now) then (host, StaleWorker)
    else
      var op := host.operations[key];
      if !ActivityOpen(host, op) || key in host.activityReceipts || key in host.timeline then (host, Incomplete(Unreconciled))
      else if ActivityUsed(host, op.binding.value.activity) then (host, Incomplete(HostInvariant))
      else (CompleteWrites(host, key, receipt), Completed)
  }

  function CompleteWrites(host: Host, key: Key, receipt: ReceiptId): Host
    requires key in host.operations && ActivityOpen(host, host.operations[key])
  {
    var op := host.operations[key];
    var id := op.binding.value.activity;
    var a := host.activities[id];
    host.(
      activities := host.activities[id := a.(scheduled := false, revision := a.revision + 1, completedBy := a.completedBy + [key])],
      activityReceipts := host.activityReceipts[key := ActivityReceipt(id, receipt)],
      operations := host.operations[key := op.(state := Accepted, digest := Some(receipt), worker := None)],
      timeline := host.timeline + {key})
  }

  /** Only an outage is retried, and only while the claim was made at an attempt below the limit. */
  predicate Retries(attempt: nat, code: Code) { attempt < RETRY_LIMIT && code == Outage }

  function RecordFailure(host: Host, key: Key, fence: Fence, code: Code, retry: bool, now: int): Host {
    if !Held(host, key, fence) || !IsLive(host.live, fence, now) then host
    else
      var op := host.operations[key];
      host.(operations := host.operations[key := op.(
        state := if retry then Queued else DeadLetter, attempt := op.attempt + 1,
        nextAttemptAt := if retry then now + (op.attempt + 1) * RETRY_STEP_MILLIS else now,
        failure := Some(code), worker := None)])
  }

  // ---------- workers, calls and the provider ----------

  /** Where one worker stands with one claimed operation. */
  datatype Phase =
    | Claimed
    | Prepared(dispatchedBefore: bool, stored: Option<ReceiptId>)
    | Cleared
    | Calling
    | Received(receipt: ReceiptId)
    | Kept(receipt: ReceiptId)
    | Failing(code: Code)
    | Closed

  datatype Session = Session(key: Key, fence: Fence, attempt: nat, phase: Phase)

  /** A call lives on after its worker gave up on it: the provider may still receive it. */
  datatype Call = InFlight | Answered(receipt: ReceiptId) | Lost

  /** One effect in the world outside. */
  datatype Send = Send(key: Key, receipt: ReceiptId)

  /** `honours` says whether the provider keeps its declared contract of one effect for each idempotency key. */
  datatype System = System(host: Host, sessions: seq<Session>, calls: map<nat, Call>, sends: seq<Send>, honours: bool)

  datatype Step =
    | DispatchStep(key: Key, intent: Intent, now: int)
    | ClaimStep(fence: Fence, order: seq<Key>, now: int)
    | PrepareStep(sid: nat, claim: nat, now: int)
    | ReuseStep(sid: nat)
    | ReconcileStep(sid: nat, which: nat)
    | InvokeStep(sid: nat)
    | DeliverStep(sid: nat, receipt: ReceiptId)
    | LoseStep(sid: nat)
    | ReceiveStep(sid: nat)
    | RaiseStep(sid: nat, code: Code)
    | KeepStep(sid: nat)
    | CompleteStep(sid: nat, now: int)
    | FailStep(sid: nat, now: int)
    | CrashStep(sid: nat)
    | Environment(activities: map<nat, Activity>, timeline: set<Key>, world: World, live: LiveFence)

  function Opened(host: Host, keys: seq<Key>, fence: Fence): (r: seq<Session>)
    ensures |r| == |keys|
    ensures forall i | 0 <= i < |keys| :: r[i].key == keys[i] && r[i].fence == fence && r[i].phase == Claimed
    ensures forall i | 0 <= i < |keys| :: keys[i] in host.operations ==> r[i].attempt == host.operations[keys[i]].attempt
  {
    seq(|keys|, i requires 0 <= i < |keys| =>
      Session(keys[i], fence, if keys[i] in host.operations then host.operations[keys[i]].attempt else 0, Claimed))
  }

  predicate Sent(sys: System, key: Key) { exists s <- sys.sends :: s.key == key }

  predicate Real(sys: System, key: Key, receipt: ReceiptId) { Send(key, receipt) in sys.sends }

  /** Some receipt the provider holds for a key it has served; `which` resolves the choice when it served the key twice. */
  function LookUp(sends: seq<Send>, key: Key, which: nat): (r: Option<ReceiptId>)
    ensures r.Some? <==> exists s <- sends :: s.key == key
    ensures r.Some? ==> Send(key, r.value) in sends
    decreases |sends|
  {
    if which < |sends| && sends[which].key == key then
      assert sends[which] in sends;
      Some(sends[which].receipt)
    else FirstReceipt(sends, key)
  }

  function FirstReceipt(sends: seq<Send>, key: Key): (r: Option<ReceiptId>)
    ensures r.Some? <==> exists s <- sends :: s.key == key
    ensures r.Some? ==> Send(key, r.value) in sends
    decreases |sends|
  {
    if sends == [] then None
    else if sends[0].key == key then Some(sends[0].receipt)
    else
      assert sends == [sends[0]] + sends[1..];
      FirstReceipt(sends[1..], key)
  }

  /** Which errors a worker can meet where. */
  predicate MayRaise(phase: Phase, code: Code) {
    match phase
    case Prepared(before, stored) => code == HostInvariant || (before && stored.None? && code in {Outage, DuplicateKey})
    case Calling => code in {HostInvariant, Outage, DuplicateKey}
    case Claimed | Cleared | Received(_) | Kept(_) => code == HostInvariant
    case _ => false
  }

  function Moved(sys: System, sid: nat, phase: Phase): System
    requires sid < |sys.sessions|
  {
    sys.(sessions := sys.sessions[sid := sys.sessions[sid].(phase := phase)])
  }

  function Disturbed(host: Host, activities: map<nat, Activity>, timeline: set<Key>, world: World, live: LiveFence): Host {
    host.(
      activities := map id | id in host.activities.Keys + activities.Keys ::
        (if id !in activities then host.activities[id]
         else activities[id].(completedBy := if id in host.activities then host.activities[id].completedBy else [])),
      timeline := host.timeline + timeline, world := world,
      live := if Succeeds(host.live, live) then live else host.live)
  }

  /** The step of one worker, of the provider, or of anyone else; a step that is not enabled changes nothing. */
  function Apply(sys: System, step: Step): System {
    match step
    case DispatchStep(key, intent, now) => sys.(host := Dispatch(sys.host, key, intent, now))
    case ClaimStep(fence, order, now) =>
      var claims := ClaimBatch(sys.host, order, fence, now);
      sys.(host := claims.host, sessions := sys.sessions + Opened(claims.host, claims.keys, fence))
    case Environment(activities, timeline, world, live) => sys.(host := Disturbed(sys.host, activities, timeline, world, live))
    case DeliverStep(sid, receipt) => Delivered(sys, sid, receipt)
    case LoseStep(sid) => if sid in sys.calls && sys.calls[sid].InFlight? then sys.(calls := sys.calls[sid := Lost]) else sys
    case _ => if step.sid < |sys.sessions| then SessionStep(sys, step) else sys
  }

  /** The provider receives a call: it serves the key, or, keeping its contract, answers with the receipt it already gave. */
  function Delivered(sys: System, sid: nat, receipt: ReceiptId): System {
    if sid >= |sys.sessions| || sid !in sys.calls || !sys.calls[sid].InFlight? then sys
    else
      var key := sys.sessions[sid].key;
      var known := FirstReceipt(sys.sends, key);
      if sys.honours && known.Some? then sys.(calls := sys.calls[sid := Answered(known.value)])
      else sys.(calls := sys.calls[sid := Answered(receipt)], sends := sys.sends + [Send(key, receipt)])
  }

  function SessionStep(sys: System, step: Step): System
    requires !step.DispatchStep? && !step.ClaimStep? && !step.Environment? && !step.DeliverStep? && !step.LoseStep?
    requires step.sid < |sys.sessions|
  {
    var sid := step.sid;
    var s := sys.sessions[sid];
    match step
    case PrepareStep(_, claim, now) =>
      if !s.phase.Claimed? then sys
      else
        var (host, outcome) := Prepare(sys.host, s.key, s.fence, claim, now);
        Moved(sys.(host := host), sid, match outcome case Ready(before, stored) => Prepared(before, stored)
                                       case Refused(code) => Failing(code))
    case ReuseStep(_) =>
      if s.phase.Prepared? && s.phase.stored.Some? then Moved(sys, sid, Received(s.phase.stored.value)) else sys
    case ReconcileStep(_, which) =>
      if !(s.phase.Prepared? && s.phase.stored.None? && s.phase.dispatchedBefore) then sys
      else
        var known := LookUp(sys.sends, s.key, which);
        Moved(sys, sid, if known.Some? then Received(known.value) else Cleared)
    case InvokeStep(_) =>
      if s.phase == Prepared(false, None) || s.phase.Cleared? then Moved(sys.(calls := sys.calls[sid := InFlight]), sid, Calling)
      else sys
    case ReceiveStep(_) =>
      if s.phase.Calling? && sid in sys.calls && sys.calls[sid].Answered? then Moved(sys, sid, Received(sys.calls[sid].receipt)) else sys
    case RaiseStep(_, code) => if MayRaise(s.phase, code) then Moved(sys, sid, Failing(code)) else sys
    case KeepStep(_) =>
      if !s.phase.Received? then sys
      else
        var (host, kept) := Keep(sys.host, s.key, s.phase.receipt);
        Moved(sys.(host := host), sid, if kept then Kept(s.phase.receipt) else Failing(HostInvariant))
    case CompleteStep(_, now) =>
      if !s.phase.Kept? then sys
      else
        var (host, outcome) := Complete(sys.host, s.key, s.fence, s.phase.receipt, now);
        Moved(sys.(host := host), sid, if outcome.Incomplete? then Failing(outcome.code) else Closed)
    case FailStep(_, now) =>
      if !s.phase.Failing? then sys
      else
        var host := RecordFailure(sys.host, s.key, s.fence, s.phase.code, Retries(s.attempt, s.phase.code), now);
        Moved(sys.(host := host), sid, Closed)
    case CrashStep(_) => Moved(sys, sid, Closed)
  }

  function Run(sys: System, steps: seq<Step>): System
    decreases |steps|
  {
    if steps == [] then sys else Apply(Run(sys, steps[..|steps| - 1]), steps[|steps| - 1])
  }

  function Initial(activities: map<nat, Activity>, timeline: set<Key>, world: World, live: LiveFence, honours: bool): System {
    System(Host(map[], map id | id in activities :: activities[id].(completedBy := []), map[], timeline, world, live),
           [], map[], [], honours)
  }
}
