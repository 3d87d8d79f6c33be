/**
 Action idempotency: reserve, execute, complete and commit inside one database transaction for each request.  The unique
 index makes a second reservation of an identity wait until the first transaction ends.
 */
module ActionIdempotency {
  import opened Wrappers

  type Digest = nat
  type Data = nat

  /** The action families of the Sales module. */
  datatype Action =
    | TaskCreate | TaskUpdate | OpportunityStage | Workflow | Configuration | Ownership | Communication | Report
    | ImportDryRun | ImportCommit | ImportCancel | ExportCreate | ExportCancel | MergeCommit

  /**
   What a handler does when its request is a replay.  The endpoint only passes the stored data along: most handlers
   return it, the data-movement handler never looks at it, so its store runs again, and either meets a revision or
   status guard the first run has moved past, or makes another job.
   */
  datatype OnReplay = ReturnsStored | RefusedByGuard | RunsAgain

  function Replayed(a: Action): OnReplay {
    match a
    case ImportCommit | ImportCancel | ExportCancel | MergeCommit => RefusedByGuard
    case ImportDryRun | ExportCreate => RunsAgain
    case _ => ReturnsStored
  }

  /** `caller` stands for application, environment and actor. */
  datatype Identity = Identity(action: Action, caller: nat, key: string)

  datatype Result = Pending | Succeeded(data: Data)
  datatype Row = Row(digest: Digest, result: Result)

  /** One committed effect of an action, with the request that committed it. */
  datatype Effect = Effect(identity: Identity, digest: Digest, data: Data, request: nat)

  datatype Response = Ok(data: Data) | Conflict | Failed

  /** Where a request's transaction stands; its own reservation and effect stay private until it commits. */
  datatype Phase =
    | Waiting
    | Reserved(replay: Option<Data>)
    | Executed(replay: Option<Data>, data: Data)
    | Finished(response: Response)

  datatype Request = Request(identity: Identity, digest: Digest, phase: Phase)

  /** Committed rows and effects, and every request ever made. */
  datatype System = System(rows: map<Identity, Row>, effects: seq<Effect>, requests: seq<Request>)

  datatype Step =
    | Arrive(identity: Identity, digest: Digest)
    | Reserve(rid: nat)
    | Execute(rid: nat, outcome: Option<Data>)
    | Commit(rid: nat)
    | Abort(rid: nat)

  predicate Holding(r: Request) { r.phase.Reserved? || r.phase.Executed? }

  /** Another open transaction holds the row of this identity. */
  predicate Blocked(sys: System, rid: nat)
    requires rid < |sys.requests|
  {
    exists other | 0 <= other < |sys.requests| ::
      other != rid && Holding(sys.requests[other]) && sys.requests[other].identity == sys.requests[rid].identity
  }

  /** What reserving finds: no row (its own is inserted), an unfinished row, a finished row, or a row of different input. */
  function ReservedPhase(rows: map<Identity, Row>, r: Request): Phase {
    if r.identity !in rows then Reserved(None)
    else if rows[r.identity].digest != r.digest then Finished(Conflict)
    else match rows[r.identity].result
      case Succeeded(data) => Reserved(Some(data))
      case Pending => Reserved(None)
  }

  function With(sys: System, rid: nat, phase: Phase): System
    requires rid < |sys.requests|
  {
    sys.(requests := sys.requests[rid := sys.requests[rid].(phase := phase)])
  }

  /** How the handler of a reserved request ends, given what running the action would come to. */
  function Handled(a: Action, replay: Option<Data>, outcome: Option<Data>): Phase {
    if outcome.None? then Finished(Failed)
    else if replay.None? then Executed(None, outcome.value)
    else match Replayed(a)
      case ReturnsStored => Executed(replay, replay.value)
      case RefusedByGuard => Finished(Failed)
      case RunsAgain => Executed(replay, outcome.value)
  }

  /** Whether an executed request has an effect of its own to commit. */
  predicate HasEffect(r: Request) { r.phase.Executed? && (r.phase.replay.None? || Replayed(r.identity.action) == RunsAgain) }

  /** The commit: a first run completes its reservation; a replay skips that, but whatever its handler did commits. */
  function Committed(sys: System, rid: nat): System
    requires rid < |sys.requests| && sys.requests[rid].phase.Executed?
  {
    var r := sys.requests[rid];
    var effects := if HasEffect(r) then sys.effects + [Effect(r.identity, r.digest, r.phase.data, rid)] else sys.effects;
    var rows := if r.phase.replay.None? then sys.rows[r.identity := Row(r.digest, Succeeded(r.phase.data))] else sys.rows;
    With(sys.(rows := rows, effects := effects), rid, Finished(Ok(r.phase.data)))
  }

  function Apply(sys: System, step: Step): System {
    match step
    case Arrive(identity, digest) => sys.(requests := sys.requests + [Request(identity, digest, Waiting)])
    case _ => if step.rid < |sys.requests| then RequestStep(sys, step) else sys
  }

  function RequestStep(sys: System, step: Step): System
    requires !step.Arrive? && step.rid < |sys.requests|
  {
    var r := sys.requests[step.rid];
    match step
    case Reserve(rid) => if r.phase.Waiting? && !Blocked(sys, rid) then With(sys, rid, ReservedPhase(sys.rows, r)) else sys
    case Execute(rid, outcome) =>
      if r.phase.Reserved? then With(sys, rid, Handled(r.identity.action, r.phase.replay, outcome)) else sys
    case Commit(rid) => if r.phase.Executed? then Committed(sys, rid) else sys
    case Abort(rid) => if r.phase.Finished? then sys else With(sys, rid, Finished(Failed))
  }

  function Run(sys: System, steps: seq<Step>): System
    decreases |steps|
  {
    if steps == [] then sys else Apply(Run(sys, steps[..|steps| - 1]), steps[|steps| - 1])
  }

  function Initial(): System { System(map[], [], []) }

  // ---------- invariants ----------

  /** An answer is the stored data, unless the action runs again on a replay. */
  predicate Answers(row: Row, identity: Identity, digest: Digest, data: Data) {
    row.digest == digest && row.result.Succeeded? && (Replayed(identity.action) != RunsAgain ==> row.result.data == data)
  }

  predicate RequestSound(rows: map<Identity, Row>, r: Request) {
    match r.phase
    case Reserved(None) => r.identity !in rows
    case Executed(None, _) => r.identity !in rows
    case Reserved(Some(data)) => r.identity in rows && rows[r.identity] == Row(r.digest, Succeeded(data))
    case Executed(Some(_), data) => r.identity in rows && Answers(rows[r.identity], r.identity, r.digest, data)
    case Finished(Ok(data)) => r.identity in rows && Answers(rows[r.identity], r.identity, r.digest, data)
    case Finished(Conflict) => r.identity in rows && rows[r.identity].digest != r.digest
    case _ => true
  }

  ghost predicate OneHolder(sys: System) {
    forall a, b :: 0 <= a < b < |sys.requests| && Holding(sys.requests[a]) && Holding(sys.requests[b]) ==>
      sys.requests[a].identity != sys.requests[b].identity
  }

  /** Two effects of one identity exist only of actions that run again. */
  ghost predicate OneEffectEach(effects: seq<Effect>) {
    forall j, k | 0 <= j < k < |effects| && effects[j].identity == effects[k].identity ::
      Replayed(effects[j].identity.action) == RunsAgain
  }

  /** Every committed row is finished and has its effect, and every effect its row. */
  ghost predicate EffectsExact(sys: System) {
    && (forall i <- sys.rows :: sys.rows[i].result.Succeeded? && exists e <- sys.effects :: e.identity == i)
    && (forall e <- sys.effects :: e.identity in sys.rows && Answers(sys.rows[e.identity], e.identity, e.digest, e.data))
    && OneEffectEach(sys.effects)
  }

  /** An effect was committed by a request of its identity that answered with its data. */
  ghost predicate EffectsAnswered(sys: System) {
    forall e <- sys.effects ::
      e.request < |sys.requests| && sys.requests[e.request] == Request(e.identity, e.digest, Finished(Ok(e.data)))
  }

  ghost predicate Sound(sys: System) {
    && (forall r <- sys.requests :: RequestSound(sys.rows, r))
    && OneHolder(sys) && EffectsExact(sys) && EffectsAnswered(sys)
  }

  /** Committed rows never change. */
  ghost predicate Kept(a: System, b: System) {
    (forall i <- a.rows :: i in b.rows && b.rows[i] == a.rows[i]) && a.effects <= b.effects
  }

  /** A request that moves while the committed tables stay; it may take the row only when nobody holds it. */
  lemma MoveKeeps(sys: System, rid: nat, phase: Phase)
    requires Sound(sys) && rid < |sys.requests| && RequestSound(sys.rows, sys.requests[rid].(phase := phase))
    requires phase.Reserved? || phase.Executed? ==> Holding(sys.requests[rid]) || !Blocked(sys, rid)
    requires !sys.requests[rid].phase.Finished?
    ensures Sound(With(sys, rid, phase))
  {
    hide RequestSound, Answers, EffectsExact;
    var after := With(sys, rid, phase);
    forall r <- after.requests ensures RequestSound(after.rows, r) {
      var k :| 0 <= k < |after.requests| && after.requests[k] == r;
      if k != rid { assert sys.requests[k] in sys.requests; }
    }
    FrameExact(sys, after);
  }

  lemma FrameExact(sys: System, after: System)
    requires EffectsExact(sys) && after.rows == sys.rows && after.effects == sys.effects
    ensures EffectsExact(after)
  {
  }

  lemma CommitKeeps(sys: System, rid: nat)
    requires Sound(sys) && rid < |sys.requests| && sys.requests[rid].phase.Executed?
    ensures Sound(Committed(sys, rid)) && Kept(sys, Committed(sys, rid))
  {
    hide EffectsExact, EffectsAnswered, OneHolder;
    var r := sys.requests[rid];
    assert r in sys.requests && RequestSound(sys.rows, r);
    CommittedRequests(sys, rid);
    CommittedHolders(sys, rid);
    CommittedAnswers(sys, rid);
    CommittedEffects(sys, rid);
  }

  lemma CommittedRequests(sys: System, rid: nat)
    requires (forall r <- sys.requests :: RequestSound(sys.rows, r)) && OneHolder(sys)
    requires rid < |sys.requests| && sys.requests[rid].phase.Executed?
    ensures forall r <- Committed(sys, rid).requests :: RequestSound(Committed(sys, rid).rows, r)
  {
    var after := Committed(sys, rid);
    assert sys.requests[rid] in sys.requests;
    forall q <- after.requests ensures RequestSound(after.rows, q) {
      var k :| 0 <= k < |after.requests| && after.requests[k] == q;
      if k != rid {
        assert sys.requests[k] in sys.requests && RequestSound(sys.rows, sys.requests[k]);
        assert Holding(q) ==> q.identity != sys.requests[rid].identity;
      }
    }
  }

  lemma CommittedHolders(sys: System, rid: nat)
    requires OneHolder(sys) && rid < |sys.requests| && sys.requests[rid].phase.Executed?
    ensures OneHolder(Committed(sys, rid))
  {
  }

  lemma CommittedAnswers(sys: System, rid: nat)
    requires EffectsAnswered(sys) && rid < |sys.requests| && sys.requests[rid].phase.Executed?
    ensures EffectsAnswered(Committed(sys, rid))
  {
  }

  lemma CommittedEffects(sys: System, rid: nat)
    requires EffectsExact(sys) && rid < |sys.requests| && sys.requests[rid].phase.Executed?
    requires RequestSound(sys.rows, sys.requests[rid])
    ensures EffectsExact(Committed(sys, rid))
  {
    var r := sys.requests[rid];
    var after := Committed(sys, rid);
    if HasEffect(r) {
      var e := Effect(r.identity, r.digest, r.phase.data, rid);
      assert after.effects == sys.effects + [e];
      hide Answers;
      forall i <- after.rows ensures after.rows[i].result.Succeeded? && exists x <- after.effects :: x.identity == i {
        EffectStays(sys, after, i, e);
      }
      OneMoreEffect(sys, e);
      assert forall x <- after.effects :: x in sys.effects || x == e;
      hide OneEffectEach;
      forall x <- after.effects ensures x.identity in after.rows && Answers(after.rows[x.identity], x.identity, x.digest, x.data) {
        if x == e { CommittedRowAnswers(sys, rid); }
      }
    }
  }

  lemma EffectStays(sys: System, after: System, i: Identity, e: Effect)
    requires EffectsExact(sys) && after.effects == sys.effects + [e] && i in after.rows
    requires i in sys.rows || i == e.identity
    ensures exists x <- after.effects :: x.identity == i
  {
    assert after.effects[|sys.effects|] == e && e in after.effects;
    if i != e.identity {
      var x :| x in sys.effects && x.identity == i;
      assert x in after.effects;
    }
  }

  lemma OneMoreEffect(sys: System, e: Effect)
    requires EffectsExact(sys) && (e.identity in sys.rows ==> Replayed(e.identity.action) == RunsAgain)
    ensures OneEffectEach(sys.effects + [e])
  {
    var effects := sys.effects + [e];
    forall j, k | 0 <= j < k < |effects| && effects[j].identity == effects[k].identity
      ensures Replayed(effects[j].identity.action) == RunsAgain
    {
      assert effects[j] in sys.effects;
    }
  }

  lemma CommittedRowAnswers(sys: System, rid: nat)
    requires rid < |sys.requests| && sys.requests[rid].phase.Executed? && RequestSound(sys.rows, sys.requests[rid])
    ensures var r := sys.requests[rid];
            var after := Committed(sys, rid);
            r.identity in after.rows && Answers(after.rows[r.identity], r.identity, r.digest, r.phase.data)
  {
  }

  lemma StepKeeps(sys: System, step: Step)
    requires Sound(sys)
    ensures Sound(Apply(sys, step)) && Kept(sys, Apply(sys, step))
  {
    hide Sound;
    if step.Arrive? {
      ArrivalKeeps(sys, step.identity, step.digest);
    } else if step.rid < |sys.requests| {
      var r := sys.requests[step.rid];
      MemberIsSound(sys, step.rid);
      match step
      case Reserve(rid) =>
        if r.phase.Waiting? && !Blocked(sys, rid) { MoveKeeps(sys, rid, ReservedPhase(sys.rows, r)); }
      case Execute(rid, outcome) =>
        if r.phase.Reserved? { MoveKeeps(sys, rid, Handled(r.identity.action, r.phase.replay, outcome)); }
      case Commit(rid) => if r.phase.Executed? { CommitKeeps(sys, rid); }
      case Abort(rid) => if !r.phase.Finished? { MoveKeeps(sys, rid, Finished(Failed)); }
    }
  }

  lemma MemberIsSound(sys: System, rid: nat)
    requires Sound(sys) && rid < |sys.requests|
    ensures RequestSound(sys.rows, sys.requests[rid])
    ensures sys.requests[rid].identity in sys.rows ==> sys.rows[sys.requests[rid].identity].result.Succeeded?
  {
    assert sys.requests[rid] in sys.requests;
  }

  lemma ArrivalKeeps(sys: System, identity: Identity, digest: Digest)
    requires Sound(sys)
    ensures Sound(Apply(sys, Arrive(identity, digest)))
  {
    hide EffectsExact, RequestSound;
    var after := Apply(sys, Arrive(identity, digest));
    assert after.requests[|sys.requests|] == Request(identity, digest, Waiting);
    WaitingIsSound(sys.rows, after.requests[|sys.requests|]);
    FrameExact(sys, after);
  }

  lemma WaitingIsSound(rows: map<Identity, Row>, r: Request)
    requires r.phase.Waiting?
    ensures RequestSound(rows, r)
  {
  }

  lemma {:induction false} RunKeeps(sys: System, steps: seq<Step>)
    requires Sound(sys)
    ensures Sound(Run(sys, steps)) && Kept(sys, Run(sys, steps))
    decreases |steps|
  {
    hide Sound, Apply;
    if steps != [] {
      var n := |steps| - 1;
      RunKeeps(sys, steps[..n]);
      StepKeeps(Run(sys, steps[..n]), steps[n]);
    }
  }

  lemma ReachedRequestIsSound(steps: seq<Step>, r: Request)
    requires r in Run(Initial(), steps).requests
    ensures RequestSound(Run(Initial(), steps).rows, r)
  {
    RunKeeps(Initial(), steps);
    hide OneHolder, EffectsExact, EffectsAnswered, Run, RequestSound;
  }

  // ---------- what clients see ----------

  function EffectCount(effects: seq<Effect>, identity: Identity): nat
    decreases |effects|
  {
    if effects == [] then 0 else EffectCount(effects[1..], identity) + if effects[0].identity == identity then 1 else 0
  }

  lemma {:induction false} AbsentCountsZero(effects: seq<Effect>, identity: Identity)
    ensures EffectCount(effects, identity) == 0 <==> forall e <- effects :: e.identity != identity
    decreases |effects|
  {
    if effects != [] {
      AbsentCountsZero(effects[1..], identity);
      assert effects == [effects[0]] + effects[1..];
    }
  }

  lemma {:induction false} SingleCountsOnce(effects: seq<Effect>, identity: Identity)
    requires OneEffectEach(effects) && Replayed(identity.action) != RunsAgain
    ensures EffectCount(effects, identity) <= 1
    decreases |effects|
  {
    if effects != [] {
      SingleCountsOnce(effects[1..], identity);
      if effects[0].identity == identity {
        forall e <- effects[1..] ensures e.identity != identity {
          var k :| 0 <= k < |effects[1..]| && effects[1..][k] == e;
          assert effects[k + 1] == e;
        }
        AbsentCountsZero(effects[1..], identity);
      }
    }
  }

  /** The effect of an identity commits at most once in this run. */
  predicate CommitsOnce(steps: seq<Step>, identity: Identity) { EffectCount(Run(Initial(), steps).effects, identity) <= 1 }

  predicate Answered(r: Request, identity: Identity) { r.identity == identity && r.phase.Finished? && r.phase.response.Ok? }

  /** All successes of an identity in this run answer with the same data. */
  ghost predicate Agree(steps: seq<Step>, identity: Identity) {
    forall a <- Run(Initial(), steps).requests, b <- Run(Initial(), steps).requests |
      Answered(a, identity) && Answered(b, identity) :: a.phase.response.data == b.phase.response.data
  }

  lemma OthersCommitOnce(steps: seq<Step>, identity: Identity)
    requires Replayed(identity.action) != RunsAgain
    ensures CommitsOnce(steps, identity) && Agree(steps, identity)
  {
    RunKeeps(Initial(), steps);
    var sys := Run(Initial(), steps);
    SingleCountsOnce(sys.effects, identity);
    forall a <- sys.requests, b <- sys.requests | Answered(a, identity) && Answered(b, identity)
      ensures a.phase.response.data == b.phase.response.data
    {
      ReachedRequestIsSound(steps, a);
      ReachedRequestIsSound(steps, b);
    }
  }

  /** The same request twice, one after the other, each handled to its commit. */
  function Twice(identity: Identity): seq<Step> {
    [Arrive(identity, 0), Reserve(0), Execute(0, Some(1)), Commit(0), Arrive(identity, 0), Reserve(1), Execute(1, Some(2)), Commit(1)]
  }

  lemma RunOne(sys: System, steps: seq<Step>, step: Step)
    ensures Run(sys, steps + [step]) == Apply(Run(sys, steps), step)
  {
    hide Apply;
    assert (steps + [step])[..|steps|] == steps;
  }

  lemma FirstOfTwo(identity: Identity)
    ensures Run(Initial(), Twice(identity)[..4]) ==
            System(map[identity := Row(0, Succeeded(1))], [Effect(identity, 0, 1, 0)], [Request(identity, 0, Finished(Ok(1)))])
  {
    var p, s0 := Twice(identity), Initial();
    RunOne(s0, [], p[0]);
    RunOne(s0, [p[0]], p[1]);
    RunOne(s0, [p[0], p[1]], p[2]);
    RunOne(s0, [p[0], p[1], p[2]], p[3]);
    assert [] + [p[0]] == [p[0]] && [p[0]] + [p[1]] == [p[0], p[1]] && [p[0], p[1]] + [p[2]] == [p[0], p[1], p[2]];
    assert p[..4] == [p[0], p[1], p[2]] + [p[3]];
    var sys := Run(s0, p[..4]);
    assert sys.effects == [Effect(identity, 0, 1, 0)] && sys.requests == [Request(identity, 0, Finished(Ok(1)))];
    assert sys.rows == map[identity := Row(0, Succeeded(1))];
  }

  lemma SecondOfTwo(identity: Identity)
    requires Replayed(identity.action) == RunsAgain
    ensures var sys := Run(Initial(), Twice(identity));
            && sys.effects == [Effect(identity, 0, 1, 0), Effect(identity, 0, 2, 1)]
            && sys.requests == [Request(identity, 0, Finished(Ok(1))), Request(identity, 0, Finished(Ok(2)))]
  {
    var p, s0 := Twice(identity), Initial();
    var q := p[..4];
    FirstOfTwo(identity);
    RunOne(s0, q, p[4]);
    RunOne(s0, q + [p[4]], p[5]);
    RunOne(s0, q + [p[4]] + [p[5]], p[6]);
    RunOne(s0, q + [p[4]] + [p[5]] + [p[6]], p[7]);
    assert p == q + [p[4]] + [p[5]] + [p[6]] + [p[7]];
  }

  /** An action that runs again: a repeated request commits a second effect and answers with other data. */
  lemma ReplayRunsAgain(identity: Identity)
    requires Replayed(identity.action) == RunsAgain
    ensures !CommitsOnce(Twice(identity), identity) && !Agree(Twice(identity), identity)
  {
    SecondOfTwo(identity);
    var sys := Run(Initial(), Twice(identity));
    hide Run;
    assert sys.effects[1..] == [Effect(identity, 0, 2, 1)] && sys.effects[1..][1..] == [];
    assert EffectCount(sys.effects[1..], identity) == 1;
    assert sys.requests[0] in sys.requests && sys.requests[1] in sys.requests;
  }

  /**
   The effect of an identity commits at most once in every run, and in every run all its successes agree, exactly when
   its action is not one that runs again on a replay: export creation and the import dry run.
   */
  lemma EffectCommitsAtMostOnce(identity: Identity)
    ensures (forall steps: seq<Step> :: CommitsOnce(steps, identity)) <==> Replayed(identity.action) != RunsAgain
    ensures (forall steps: seq<Step> :: Agree(steps, identity)) <==> Replayed(identity.action) != RunsAgain
  {
    hide CommitsOnce, Agree;
    if Replayed(identity.action) == RunsAgain {
      ReplayRunsAgain(identity);
    } else {
      forall steps: seq<Step> ensures CommitsOnce(steps, identity) && Agree(steps, identity) { OthersCommitOnce(steps, identity); }
    }
  }

  /** In every run an identity has an effect exactly when its row is committed, and every committed row is succeeded. */
  lemma CommittedMeansSucceeded(steps: seq<Step>, identity: Identity)
    ensures var sys := Run(Initial(), steps);
            && (EffectCount(sys.effects, identity) >= 1 <==> identity in sys.rows)
            && (identity in sys.rows ==> sys.rows[identity].result.Succeeded?)
  {
    RunKeeps(Initial(), steps);
    hide Run;
    AbsentCountsZero(Run(Initial(), steps).effects, identity);
  }

  /** A repeated action of a guarded family fails and leaves nothing. */
  lemma GuardedReplayFails(sys: System, rid: nat, outcome: Option<Data>)
    requires rid < |sys.requests| && sys.requests[rid].phase.Reserved? && sys.requests[rid].phase.replay.Some?
    requires Replayed(sys.requests[rid].identity.action) == RefusedByGuard
    ensures var after := Run(sys, [Execute(rid, outcome), Commit(rid)]);
            && after.rows == sys.rows && after.effects == sys.effects
            && rid < |after.requests| && after.requests[rid].phase == Finished(Failed)
  {
    RunOne(sys, [], Execute(rid, outcome));
    RunOne(sys, [Execute(rid, outcome)], Commit(rid));
    assert [Execute(rid, outcome)] + [Commit(rid)] == [Execute(rid, outcome), Commit(rid)];
  }

  /** Every success, first or repeated, carries the digest of the committed row. */
  lemma SuccessesShareTheirInput(steps: seq<Step>, a: Request, b: Request)
    requires a in Run(Initial(), steps).requests && b in Run(Initial(), steps).requests && a.identity == b.identity
    requires a.phase.Finished? && a.phase.response.Ok? && b.phase.Finished? && b.phase.response.Ok?
    ensures a.digest == b.digest
  {
    ReachedRequestIsSound(steps, a);
    ReachedRequestIsSound(steps, b);
  }

  /** Once an identity is committed, a request with a different digest never runs: it waits, conflicts or has failed. */
  lemma OtherInputNeverRuns(steps: seq<Step>, r: Request)
    requires var sys := Run(Initial(), steps);
             r in sys.requests && r.identity in sys.rows && sys.rows[r.identity].digest != r.digest
    ensures r.phase.Waiting? || r.phase == Finished(Conflict) || r.phase == Finished(Failed)
  {
    ReachedRequestIsSound(steps, r);
  }

  /** A success and a conflict of one identity never carry the same digest. */
  lemma SuccessExcludesConflict(steps: seq<Step>, a: Request, b: Request)
    requires a in Run(Initial(), steps).requests && b in Run(Initial(), steps).requests && a.identity == b.identity
    requires a.phase == Finished(Conflict) && b.phase.Finished? && b.phase.response.Ok?
    ensures a.digest != b.digest
  {
    ReachedRequestIsSound(steps, a);
    ReachedRequestIsSound(steps, b);
  }

  /** A request that failed, conflicted or has not finished leaves no trace: no committed effect is its own. */
  lemma OnlySuccessLeavesATrace(steps: seq<Step>, e: Effect)
    requires e in Run(Initial(), steps).effects
    ensures var sys := Run(Initial(), steps);
            e.request < |sys.requests| && sys.requests[e.request] == Request(e.identity, e.digest, Finished(Ok(e.data)))
  {
    RunKeeps(Initial(), steps);
  }
}
