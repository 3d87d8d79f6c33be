/** A run that ends an import partially failed although every row was accepted. */
module ImportWitness {
  import opened Wrappers
  import opened Fencing
  import opened ImportModel
  import opened ImportSafety

  ghost predicate Reachable(start: System, sys: System) { exists steps: seq<Step> :: Run(start, steps) == sys }

  lemma ReachableStep(start: System, sys: System, step: Step, after: System)
    requires Reachable(start, sys) && Apply(sys, step) == after
    ensures Reachable(start, after)
  {
    hide Apply;
    var steps: seq<Step> :| Run(start, steps) == sys;
    assert (steps + [step])[..|steps|] == steps;
    assert Run(start, steps + [step]) == after;
  }

  function Owner(): Fence { Fence("one", 1, 0, "worker") }
  function Live(): LiveFence { LiveFence(Owner(), 100_000, true) }

  /** One file row in one chunk, somewhere along the run. */
  function JobAt(state: JobState, revision: nat, row: Outcome, chunk: Chunk, records: map<nat, nat>, sequence: nat, audit: seq<Transition>): Job {
    Job(state, revision, [row], [chunk], 0, 0, map[], None, records, sequence, audit, None, true, 1_000_000, Live())
  }

  function Unclaimed(): Chunk { Chunk(0, 1, Waiting, 0, None, 1, 0) }
  function Held(): Chunk { Chunk(0, 1, Claimed, 1, Some(Owner()), 2, 30_001) }
  function Queueing(): seq<Transition> { [Transition(Validated, Queued, 3)] }
  function Starting(): seq<Transition> { Queueing() + [Transition(Queued, Running, 4)] }
  function Inside(next: nat, doomed: bool): Option<Session> { Some(Session(0, Owner(), 2, next, doomed)) }

  function AtStart(): System { System(JobAt(Validated, 2, Pending, Unclaimed(), map[], 1, []), []) }
  function AfterCommit(): System { System(JobAt(Queued, 3, Pending, Unclaimed(), map[], 1, Queueing()), []) }
  function AfterClaim(sessions: seq<Option<Session>>): System { System(JobAt(Running, 4, Pending, Held(), map[], 1, Starting()), sessions) }
  function AfterAccept(doomed: bool): System {
    System(JobAt(Running, 4, Accepted(1), Held(), map[1 := 0], 2, Starting()), [Inside(1, doomed)])
  }

  lemma StartsValidated()
    ensures System(DryRun([None], Live(), 1_000_000), []) == AtStart()
  {
    var parsed: seq<Option<Code>> := [None];
    var job := DryRun(parsed, Live(), 1_000_000);
    assert ChunkCount(1) == 1 && ChunksFor(1) == [Unclaimed()];
    assert parsed[1..] == [];
    assert job.rows == [Pending] && job.diagnostics == map[];
  }

  lemma Claims()
    ensures Apply(AtStart(), CommitStep(2)) == AfterCommit()
    ensures Apply(AfterCommit(), ClaimStep(0, Owner(), 30_000, 1)) == AfterClaim([])
  {
    assert [] + Queueing() == Queueing();
  }

  lemma Works()
    ensures Apply(AfterClaim([]), BeginStep(0, Owner(), true)) == AfterClaim([Inside(0, false)])
    ensures Apply(AfterClaim([Inside(0, false)]), RowStep(0, Insert, true, 2)) == AfterAccept(false)
  {
  }

  /** The lease ran out before the chunk could be completed, while the worker's fence is still live. */
  lemma LosesItsLease()
    ensures Apply(AfterAccept(false), CompleteStep(0, 40_000)) == AfterAccept(true)
  {
  }

  /** The last row was accepted, and the job still fails. */
  lemma PartialFailureIsReachable()
    ensures exists steps: seq<Step> ::
              var job := Reached([None], Live(), 1_000_000, steps);
              job.state == PartiallyFailed && job.rejected == 0 && job.rows == [Accepted(1)]
  {
    var start := AtStart();
    StartsValidated();
    assert Run(start, []) == start;
    Claims();
    Works();
    LosesItsLease();
    hide Apply, Run;
    ReachableStep(start, start, CommitStep(2), AfterCommit());
    ReachableStep(start, AfterCommit(), ClaimStep(0, Owner(), 30_000, 1), AfterClaim([]));
    ReachableStep(start, AfterClaim([]), BeginStep(0, Owner(), true), AfterClaim([Inside(0, false)]));
    ReachableStep(start, AfterClaim([Inside(0, false)]), RowStep(0, Insert, true, 2), AfterAccept(false));
    ReachableStep(start, AfterAccept(false), CompleteStep(0, 40_000), AfterAccept(true));
    var end := Apply(AfterAccept(true), FailStep(0));
    ReachableStep(start, AfterAccept(true), FailStep(0), end);
    Fails();
    var steps: seq<Step> :| Run(start, steps) == end;
    assert Reached([None], Live(), 1_000_000, steps) == end.job;
  }

  lemma Fails()
    ensures var job := Apply(AfterAccept(true), FailStep(0)).job;
            job.state == PartiallyFailed && job.rejected == 0 && job.rows == [Accepted(1)]
  {
    var job := AfterAccept(true).job;
    PartialFailureWithoutRejection(job, ActionForbidden);
    FailShape(job, ActionForbidden);
    hide FailImport;
    assert Apply(AfterAccept(true), FailStep(0)).job == FailImport(job, ActionForbidden);
    assert RejectPending(job.rows, ActionForbidden) == [Accepted(1)];
  }
}
