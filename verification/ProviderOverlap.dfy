/** A run that shows why overlapping calls need the provider's contract. */
module ProviderOverlap {
  import opened Wrappers
  import opened Fencing
  import opened ProviderModel
  import opened ProviderTheorems

  ghost predicate Reachable(start: Start, sys: System) { exists steps: seq<Step> :: Reached(start, steps) == sys }

  lemma ReachableStep(start: Start, sys: System, step: Step, after: System)
    requires Reachable(start, sys) && Apply(sys, step) == after
    ensures Reachable(start, after)
  {
    hide Apply;
    var steps: seq<Step> :| Reached(start, steps) == sys;
    assert (steps + [step])[..|steps|] == steps;
    assert Reached(start, steps + [step]) == after;
  }

  /**
   Both conditions are needed: a provider that does not deduplicate sends twice when a promoted worker looks the key up
   and calls while the first worker's call is still on its way.
   */
  lemma OverlapSendsTwice()
    ensures exists start: Start, steps: seq<Step> :: !start.honours && SendCount(Reached(start, steps).sends, 0) == 2
  {
    hide Apply, Reached, Reachable;
    FirstCallStarts();
    SecondCallStarts();
    BothCallsArrive();
    var sends := [Send(0, 10), Send(0, 20)];
    var sys := Snapshot(Subject(Running, SecondOwner(), true), SecondOwner(), [Caller(FirstOwner(), Calling), Caller(SecondOwner(), Calling)],
                        map[0 := Answered(10), 1 := Answered(20)], sends);
    assert sends[1..] == [Send(0, 20)];
    assert SendCount(sends, 0) == 2;
    assert exists steps: seq<Step> :: Reached(OverlapStart(), steps) == sys by { ReachedSomehow(OverlapStart(), sys); }
    var steps: seq<Step> :| Reached(OverlapStart(), steps) == sys;
    assert SendCount(Reached(OverlapStart(), steps).sends, 0) == 2;
  }

  lemma ReachedSomehow(start: Start, sys: System)
    requires Reachable(start, sys)
    ensures exists steps: seq<Step> :: Reached(start, steps) == sys
  {
  }

  function FirstOwner(): Fence { Fence("one", 1, 1, "a") }
  function SecondOwner(): Fence { Fence("two", 2, 2, "b") }
  function Task7(): Record { Record(Task, 7) }
  function CurrentWorld(): World { World(1, 1, map["u" := 1], map[Calendar := 1], {("u", 5)}, {}) }
  function Activities(): map<nat, Activity> { map[5 := Activity(true, 1, Some(Task7()), [])] }
  function OverlapStart(): Start { Start(Activities(), {}, CurrentWorld(), LiveFence(FirstOwner(), 1000, true), false) }

  function Subject(state: OperationState, worker: Fence, marked: bool): Operation {
    Operation(Calendar, "u", Some(Task7()), Some(Binding(5, 1)), 1, Authority(1, 1, 1), state, 0, 0,
              if state == Running then Some(worker) else None, if marked then Some(Marker(100, 2)) else None, None, None, None)
  }

  function Caller(fence: Fence, phase: Phase): Session { Session(0, fence, 0, phase) }

  function Snapshot(op: Operation, live: Fence, sessions: seq<Session>, calls: map<nat, Call>, sends: seq<Send>): System {
    System(Host(map[0 := op], Activities(), map[], {}, CurrentWorld(), LiveFence(live, 1000, true)), sessions, calls, sends, false)
  }

  function CallStarted(): System {
    Snapshot(Subject(Running, FirstOwner(), true), FirstOwner(), [Caller(FirstOwner(), Calling)], map[0 := InFlight], [])
  }

  lemma FirstCallStarts()
    ensures Reachable(OverlapStart(), CallStarted())
  {
    var start, a := OverlapStart(), FirstOwner();
    var s0 := System(Host(map[], Activities(), map[], {}, CurrentWorld(), LiveFence(a, 1000, true)), [], map[], [], false);
    var s1 := Snapshot(Subject(Queued, a, false), a, [], map[], []);
    var s2 := Snapshot(Subject(Running, a, false), a, [Caller(a, Claimed)], map[], []);
    var s3 := Snapshot(Subject(Running, a, true), a, [Caller(a, Prepared(false, None))], map[], []);
    StartIsReached(s0);
    hide Reached, Reachable, Apply;
    DispatchedNext(s0, s1);
    ReachableStep(start, s0, DispatchStep(0, NewIntent(), 0), s1);
    ClaimedNext(s1, s2, a);
    ReachableStep(start, s1, ClaimStep(a, [0], 1), s2);
    PreparedNext(s2, s3);
    ReachableStep(start, s2, PrepareStep(0, 100, 2), s3);
    InvokedNext(s3);
    ReachableStep(start, s3, InvokeStep(0), CallStarted());
  }

  function NewIntent(): Intent { Intent(Calendar, "u", Some(Task7()), Some(Binding(5, 1)), Authority(1, 1, 1)) }

  lemma DispatchedNext(s0: System, s1: System)
    requires s0 == System(Host(map[], Activities(), map[], {}, CurrentWorld(), LiveFence(FirstOwner(), 1000, true)), [], map[], [], false)
    requires s1 == Snapshot(Subject(Queued, FirstOwner(), false), FirstOwner(), [], map[], [])
    ensures Apply(s0, DispatchStep(0, NewIntent(), 0)) == s1
  {
  }

  lemma PreparedNext(s2: System, s3: System)
    requires s2 == Snapshot(Subject(Running, FirstOwner(), false), FirstOwner(), [Caller(FirstOwner(), Claimed)], map[], [])
    requires s3 == Snapshot(Subject(Running, FirstOwner(), true), FirstOwner(), [Caller(FirstOwner(), Prepared(false, None))], map[], [])
    ensures Apply(s2, PrepareStep(0, 100, 2)) == s3
  {
  }

  lemma InvokedNext(s3: System)
    requires s3 == Snapshot(Subject(Running, FirstOwner(), true), FirstOwner(), [Caller(FirstOwner(), Prepared(false, None))], map[], [])
    ensures Apply(s3, InvokeStep(0)) == CallStarted()
  {
  }

  lemma StartIsReached(s0: System)
    requires s0 == System(Host(map[], Activities(), map[], {}, CurrentWorld(), LiveFence(FirstOwner(), 1000, true)), [], map[], [], false)
    ensures Reachable(OverlapStart(), s0)
  {
    assert Initial(Activities(), {}, CurrentWorld(), LiveFence(FirstOwner(), 1000, true), false).host.activities == Activities();
    assert Reached(OverlapStart(), []) == s0;
  }

  lemma ClaimedNext(before: System, after: System, fence: Fence)
    requires 0 in before.host.operations && before.host.live.fence == fence && before.host.live.expiresAt > 1
    requires Claimable(before.host, 0, 1)
    requires after == before.(host := ClaimOne(before.host, 0, fence),
                              sessions := before.sessions + [Session(0, fence, before.host.operations[0].attempt, Claimed)])
    ensures Apply(before, ClaimStep(fence, [0], 1)) == after
  {
    hide Claimable;
    var host := ClaimOne(before.host, 0, fence);
    assert [0][1..] == [];
    assert ClaimEach(host, [], 3, fence, 1) == Claims(host, []);
    assert [0] + [] == [0];
    assert ClaimEach(before.host, [0], CLAIM_LIMIT, fence, 1) == Claims(host, [0]);
    assert Opened(host, [0], fence) == [Session(0, fence, before.host.operations[0].attempt, Claimed)];
  }

  lemma SecondCallStarts()
    requires Reachable(OverlapStart(), CallStarted())
    ensures Reachable(OverlapStart(), BothStarted())
  {
    var start, a, b := OverlapStart(), FirstOwner(), SecondOwner();
    hide Reachable;
    var calls := map[0 := InFlight];
    var s5 := Snapshot(Subject(Running, a, true), b, [Caller(a, Calling)], calls, []);
    var s6 := Snapshot(Subject(Running, b, true), b, [Caller(a, Calling), Caller(b, Claimed)], calls, []);
    var s7 := Snapshot(Subject(Running, b, true), b, [Caller(a, Calling), Caller(b, Prepared(true, None))], calls, []);
    var s8 := Snapshot(Subject(Running, b, true), b, [Caller(a, Calling), Caller(b, Cleared)], calls, []);
    Promoted(s5);
    ReachableStep(start, CallStarted(), Environment(map[], {}, CurrentWorld(), LiveFence(b, 1000, true)), s5);
    ClaimedNext(s5, s6, b);
    ReachableStep(start, s5, ClaimStep(b, [0], 1), s6);
    ReachableStep(start, s6, PrepareStep(1, 200, 4), s7);
    ReachableStep(start, s7, ReconcileStep(1, 0), s8);
    ReachableStep(start, s8, InvokeStep(1), BothStarted());
  }

  function BothStarted(): System {
    Snapshot(Subject(Running, SecondOwner(), true), SecondOwner(), [Caller(FirstOwner(), Calling), Caller(SecondOwner(), Calling)],
             map[0 := InFlight, 1 := InFlight], [])
  }

  lemma Promoted(after: System)
    requires after == CallStarted().(host := CallStarted().host.(live := LiveFence(SecondOwner(), 1000, true)))
    ensures Apply(CallStarted(), Environment(map[], {}, CurrentWorld(), LiveFence(SecondOwner(), 1000, true))) == after
  {
  }

  lemma BothCallsArrive()
    requires Reachable(OverlapStart(), BothStarted())
    ensures Reachable(OverlapStart(), BothStarted().(calls := map[0 := Answered(10), 1 := Answered(20)], sends := [Send(0, 10), Send(0, 20)]))
  {
    hide Reachable;
    var s10 := BothStarted().(calls := map[0 := Answered(10), 1 := InFlight], sends := [Send(0, 10)]);
    ReachableStep(OverlapStart(), BothStarted(), DeliverStep(0, 10), s10);
    ReachableStep(OverlapStart(), s10, DeliverStep(1, 20),
      BothStarted().(calls := map[0 := Answered(10), 1 := Answered(20)], sends := [Send(0, 10), Send(0, 20)]));
  }
}
