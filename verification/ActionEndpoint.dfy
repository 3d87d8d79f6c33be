/** The action endpoint over mutable tables: one request's transaction, and the handler that commits or rolls it back. */
module ActionEndpoint {
  import opened Wrappers
  import opened ActionIdempotency

  /** One request's transaction over the committed rows it sees. */
  class Transaction {
    var rows: map<Identity, Row>
    var replay: Option<Data>

    constructor (committed: map<Identity, Row>)
      ensures rows == committed && replay == None
    {
      rows, replay := committed, None;
    }

    /** `reserve`: insert a pending row or read the one that is there, and note its data for replay. */
    method ReserveRow(identity: Identity, digest: Digest) returns (ok: bool)
      requires replay.None?
      modifies this
      ensures ok <==> ReservedPhase(old(rows), Request(identity, digest, Waiting)).Reserved?
      ensures ok ==> ReservedPhase(old(rows), Request(identity, digest, Waiting)) == Reserved(replay)
      ensures rows == if identity in old(rows) then old(rows) else old(rows)[identity := Row(digest, Pending)]
      ensures ok && replay.None? ==> rows[identity] == Row(digest, Pending)
    {
      if identity !in rows { rows := rows[identity := Row(digest, Pending)]; }
      var row := rows[identity];
      if row.digest != digest { return false; }
      match row.result {
        case Succeeded(data) => replay := Some(data);
        case Pending =>
      }
      return true;
    }

    /** `complete`: only this transaction's own pending row can be finished. */
    method CompleteRow(identity: Identity, digest: Digest, data: Data) returns (ok: bool)
      modifies this
      ensures replay == old(replay)
      ensures ok <==> identity in old(rows) && old(rows)[identity] == Row(digest, Pending)
      ensures rows == if ok then old(rows)[identity := Row(digest, Succeeded(data))] else old(rows)
    {
      if identity !in rows || rows[identity] != Row(digest, Pending) { return false; }
      rows := rows[identity := Row(digest, Succeeded(data))];
      return true;
    }
  }

  /** The steps one request goes through when its handler is not interrupted. */
  function Handling(rid: nat, identity: Identity, digest: Digest, outcome: Option<Data>): seq<Step> {
    [Arrive(identity, digest), Reserve(rid), Execute(rid, outcome), Commit(rid)]
  }

  function AfterHandling(sys: System, identity: Identity, digest: Digest, outcome: Option<Data>): System {
    var rid := |sys.requests|;
    Apply(Apply(Apply(Apply(sys, Arrive(identity, digest)), Reserve(rid)), Execute(rid, outcome)), Commit(rid))
  }

  lemma HandlingIsARun(sys: System, identity: Identity, digest: Digest, outcome: Option<Data>)
    ensures Run(sys, Handling(|sys.requests|, identity, digest, outcome)) == AfterHandling(sys, identity, digest, outcome)
  {
    hide Apply;
    var p := Handling(|sys.requests|, identity, digest, outcome);
    RunOne(sys, [], p[0]);
    RunOne(sys, [p[0]], p[1]);
    RunOne(sys, [p[0], p[1]], p[2]);
    RunOne(sys, [p[0], p[1], p[2]], p[3]);
    assert [] + [p[0]] == [p[0]] && [p[0]] + [p[1]] == [p[0], p[1]] && [p[0], p[1]] + [p[2]] == [p[0], p[1], p[2]];
    assert p == [p[0], p[1], p[2]] + [p[3]];
  }

  // ---------- what a request is answered ----------

  /** Some other request of this identity has reserved and not ended. */
  ghost predicate Taken(sys: System, identity: Identity) {
    exists r <- sys.requests :: r.identity == identity && (r.phase.Reserved? || r.phase.Executed?)
  }

  /** The request ended with this answer; the committed rows and effects are these. */
  ghost predicate EndedWith(sys: System, after: System, phase: Phase, rows: map<Identity, Row>, effects: seq<Effect>) {
    && |after.requests| == |sys.requests| + 1 && after.requests[|sys.requests|].phase == phase
    && after.requests[..|sys.requests|] == sys.requests
    && after.rows == rows && after.effects == effects
  }

  /**
   Every answer of an uninterrupted request, by what it finds.  It waits only for an open request of its own identity; other
   input conflicts; a handler that fails leaves nothing; a first run commits row and effect; a repeated one answers with the
   stored data, except that import commit and cancel, export cancel and merge fail, and that an import dry run and an
   export creation commit a second effect and answer with its data.
   */
  lemma RequestsAnswerAsTheyFind(sys: System, identity: Identity, digest: Digest, outcome: Option<Data>)
    requires Sound(sys)
    ensures var after, rid := AfterHandling(sys, identity, digest, outcome), |sys.requests|;
            if Taken(sys, identity) then EndedWith(sys, after, Waiting, sys.rows, sys.effects)
            else if identity in sys.rows && sys.rows[identity].digest != digest then
              EndedWith(sys, after, Finished(Conflict), sys.rows, sys.effects)
            else if outcome.None? then EndedWith(sys, after, Finished(Failed), sys.rows, sys.effects)
            else if identity !in sys.rows then
              EndedWith(sys, after, Finished(Ok(outcome.value)), sys.rows[identity := Row(digest, Succeeded(outcome.value))],
                sys.effects + [Effect(identity, digest, outcome.value, rid)])
            else if identity.action.ImportCommit? || identity.action.ImportCancel? || identity.action.ExportCancel? || identity.action.MergeCommit? then
              EndedWith(sys, after, Finished(Failed), sys.rows, sys.effects)
            else if identity.action.ImportDryRun? || identity.action.ExportCreate? then
              EndedWith(sys, after, Finished(Ok(outcome.value)), sys.rows, sys.effects + [Effect(identity, digest, outcome.value, rid)])
            else
              && sys.rows[identity].result.Succeeded?
              && EndedWith(sys, after, Finished(Ok(sys.rows[identity].result.data)), sys.rows, sys.effects)
  {
    hide RequestSound, OneHolder, EffectsAnswered, OneEffectEach, Answers;
    var arrived := Apply(sys, Arrive(identity, digest));
    WaitsForItsOwn(sys, identity, digest);
    hide Blocked, EffectsExact;
    if identity in sys.rows { CommittedRowsAreFinished(sys, identity); }
    hide Sound, Taken;
  }

  lemma CommittedRowsAreFinished(sys: System, identity: Identity)
    requires Sound(sys) && identity in sys.rows
    ensures sys.rows[identity].result.Succeeded?
  {
    hide RequestSound, OneHolder, EffectsAnswered, OneEffectEach, Answers;
  }

  lemma WaitsForItsOwn(sys: System, identity: Identity, digest: Digest)
    ensures Blocked(Apply(sys, Arrive(identity, digest)), |sys.requests|) <==> Taken(sys, identity)
  {
    var arrived := Apply(sys, Arrive(identity, digest));
    if Taken(sys, identity) {
      var k :| 0 <= k < |sys.requests| && sys.requests[k].identity == identity && (sys.requests[k].phase.Reserved? || sys.requests[k].phase.Executed?);
      assert arrived.requests[k] == sys.requests[k];
    }
    if other :| 0 <= other < |arrived.requests| && other != |sys.requests| && Holding(arrived.requests[other]) && arrived.requests[other].identity == identity {
      assert sys.requests[other] in sys.requests;
    }
  }

  class Endpoint {
    var rows: map<Identity, Row>
    var effects: seq<Effect>
    var requests: seq<Request>

    function Snapshot(): System
      reads this
    {
      System(rows, effects, requests)
    }

    constructor ()
      ensures Snapshot() == Initial()
    {
      rows, effects, requests := map[], [], [];
    }

    method Finish(rid: nat, phase: Phase)
      requires rid < |requests|
      modifies this
      ensures Snapshot() == With(old(Snapshot()), rid, phase)
    {
      requests := requests[rid := requests[rid].(phase := phase)];
    }

    /**
     One request from arrival to its answer.  `outcome` is what running the action would come to.  It waits when another
     transaction holds its identity, and otherwise commits or rolls back its own transaction.
     */
    method Handle(identity: Identity, digest: Digest, outcome: Option<Data>) returns (response: Option<Response>)
      modifies this
      ensures Snapshot() == Run(old(Snapshot()), Handling(|old(requests)|, identity, digest, outcome))
      ensures |requests| == |old(requests)| + 1
      ensures requests[|old(requests)|].phase == if response.None? then Waiting else Finished(response.value)
    {
      ghost var before := Snapshot();
      HandlingIsARun(before, identity, digest, outcome);
      var rid := |requests|;
      requests := requests + [Request(identity, digest, Waiting)];
      if exists other | 0 <= other < |requests| :: other != rid && Holding(requests[other]) && requests[other].identity == identity {
        return None;
      }
      hide Run;
      var transaction := new Transaction(rows);
      var reserved := transaction.ReserveRow(identity, digest);
      if !reserved {
        Finish(rid, Finished(Conflict));
        return Some(Conflict);
      }
      var handled := Handled(identity.action, transaction.replay, outcome);
      if !handled.Executed? {
        Finish(rid, Finished(Failed));
        return Some(Failed);
      }
      if transaction.replay.None? {
        var completed := transaction.CompleteRow(identity, digest, handled.data);
        CompletingReplaces(rows, identity, digest, handled.data);
        rows := transaction.rows;
      }
      if transaction.replay.None? || Replayed(identity.action) == RunsAgain {
        effects := effects + [Effect(identity, digest, handled.data, rid)];
      }
      Finish(rid, Finished(Ok(handled.data)));
      return Some(Ok(handled.data));
    }
  }

  /** Inserting the reservation and then finishing it stores the finished row. */
  lemma CompletingReplaces(rows: map<Identity, Row>, identity: Identity, digest: Digest, data: Data)
    ensures rows[identity := Row(digest, Pending)][identity := Row(digest, Succeeded(data))] == rows[identity := Row(digest, Succeeded(data))]
  {
  }
}
