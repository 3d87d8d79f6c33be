/** The pipeline snapshot validator: six stages, each semantic once, and a transition graph that always ends. */
module Pipeline {
  import opened Wrappers
  import opened Distinctness

  const STAGES := 6

  datatype Semantic = Qualification | Discovery | Proposal | Negotiation | Won | Lost

  /** `shape` stands for the remaining field checks of a stage (exact keys, revision, name, array types). */
  datatype Stage = Stage(
    shape: bool, id: string, semantic: Option<Semantic>, position: int, probability: int,
    transitions: seq<string>, required: seq<string>)

  /** `shape` stands for the remaining field checks of the snapshot; `derive` gives a stage id for a semantic. */
  datatype Snapshot = Snapshot(shape: bool, orderedStageIds: seq<string>, stages: seq<Stage>)

  function Trusted(s: Semantic): set<Semantic> {
    match s
    case Qualification => {Discovery, Lost}
    case Discovery => {Proposal, Lost}
    case Proposal => {Negotiation, Lost}
    case Negotiation => {Won, Lost}
    case Won => {}
    case Lost => {}
  }

  function Required(s: Semantic): seq<string> { if s == Lost then ["lossReason"] else [] }

  predicate StageValid(snapshot: Snapshot, derive: Semantic -> string, i: nat)
    requires i < |snapshot.stages| && |snapshot.stages| == |snapshot.orderedStageIds|
  {
    var raw := snapshot.stages[i];
    && raw.shape && raw.semantic.Some? && raw.id == derive(raw.semantic.value) && raw.position == i
    && snapshot.orderedStageIds[i] == raw.id && 0 <= raw.probability <= 10_000
  }

  /** The stage an id names, among the first `n`; ids are distinct, so at most one. */
  function Lookup(stages: seq<Stage>, id: string): (r: Option<Stage>)
    ensures r.Some? ==> r.value in stages && r.value.id == id
    ensures r.None? ==> forall s <- stages :: s.id != id
    decreases |stages|
  {
    if stages == [] then None
    else if stages[0].id == id then Some(stages[0])
    else
      assert stages == [stages[0]] + stages[1..];
      Lookup(stages[1..], id)
  }

  /** A destination is trusted when it names a stage whose semantic may follow. */
  predicate Allowed(stages: seq<Stage>, from: Stage, id: string) {
    from.semantic.Some? &&
    var to := Lookup(stages, id);
    to.Some? && to.value.semantic.Some? && to.value.semantic.value in Trusted(from.semantic.value)
  }

  predicate TransitionsValid(stages: seq<Stage>, s: Stage) {
    s.semantic.Some? && (forall id <- s.transitions :: Allowed(stages, s, id)) && s.required == Required(s.semantic.value)
  }

  /** What an accepted snapshot is. */
  ghost predicate Valid(snapshot: Snapshot, derive: Semantic -> string) {
    && snapshot.shape && |snapshot.orderedStageIds| == |snapshot.stages| == STAGES && Distinct(snapshot.orderedStageIds)
    && (forall i: nat | i < STAGES :: StageValid(snapshot, derive, i) && Distinct(snapshot.stages[i].transitions))
    && (forall i, j | 0 <= i < j < STAGES :: snapshot.stages[i].semantic != snapshot.stages[j].semantic)
    && snapshot.stages[4].semantic == Some(Won) && snapshot.stages[5].semantic == Some(Lost)
    && (forall s <- snapshot.stages :: TransitionsValid(snapshot.stages, s))
  }

  /** The validator: stages in order, filling `seen`, then the positions, then the graph. */
  method Validate(snapshot: Snapshot, derive: Semantic -> string) returns (ok: bool)
    ensures ok <==> Valid(snapshot, derive)
  {
    var stages := snapshot.stages;
    if !snapshot.shape || |snapshot.orderedStageIds| != STAGES || |stages| != STAGES { return false; }
    var distinct := AllDistinct(snapshot.orderedStageIds);
    if !distinct { return false; }
    var seen: set<Semantic>, i := {}, 0;
    while i < STAGES
      invariant 0 <= i <= STAGES
      invariant forall k: nat | k < i :: StageValid(snapshot, derive, k) && Distinct(stages[k].transitions)
      invariant seen == set k | 0 <= k < i && stages[k].semantic.Some? :: stages[k].semantic.value
      invariant forall k, l | 0 <= k < l < i :: stages[k].semantic != stages[l].semantic
    {
      if !StageValid(snapshot, derive, i) { return false; }
      if stages[i].semantic.value in seen {
        return false;
      }
      distinct := AllDistinct(stages[i].transitions);
      if !distinct { return false; }
      seen := seen + {stages[i].semantic.value};
      i := i + 1;
    }
    if stages[4].semantic != Some(Won) || stages[5].semantic != Some(Lost) { return false; }
    i := 0;
    while i < STAGES
      invariant 0 <= i <= STAGES
      invariant forall s <- stages[..i] :: TransitionsValid(stages, s)
    {
      if !TransitionsValid(stages, stages[i]) {
        assert stages[i] in stages;
        return false;
      }
      i := i + 1;
    }
    assert stages[..i] == stages;
    return true;
  }

  // ---------- what acceptance promises ----------

  /** Each of the six semantics appears exactly once, won and lost last. */
  lemma EachSemanticOnce(snapshot: Snapshot, derive: Semantic -> string, s: Semantic)
    requires Valid(snapshot, derive)
    ensures exists i | 0 <= i < STAGES :: snapshot.stages[i].semantic == Some(s)
    ensures forall i, j | 0 <= i < STAGES && 0 <= j < STAGES ::
              snapshot.stages[i].semantic == Some(s) == snapshot.stages[j].semantic ==> i == j
  {
    var st := snapshot.stages;
    assert forall i: nat | i < STAGES :: StageValid(snapshot, derive, i);
    AllUsed(st[0].semantic.value, st[1].semantic.value, st[2].semantic.value, st[3].semantic.value, s);
  }

  lemma AllUsed(a: Semantic, b: Semantic, c: Semantic, d: Semantic, s: Semantic)
    requires a != b && a != c && a != d && b != c && b != d && c != d
    requires Won !in {a, b, c, d} && Lost !in {a, b, c, d}
    ensures s in {a, b, c, d, Won, Lost}
  {
  }

  /** How far a stage is along the pipeline. */
  function Rank(s: Semantic): nat {
    match s case Qualification => 0 case Discovery => 1 case Proposal => 2 case Negotiation => 3 case _ => 4
  }

  predicate Moves(stages: seq<Stage>, from: Stage, to: Stage) {
    from in stages && to in stages && to.id in from.transitions
  }

  /** Every allowed move goes strictly forward. */
  lemma MovesAdvance(snapshot: Snapshot, derive: Semantic -> string, from: Stage, to: Stage)
    requires Valid(snapshot, derive) && Moves(snapshot.stages, from, to)
    ensures from.semantic.Some? && to.semantic.Some? && to.semantic.value in Trusted(from.semantic.value)
    ensures Rank(from.semantic.value) < Rank(to.semantic.value)
  {
    assert TransitionsValid(snapshot.stages, from) && Allowed(snapshot.stages, from, to.id);
    var named := Lookup(snapshot.stages, to.id).value;
    SameIdSameStage(snapshot, derive, named, to);
  }

  lemma SameIdSameStage(snapshot: Snapshot, derive: Semantic -> string, a: Stage, b: Stage)
    requires Valid(snapshot, derive) && a in snapshot.stages && b in snapshot.stages && a.id == b.id
    ensures a == b
  {
    var i: nat :| i < |snapshot.stages| && snapshot.stages[i] == a;
    var j: nat :| j < |snapshot.stages| && snapshot.stages[j] == b;
    assert StageValid(snapshot, derive, i) && StageValid(snapshot, derive, j);
    assert snapshot.orderedStageIds[i] == snapshot.orderedStageIds[j];
  }

  ghost predicate Path(stages: seq<Stage>, path: seq<Stage>) {
    |path| >= 1 && (forall s <- path :: s in stages) && forall i | 0 <= i < |path| - 1 :: Moves(stages, path[i], path[i + 1])
  }

  lemma FrontIsPath(stages: seq<Stage>, path: seq<Stage>)
    requires Path(stages, path) && |path| > 1
    ensures Path(stages, path[..|path| - 1])
  {
    hide Moves;
    var front := path[..|path| - 1];
    forall i | 0 <= i < |front| - 1 ensures Moves(stages, front[i], front[i + 1]) {
      assert Moves(stages, path[i], path[i + 1]);
    }
    assert forall s <- front :: s in path;
  }

  lemma {:induction false} PathAdvances(snapshot: Snapshot, derive: Semantic -> string, path: seq<Stage>)
    requires Valid(snapshot, derive) && Path(snapshot.stages, path)
    ensures path[0].semantic.Some? && path[|path| - 1].semantic.Some?
    ensures Rank(path[0].semantic.value) + (|path| - 1) <= Rank(path[|path| - 1].semantic.value)
    decreases |path|
  {
    if |path| == 1 {
      assert path[0] in snapshot.stages && TransitionsValid(snapshot.stages, path[0]);
    } else {
      hide Valid, Moves;
      var front := path[..|path| - 1];
      assert Moves(snapshot.stages, path[|path| - 2], path[|path| - 1]);
      FrontIsPath(snapshot.stages, path);
      hide Path;
      PathAdvances(snapshot, derive, front);
      MovesAdvance(snapshot, derive, path[|path| - 2], path[|path| - 1]);
    }
  }

  /** From any stage every sequence of allowed moves ends after at most four, and never returns to a stage. */
  lemma EveryDealCloses(snapshot: Snapshot, derive: Semantic -> string, path: seq<Stage>)
    requires Valid(snapshot, derive) && Path(snapshot.stages, path)
    ensures |path| - 1 <= 4
    ensures |path| > 1 ==> path[0] != path[|path| - 1]
  {
    PathAdvances(snapshot, derive, path);
  }

  /** Won and lost have no exit. */
  lemma ClosedStagesHaveNoExit(snapshot: Snapshot, derive: Semantic -> string, s: Stage)
    requires Valid(snapshot, derive) && s in snapshot.stages && (s.semantic == Some(Won) || s.semantic == Some(Lost))
    ensures forall id: string :: id !in s.transitions
  {
    assert TransitionsValid(snapshot.stages, s);
  }

  // ---------- acceptance, field by field ----------

  /** A deal moves to the next open stage, or is lost; a negotiation may also be won. */
  predicate MayFollow(from: Semantic, to: Semantic) {
    match from
    case Qualification => to == Discovery || to == Lost
    case Discovery => to == Proposal || to == Lost
    case Proposal => to == Negotiation || to == Lost
    case Negotiation => to == Won || to == Lost
    case _ => false
  }

  /** Stage `i`: its own id at its own position, a probability in basis points, distinct exits to stages that may follow. */
  ghost predicate StageFits(snapshot: Snapshot, derive: Semantic -> string, i: nat)
    requires i < |snapshot.stages| == |snapshot.orderedStageIds|
  {
    var s := snapshot.stages[i];
    && s.shape && s.semantic.Some? && s.id == derive(s.semantic.value) && s.id == snapshot.orderedStageIds[i] && s.position == i
    && -1 < s.probability < 10_001 && Distinct(s.transitions)
    && s.required == (if s.semantic == Some(Lost) then ["lossReason"] else [])
    && forall id <- s.transitions :: exists to <- snapshot.stages :: LeadsTo(s, to, id)
  }

  ghost predicate LeadsTo(from: Stage, to: Stage, id: string) {
    from.semantic.Some? && to.id == id && to.semantic.Some? && MayFollow(from.semantic.value, to.semantic.value)
  }

  lemma TrustedMayFollow(from: Semantic, to: Semantic)
    ensures to in Trusted(from) <==> MayFollow(from, to)
  {
  }

  /** With distinct stage ids a destination is allowed exactly when some stage of that id may follow. */
  lemma AllowedLeadsSomewhere(stages: seq<Stage>, from: Stage, id: string)
    requires forall a <- stages, b <- stages :: a.id == b.id ==> a == b
    ensures Allowed(stages, from, id) <==> exists to <- stages :: LeadsTo(from, to, id)
  {
    hide Trusted, MayFollow;
    var named := Lookup(stages, id);
    if named.Some? && from.semantic.Some? && named.value.semantic.Some? {
      TrustedMayFollow(from.semantic.value, named.value.semantic.value);
      if Allowed(stages, from, id) { assert LeadsTo(from, named.value, id); }
    }
    if to :| to in stages && LeadsTo(from, to, id) { assert named.Some? && named.value == to; }
  }

  lemma PositionedIdsAreDistinct(snapshot: Snapshot)
    requires |snapshot.orderedStageIds| == |snapshot.stages| && Distinct(snapshot.orderedStageIds)
    requires forall i | 0 <= i < |snapshot.stages| :: snapshot.stages[i].id == snapshot.orderedStageIds[i]
    ensures forall a <- snapshot.stages, b <- snapshot.stages :: a.id == b.id ==> a == b
  {
    forall a <- snapshot.stages, b <- snapshot.stages | a.id == b.id ensures a == b {
      var i: nat :| i < |snapshot.stages| && snapshot.stages[i] == a;
      var j: nat :| j < |snapshot.stages| && snapshot.stages[j] == b;
    }
  }

  /** A snapshot is accepted exactly when its six distinct stages fit, no semantic repeats, and won and lost come last. */
  lemma SnapshotFieldByField(snapshot: Snapshot, derive: Semantic -> string)
    ensures Valid(snapshot, derive) <==>
              && snapshot.shape && |snapshot.orderedStageIds| == 6 && |snapshot.stages| == 6 && Distinct(snapshot.orderedStageIds)
              && (forall i: nat | i < 6 :: StageFits(snapshot, derive, i))
              && (forall i, j | 0 <= i < j < 6 :: snapshot.stages[i].semantic != snapshot.stages[j].semantic)
              && snapshot.stages[4].semantic == Some(Won) && snapshot.stages[5].semantic == Some(Lost)
  {
    if |snapshot.orderedStageIds| == 6 && |snapshot.stages| == 6 && Distinct(snapshot.orderedStageIds) {
      StagesAreSix(snapshot);
      if forall k: nat | k < 6 :: snapshot.stages[k].id == snapshot.orderedStageIds[k] {
        forall i: nat | i < 6
          ensures StageFits(snapshot, derive, i) <==>
                  StageValid(snapshot, derive, i) && Distinct(snapshot.stages[i].transitions) && TransitionsValid(snapshot.stages, snapshot.stages[i])
        {
          StageFitsExactly(snapshot, derive, i);
        }
      } else {
        MisplacedIdsFail(snapshot, derive);
      }
    }
    hide StageFits, StageValid, TransitionsValid, Distinct;
  }

  lemma MisplacedIdsFail(snapshot: Snapshot, derive: Semantic -> string)
    requires |snapshot.stages| == |snapshot.orderedStageIds| == 6
    requires exists k: nat :: k < 6 && snapshot.stages[k].id != snapshot.orderedStageIds[k]
    ensures !(forall i: nat | i < 6 :: StageFits(snapshot, derive, i)) && !Valid(snapshot, derive)
  {
    var k: nat :| k < 6 && snapshot.stages[k].id != snapshot.orderedStageIds[k];
    assert !StageFits(snapshot, derive, k) && !StageValid(snapshot, derive, k);
    hide StageFits, StageValid, TransitionsValid, Distinct;
  }

  lemma StagesAreSix(snapshot: Snapshot)
    requires |snapshot.stages| == 6
    ensures (forall s <- snapshot.stages :: TransitionsValid(snapshot.stages, s)) <==>
            (forall i: nat | i < 6 :: TransitionsValid(snapshot.stages, snapshot.stages[i]))
  {
    hide TransitionsValid;
  }

  lemma StageFitsExactly(snapshot: Snapshot, derive: Semantic -> string, i: nat)
    requires i < |snapshot.stages| == |snapshot.orderedStageIds| && Distinct(snapshot.orderedStageIds)
    requires forall k | 0 <= k < |snapshot.stages| :: snapshot.stages[k].id == snapshot.orderedStageIds[k]
    ensures StageFits(snapshot, derive, i) <==>
            StageValid(snapshot, derive, i) && Distinct(snapshot.stages[i].transitions) && TransitionsValid(snapshot.stages, snapshot.stages[i])
  {
    PositionedIdsAreDistinct(snapshot);
    var s := snapshot.stages[i];
    forall id <- s.transitions ensures Allowed(snapshot.stages, s, id) <==> exists to <- snapshot.stages :: LeadsTo(s, to, id) {
      AllowedLeadsSomewhere(snapshot.stages, s, id);
    }
    hide Allowed, LeadsTo;
  }
}
