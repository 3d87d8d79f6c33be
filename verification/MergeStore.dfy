/** The merge over mutable tables: lock every relation under one budget, rewrite, settle, or restore. */
module MergeStore {
  import opened Wrappers
  import opened MergeModel
  import opened MergeSafety
  import MergeReferences

  class Store {
    var rows: Rows
    var lineage: map<(Target, nat), nat>
    var impacts: set<Impact>
    var watermark: nat

    function Snapshot(): Db
      reads this
    {
      Db(rows, lineage, impacts, watermark)
    }

    constructor (db: Db)
      ensures Snapshot() == db
    {
      rows, lineage, impacts, watermark := db.rows, db.lineage, db.impacts, db.watermark;
    }

    /** Relation by relation, each taking its share of what remains of the budget. */
    method LockMergeImpacts(relations: seq<Relation>, loser: nat) returns (impacted: Option<seq<map<nat, nat>>>)
      ensures impacted == LockImpacts(rows, relations, loser, IMPACT_LIMIT)
      ensures impacted.Some? <==> Total(rows, relations, loser) <= IMPACT_LIMIT
    {
      hide Impacted, Located, Total, With, LockImpacts;
      BudgetIsShared(rows, relations, loser, IMPACT_LIMIT);
      var found: seq<map<nat, nat>>, remaining, i := [], IMPACT_LIMIT, 0;
      assert relations[0..] == relations;
      WithNothing(LockImpacts(rows, relations, loser, IMPACT_LIMIT));
      while i < |relations|
        invariant i <= |relations| && remaining >= 0
        invariant LockImpacts(rows, relations, loser, IMPACT_LIMIT) == With(found, LockImpacts(rows, relations[i..], loser, remaining))
      {
        var located := Impacted(rows, relations[i], loser);
        LockUnfolds(rows, relations[i..], loser, remaining);
        WithRefused(found);
        ghost var rest := relations[i..];
        assert rest[0] == relations[i] && rest[1..] == relations[i + 1..];
        if |located| > remaining { return None; }
        remaining := remaining - |located|;
        WithOneMore(found, located, LockImpacts(rows, relations[i + 1..], loser, remaining));
        found := found + [located];
        i := i + 1;
      }
      LockEnds(rows, relations[i..], loser, remaining);
      WithEnd(found);
      return Some(found);
    }

    static function With(found: seq<map<nat, nat>>, rest: Option<seq<map<nat, nat>>>): Option<seq<map<nat, nat>>> {
      if rest.None? then None else Some(found + rest.value)
    }

    static lemma LockUnfolds(rows: Rows, relations: seq<Relation>, loser: nat, remaining: nat)
      requires relations != []
      ensures var located := Impacted(rows, relations[0], loser);
              LockImpacts(rows, relations, loser, remaining) ==
                if |located| > remaining then None else With([located], LockImpacts(rows, relations[1..], loser, remaining - |located|))
    {
      hide Impacted;
    }

    static lemma LockEnds(rows: Rows, relations: seq<Relation>, loser: nat, remaining: nat)
      requires relations == []
      ensures LockImpacts(rows, relations, loser, remaining) == Some([])
    {
    }

    static lemma WithRefused(found: seq<map<nat, nat>>)
      ensures With(found, None).None?
    {
    }

    static lemma WithNothing(rest: Option<seq<map<nat, nat>>>)
      ensures With([], rest) == rest
    {
      if rest.Some? { assert [] + rest.value == rest.value; }
    }

    static lemma WithEnd(found: seq<map<nat, nat>>)
      ensures With(found, Some([])) == Some(found)
    {
      assert found + [] == found;
    }

    static lemma WithOneMore(found: seq<map<nat, nat>>, one: map<nat, nat>, rest: Option<seq<map<nat, nat>>>)
      ensures With(found, With([one], rest)) == With(found + [one], rest)
    {
      if rest.Some? { assert found + ([one] + rest.value) == (found + [one]) + rest.value; }
    }

    /** Rewrites relation after relation; on a stale row some are rewritten, and the caller must restore. */
    method RewriteRelations(relations: seq<Relation>, located: seq<map<nat, nat>>, id: nat, loser: nat, winner: nat) returns (ok: bool)
      requires |relations| == |located|
      modifies this
      ensures Snapshot() == old(Snapshot()).(rows := rows)
      ensures RewriteAll(old(rows), relations, located, id, loser, winner) == if ok then Some(rows) else None
    {
      var i := 0;
      assert relations[0..] == relations && located[0..] == located;
      while i < |relations|
        invariant i <= |relations|
        invariant Snapshot() == old(Snapshot()).(rows := rows)
        invariant RewriteAll(old(rows), relations, located, id, loser, winner) ==
                  RewriteAll(rows, relations[i..], located[i..], id, loser, winner)
      {
        ghost var rest, restLocated := relations[i..], located[i..];
        assert rest[0] == relations[i] && rest[1..] == relations[i + 1..];
        assert restLocated[0] == located[i] && restLocated[1..] == located[i + 1..];
        if !Unmoved(rows, relations[i], located[i]) { return false; }
        rows := RedirectAll(rows, relations[i], located[i], id, loser, winner);
        i := i + 1;
      }
      return true;
    }

    method Restore(saved: Db)
      modifies this
      ensures Snapshot() == saved
    {
      rows, lineage, impacts, watermark := saved.rows, saved.lineage, saved.impacts, saved.watermark;
    }

    /** The whole merge: a refusal leaves every table as it was. */
    method MergeRecords(q: Request) returns (refusal: Option<Refusal>, counts: seq<nat>)
      modifies this
      ensures Merge(old(Snapshot()), q) == if refusal.None? then Committed(Snapshot()) else Refused(refusal.value)
      ensures refusal.Some? ==> Snapshot() == old(Snapshot())
      ensures refusal.None? && MergeReferences.OnSchema(old(rows)) ==> forall k <- old(rows) ::
                k in rows && MergeReferences.Followed(old(rows)[k], rows[k], q.target, q.loser, q.winner)
      ensures refusal.None? ==> |counts| == |Relations(q.target)|
      ensures refusal.None? ==> forall i | 0 <= i < |counts| :: counts[i] == |Located(old(rows), Relations(q.target)[i], q.loser)|
    {
      hide Admission, Relations, Impacted, Located, RewriteAll, LockImpacts, Total, Settle, MergeReferences.OnSchema, MergeReferences.Followed;
      var saved := Snapshot();
      counts := [];
      refusal := Admission(saved, q);
      if refusal.Some? { return; }
      var relations := Relations(q.target);
      var located := LockMergeImpacts(relations, q.loser);
      if located.None? { return Some(Forbidden), []; }
      var rewritten := RewriteRelations(relations, located.value, watermark + 1, q.loser, q.winner);
      if !rewritten {
        Restore(saved);
        return Some(Stale), [];
      }
      if (q.target, q.loser) in lineage {
        Restore(saved);
        return Some(Conflict), [];
      }
      var settled := Settle(saved, rows, q, watermark + 1);
      Restore(settled);
      counts := CountsOf(located.value);
      LockedImpacts(saved.rows, relations, q.loser, IMPACT_LIMIT);
      CountsAreLocated(saved.rows, relations, located.value, q.loser);
      ReferencesFollowed(saved, q);
    }

    static lemma ReferencesFollowed(db: Db, q: Request)
      ensures Merge(db, q).Committed? && MergeReferences.OnSchema(db.rows) ==> forall k <- db.rows ::
                k in Merge(db, q).db.rows && MergeReferences.Followed(db.rows[k], Merge(db, q).db.rows[k], q.target, q.loser, q.winner)
    {
      if Merge(db, q).Committed? && MergeReferences.OnSchema(db.rows) {
        forall k <- db.rows
          ensures k in Merge(db, q).db.rows && MergeReferences.Followed(db.rows[k], Merge(db, q).db.rows[k], q.target, q.loser, q.winner)
        {
          MergeReferences.EveryReferenceFollows(db, q, k);
        }
      }
    }

    static function CountsOf(located: seq<map<nat, nat>>): (r: seq<nat>)
      ensures |r| == |located| && forall i | 0 <= i < |located| :: r[i] == |located[i]|
    {
      seq(|located|, i requires 0 <= i < |located| => |located[i]|)
    }

    static lemma CountsAreLocated(rows: Rows, relations: seq<Relation>, located: seq<map<nat, nat>>, loser: nat)
      requires |located| == |relations| && forall i | 0 <= i < |relations| :: located[i] == Impacted(rows, relations[i], loser)
      ensures forall i | 0 <= i < |relations| :: CountsOf(located)[i] == |Located(rows, relations[i], loser)|
    {
      hide Located, Impacted;
      forall i | 0 <= i < |relations| ensures CountsOf(located)[i] == |Located(rows, relations[i], loser)| {
        ImpactedAreLocated(rows, relations[i], loser);
      }
    }
  }
}
