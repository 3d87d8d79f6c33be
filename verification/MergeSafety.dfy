/** A committed merge conserves pointers, and any sequence of merges leaves a forest. */
module MergeSafety {
  import opened Wrappers
  import opened MergeModel

  ghost predicate DistinctTables(relations: seq<Relation>) {
    forall i, j :: 0 <= i < j < |relations| ==> relations[i].table != relations[j].table
  }

  lemma RelationsUseDistinctTables(t: Target)
    ensures DistinctTables(Relations(t))
    ensures forall r <- Relations(t) :: r.table != Accounts && r.table != TableOf(t)
  {
  }

  // ---------- the budget ----------

  /** A relation locks exactly the records that point to the loser, each with the revision it has. */
  lemma ImpactedAreLocated(rows: Rows, r: Relation, loser: nat)
    ensures Impacted(rows, r, loser).Keys == Located(rows, r, loser)
    ensures forall id <- Impacted(rows, r, loser) :: Impacted(rows, r, loser)[id] == rows[(r.table, id)].revision
    ensures |Impacted(rows, r, loser)| == |Located(rows, r, loser)|
  {
    hide Located;
    var m := Impacted(rows, r, loser);
    assert m.Keys == Located(rows, r, loser);
    assert |m.Keys| == |m|;
  }

  /** What was locked is what each relation locks. */
  lemma {:induction false} LockedImpacts(rows: Rows, relations: seq<Relation>, loser: nat, remaining: nat)
    ensures var locked := LockImpacts(rows, relations, loser, remaining);
            locked.Some? ==> forall i | 0 <= i < |relations| :: locked.value[i] == Impacted(rows, relations[i], loser)
    decreases |relations|
  {
    hide Impacted;
    if relations != [] {
      var located := Impacted(rows, relations[0], loser);
      if |located| <= remaining { LockedImpacts(rows, relations[1..], loser, remaining - |located|); }
    }
  }

  function Total(rows: Rows, relations: seq<Relation>, loser: nat): nat
    decreases |relations|
  {
    if relations == [] then 0 else |Located(rows, relations[0], loser)| + Total(rows, relations[1..], loser)
  }

  /** The budget is shared: locking succeeds exactly when all relations together fit into it. */
  lemma {:induction false} BudgetIsShared(rows: Rows, relations: seq<Relation>, loser: nat, remaining: nat)
    ensures LockImpacts(rows, relations, loser, remaining).Some? <==> Total(rows, relations, loser) <= remaining
    decreases |relations|
  {
    hide Located, Impacted;
    if relations != [] {
      var located := Impacted(rows, relations[0], loser);
      ImpactedAreLocated(rows, relations[0], loser);
      if |located| <= remaining {
        BudgetIsShared(rows, relations[1..], loser, remaining - |located|);
      }
    }
  }

  // ---------- the rewrite ----------

  /** The relation whose table a row lives in. */
  function RelationOf(relations: seq<Relation>, table: Table): (r: Option<Relation>)
    ensures r.Some? ==> r.value in relations && r.value.table == table
    ensures r.None? ==> forall x <- relations :: x.table != table
    decreases |relations|
  {
    if relations == [] then None
    else if relations[0].table == table then Some(relations[0])
    else
      assert relations == [relations[0]] + relations[1..];
      RelationOf(relations[1..], table)
  }

  /** What one merge makes of one related row: redirected once if it pointed to the loser, untouched otherwise. */
  function Rewritten(rows: Rows, relations: seq<Relation>, lineage: nat, loser: nat, winner: nat, k: (Table, nat)): Row
    requires k in rows
  {
    var r := RelationOf(relations, k.0);
    if r.Some? && Points(rows[k], r.value, loser) then Redirect(rows[k], r.value, lineage, loser, winner) else rows[k]
  }

  lemma {:induction false} RewriteAllShape(
    start: Rows, rows: Rows, relations: seq<Relation>, located: seq<map<nat, nat>>, lineage: nat, loser: nat, winner: nat)
    requires DistinctTables(relations) && |relations| == |located|
    requires forall i | 0 <= i < |relations| :: located[i] == Impacted(start, relations[i], loser)
    requires start.Keys == rows.Keys && forall k <- rows, r <- relations :: k.0 == r.table ==> rows[k] == start[k]
    ensures var after := RewriteAll(rows, relations, located, lineage, loser, winner);
            && after.Some? && after.value.Keys == rows.Keys
            && forall k <- rows :: after.value[k] ==
                 (if RelationOf(relations, k.0).Some? then Rewritten(start, relations, lineage, loser, winner, k) else rows[k])
    decreases |relations|
  {
    if relations != [] {
      hide Impacted, Redirect, Points, Located, Unmoved;
      var first, rest := relations[0], relations[1..];
      OtherTables(relations);
      OneRelationShape(start, rows, first, lineage, loser, winner);
      var one := RedirectAll(rows, first, located[0], lineage, loser, winner);
      RewriteAllShape(start, one, rest, located[1..], lineage, loser, winner);
      assert RewriteAll(rows, relations, located, lineage, loser, winner) == RewriteAll(one, rest, located[1..], lineage, loser, winner);
      hide RewriteAll;
      forall k <- rows ensures RelationOf(rest, k.0).Some? ==> k.0 != first.table {}
    }
  }

  lemma OtherTables(relations: seq<Relation>)
    requires relations != [] && DistinctTables(relations)
    ensures DistinctTables(relations[1..]) && forall r <- relations[1..] :: r.table != relations[0].table
  {
  }

  lemma OneRelationShape(start: Rows, rows: Rows, r: Relation, lineage: nat, loser: nat, winner: nat)
    requires start.Keys == rows.Keys && forall k <- rows :: k.0 == r.table ==> rows[k] == start[k]
    ensures Unmoved(rows, r, Impacted(start, r, loser))
    ensures var one := RedirectAll(rows, r, Impacted(start, r, loser), lineage, loser, winner);
            forall k <- rows :: one[k] ==
              if k.0 == r.table && Points(start[k], r, loser) then Redirect(start[k], r, lineage, loser, winner) else rows[k]
  {
    ImpactedAreLocated(start, r, loser);
    hide Impacted;
    forall id <- Impacted(start, r, loser) ensures (r.table, id) in rows {
      assert id in Located(start, r, loser);
    }
    forall k <- rows | k.0 == r.table ensures k.1 in Impacted(start, r, loser) <==> Points(start[k], r, loser) {
      assert k == (r.table, k.1);
    }
  }

  /** All rows after a merge, row by row. */
  function MergedRows(rows: Rows, q: Request, lineage: nat, k: (Table, nat)): Row
    requires k in rows
  {
    if k == (TableOf(q.target), q.winner) then Survived(rows[k], lineage)
    else if k == (TableOf(q.target), q.loser) then MergedRow(rows[k], lineage, q.winner)
    else Rewritten(rows, Relations(q.target), lineage, q.loser, q.winner, k)
  }

  /** What a committed merge is, row by row. */
  ghost predicate MergedInto(db: Db, after: Db, q: Request) {
    && after.watermark == db.watermark + 1
    && after.rows.Keys == db.rows.Keys
    && (forall k <- db.rows :: after.rows[k] == MergedRows(db.rows, q, after.watermark, k))
    && after.lineage == db.lineage[(q.target, q.loser) := q.winner]
    && after.impacts == db.impacts + LinesOf(db.rows, Relations(q.target), q.loser, after.watermark)
  }

  /** A merge commits exactly when it is admitted, fits the budget and the loser was not merged before. */
  lemma MergeCommitsExactly(db: Db, q: Request)
    ensures var result := Merge(db, q);
            && (result.Committed? <==> Admission(db, q).None? && Total(db.rows, Relations(q.target), q.loser) <= IMPACT_LIMIT &&
                                       (q.target, q.loser) !in db.lineage)
            && (result.Committed? ==> MergedInto(db, result.db, q))
  {
    var relations := Relations(q.target);
    var lineage := db.watermark + 1;
    RelationsUseDistinctTables(q.target);
    BudgetIsShared(db.rows, relations, q.loser, IMPACT_LIMIT);
    hide Relations, Admission, Impacted, LockImpacts;
    LockedImpacts(db.rows, relations, q.loser, IMPACT_LIMIT);
    var located := LockImpacts(db.rows, relations, q.loser, IMPACT_LIMIT);
    if Admission(db, q).None? && located.Some? {
      AdmittedExist(db, q);
      RewriteAllShape(db.rows, db.rows, relations, located.value, lineage, q.loser, q.winner);
      var rewritten := RewriteAll(db.rows, relations, located.value, lineage, q.loser, q.winner).value;
      SettledRows(db, rewritten, q, lineage);
    }
  }

  lemma AdmittedExist(db: Db, q: Request)
    requires Admission(db, q).None?
    ensures q.winner != q.loser
    ensures var w, l := (TableOf(q.target), q.winner), (TableOf(q.target), q.loser);
            w in db.rows && l in db.rows && db.rows[w].status == Active && db.rows[l].status == Active
  {
  }

  lemma SettledRows(db: Db, rewritten: Rows, q: Request, lineage: nat)
    requires lineage == db.watermark + 1 && rewritten.Keys == db.rows.Keys && q.winner != q.loser
    requires (TableOf(q.target), q.winner) in db.rows && (TableOf(q.target), q.loser) in db.rows
    requires forall k <- db.rows :: rewritten[k] ==
               if RelationOf(Relations(q.target), k.0).Some? then Rewritten(db.rows, Relations(q.target), lineage, q.loser, q.winner, k)
               else db.rows[k]
    ensures MergedInto(db, Settle(db, rewritten, q, lineage), q)
  {
    RelationsUseDistinctTables(q.target);
    hide Relations;
  }

  /** Were two relations on one table, a row pointing through both would be locked at a revision its first rewrite ends. */
  lemma SharedTableIsStale(rows: Rows, a: Relation, b: Relation, id: nat, lineage: nat, loser: nat, winner: nat)
    requires a.table == b.table && (a.table, id) in rows
    requires Points(rows[(a.table, id)], a, loser) && Points(rows[(a.table, id)], b, loser)
    ensures RewriteAll(rows, [a, b], [Impacted(rows, a, loser), Impacted(rows, b, loser)], lineage, loser, winner).None?
  {
    var k := (a.table, id);
    assert id in Located(rows, a, loser) && id in Located(rows, b, loser) by { assert k in rows.Keys; }
    ImpactedAreLocated(rows, b, loser);
    OneRelationShape(rows, rows, a, lineage, loser, winner);
    var one := RedirectAll(rows, a, Impacted(rows, a, loser), lineage, loser, winner);
    assert one[k].revision == rows[k].revision + 1;
    hide RedirectAll;
    assert !Unmoved(one, b, Impacted(rows, b, loser));
    var relations, located := [a, b], [Impacted(rows, a, loser), Impacted(rows, b, loser)];
    assert relations[1..] == [b] && located[1..] == [Impacted(rows, b, loser)];
  }

  // ---------- pointers ----------

  /** After a merge a relation of its target points where it pointed before, with the winner in the loser's place. */
  lemma PointersFollow(db: Db, after: Db, q: Request, r: Relation, k: (Table, nat), id: nat)
    requires MergedInto(db, after, q) && q.winner != q.loser && r in Relations(q.target) && k in db.rows && k.0 == r.table
    ensures Points(after.rows[k], r, id) <==>
              if id == q.loser then false
              else if id == q.winner then Points(db.rows[k], r, q.winner) || Points(db.rows[k], r, q.loser)
              else Points(db.rows[k], r, id)
  {
    RelationsUseDistinctTables(q.target);
    SameTableSameRelation(Relations(q.target), r, RelationOf(Relations(q.target), r.table).value);
  }

  lemma SameTableSameRelation(relations: seq<Relation>, a: Relation, b: Relation)
    requires DistinctTables(relations) && a in relations && b in relations && a.table == b.table
    ensures a == b
  {
    var i :| 0 <= i < |relations| && relations[i] == a;
    var j :| 0 <= j < |relations| && relations[j] == b;
  }

  /**
   Pointers are conserved: in every relation nothing points to the loser any more, everything that did points to the
   winner beside what already did, and nobody else's pointers moved.
   */
  lemma MergeConservesPointers(db: Db, q: Request, r: Relation)
    requires Merge(db, q).Committed? && r in Relations(q.target)
    ensures var after := Merge(db, q).db.rows;
            && Located(after, r, q.loser) == {}
            && Located(after, r, q.winner) == Located(db.rows, r, q.winner) + Located(db.rows, r, q.loser)
            && |Located(after, r, q.winner)| == |Located(db.rows, r, q.winner)| + |Located(db.rows, r, q.loser)|
            && forall id | id != q.winner && id != q.loser :: Located(after, r, id) == Located(db.rows, r, id)
  {
    MergeCommitsExactly(db, q);
    var after := Merge(db, q).db;
    hide Merge, Relations, MergedRows;
    AdmittedExist(db, q);
    LocatedAfter(db, after, q, r, q.loser);
    LocatedAfter(db, after, q, r, q.winner);
    assert Located(db.rows, r, q.winner) !! Located(db.rows, r, q.loser);
    forall id | id != q.winner && id != q.loser ensures Located(after.rows, r, id) == Located(db.rows, r, id) {
      LocatedAfter(db, after, q, r, id);
    }
  }

  lemma LocatedAfter(db: Db, after: Db, q: Request, r: Relation, id: nat)
    requires MergedInto(db, after, q) && q.winner != q.loser && r in Relations(q.target)
    ensures Located(after.rows, r, id) ==
              if id == q.loser then {}
              else if id == q.winner then Located(db.rows, r, q.winner) + Located(db.rows, r, q.loser)
              else Located(db.rows, r, id)
  {
    hide MergedRows, Relations, Points;
    forall k <- db.rows | k.0 == r.table
      ensures Points(after.rows[k], r, id) <==>
                if id == q.loser then false
                else if id == q.winner then Points(db.rows[k], r, q.winner) || Points(db.rows[k], r, q.loser)
                else Points(db.rows[k], r, id)
    {
      PointersFollow(db, after, q, r, k, id);
    }
  }

  /** Each redirected record gains one revision and one audit entry and keeps its other pointers; no other row changes. */
  lemma RedirectedRowsChangeOnce(db: Db, q: Request, k: (Table, nat))
    requires Merge(db, q).Committed? && k in db.rows
    ensures k in Merge(db, q).db.rows
    ensures var row, after := db.rows[k], Merge(db, q).db.rows[k];
            if exists r <- Relations(q.target) :: r.table == k.0 && Points(row, r, q.loser) then
              && after.revision == row.revision + 1 && |after.audit| == |row.audit| + 1 && row.audit <= after.audit
              && after.audit[|row.audit|].revision == after.revision
              && after.relatedType == row.relatedType && after.status == row.status && after.mergedInto == row.mergedInto
              && after.pointers.Keys == row.pointers.Keys
              && forall c <- row.pointers :: after.pointers[c] == row.pointers[c] || (row.pointers[c] == q.loser && after.pointers[c] == q.winner)
            else if k == (TableOf(q.target), q.winner) then after == Survived(row, db.watermark + 1)
            else if k == (TableOf(q.target), q.loser) then after == MergedRow(row, db.watermark + 1, q.winner)
            else after == row
  {
    hide Merge, Relations, Redirect, Points;
    MergeCommitsExactly(db, q);
    RedirectedBy(db.rows, q, k);
    var r := RelationOf(Relations(q.target), k.0);
    if r.Some? && Points(db.rows[k], r.value, q.loser) {
      RedirectChangesOnce(db.rows[k], r.value, db.watermark + 1, q.loser, q.winner);
    }
  }

  /** Which rows a merge redirects, and by which relation. */
  lemma RedirectedBy(rows: Rows, q: Request, k: (Table, nat))
    requires k in rows
    ensures var r := RelationOf(Relations(q.target), k.0);
            && ((exists s <- Relations(q.target) :: s.table == k.0 && Points(rows[k], s, q.loser)) <==>
                  r.Some? && Points(rows[k], r.value, q.loser))
            && (k.0 == TableOf(q.target) ==> r.None?)
  {
    RelationsUseDistinctTables(q.target);
    hide Relations, Points;
    if s :| s in Relations(q.target) && s.table == k.0 && Points(rows[k], s, q.loser) {
      SameTableSameRelation(Relations(q.target), s, RelationOf(Relations(q.target), s.table).value);
    }
  }

  lemma RedirectChangesOnce(row: Row, r: Relation, lineage: nat, loser: nat, winner: nat)
    requires Points(row, r, loser)
    ensures var after := Redirect(row, r, lineage, loser, winner);
            && after.revision == row.revision + 1 && |after.audit| == |row.audit| + 1 && row.audit <= after.audit
            && after.audit[|row.audit|].revision == after.revision
            && after.relatedType == row.relatedType && after.status == row.status && after.mergedInto == row.mergedInto
            && after.pointers.Keys == row.pointers.Keys
            && forall c <- row.pointers :: after.pointers[c] == row.pointers[c] || (row.pointers[c] == loser && after.pointers[c] == winner)
  {
  }

  // ---------- the ledger ----------

  lemma {:induction false} LedgerCountsTotal(rows: Rows, relations: seq<Relation>, loser: nat, lineage: nat)
    requires DistinctTables(relations)
    ensures |LinesOf(rows, relations, loser, lineage)| == Total(rows, relations, loser)
    decreases |relations|
  {
    if relations == [] {
      assert LinesOf(rows, relations, loser, lineage) == {};
    } else {
      var first, rest := relations[0], relations[1..];
      assert relations == [first] + rest;
      OtherTables(relations);
      LedgerCountsTotal(rows, rest, loser, lineage);
      var lines := LinesOfOne(rows, first, Located(rows, first, loser), lineage);
      hide Located;
      assert LinesOf(rows, relations, loser, lineage) == lines + LinesOf(rows, rest, loser, lineage);
      assert lines !! LinesOf(rows, rest, loser, lineage);
      OneLineEach(rows, first, Located(rows, first, loser), lineage);
    }
  }

  function LinesOfOne(rows: Rows, r: Relation, ids: set<nat>, lineage: nat): set<Impact> {
    set id <- ids :: Impact(lineage, r, id, if (r.table, id) in rows then rows[(r.table, id)].revision else 0)
  }

  lemma {:induction false} OneLineEach(rows: Rows, r: Relation, ids: set<nat>, lineage: nat)
    ensures |LinesOfOne(rows, r, ids, lineage)| == |ids|
    decreases |ids|
  {
    if ids != {} {
      var id :| id in ids;
      OneLineEach(rows, r, ids - {id}, lineage);
      var line := Impact(lineage, r, id, if (r.table, id) in rows then rows[(r.table, id)].revision else 0);
      assert LinesOfOne(rows, r, ids, lineage) == LinesOfOne(rows, r, ids - {id}, lineage) + {line};
    }
  }

  // ---------- a forest ----------

  /** Where the merge links lead from a record in at most `fuel` of them. */
  function Follow(rows: Rows, table: Table, id: nat, fuel: nat): Option<nat>
    decreases fuel
  {
    if (table, id) !in rows then None
    else if rows[(table, id)].mergedInto.None? then Some(id)
    else if fuel == 0 then None
    else Follow(rows, table, rows[(table, id)].mergedInto.value, fuel - 1)
  }

  /** Merged rows are exactly those with a link, the lineage holds exactly the links, and links stay inside the table. */
  ghost predicate LinksSound(db: Db) {
    && (forall k <- db.rows :: db.rows[k].status == Merged <==> db.rows[k].mergedInto.Some?)
    && (forall k <- db.rows :: db.rows[k].mergedInto.Some? ==> k.0 == Accounts || k.0 == Contacts)
    && (forall t: Target, id: nat :: (t, id) in db.lineage <==>
          (TableOf(t), id) in db.rows && db.rows[(TableOf(t), id)].mergedInto.Some?)
    && (forall t: Target, id: nat :: (t, id) in db.lineage ==> db.rows[(TableOf(t), id)].mergedInto == Some(db.lineage[(t, id)]))
  }

  /** From every record the links end, after at most as many as there were merges, at a record that is not merged. */
  ghost predicate Forest(db: Db) {
    forall k <- db.rows :: Follow(db.rows, k.0, k.1, |db.lineage|).Some?
  }

  /** Merged records are pointed to by nobody. */
  ghost predicate NoDangling(db: Db) {
    forall t: Target, r <- Relations(t), id: nat :: (t, id) in db.lineage ==> Located(db.rows, r, id) == {}
  }

  lemma {:induction false} FollowEnds(rows: Rows, table: Table, id: nat, fuel: nat)
    requires Follow(rows, table, id, fuel).Some?
    ensures var end := (table, Follow(rows, table, id, fuel).value); end in rows && rows[end].mergedInto.None?
    decreases fuel
  {
    if rows[(table, id)].mergedInto.Some? {
      FollowEnds(rows, table, rows[(table, id)].mergedInto.value, fuel - 1);
    }
  }

  /** `after` has one more link, from `loser` to a record without one. */
  ghost predicate OneMoreLink(rows: Rows, after: Rows, table: Table, loser: nat, winner: nat) {
    && rows.Keys <= after.Keys && (table, winner) in rows && (table, loser) in rows && winner != loser
    && rows[(table, loser)].mergedInto.None? && after[(table, loser)].mergedInto == Some(winner)
    && rows[(table, winner)].mergedInto.None?
    && forall k <- rows :: k != (table, loser) ==> after[k].mergedInto == rows[k].mergedInto
  }

  /** Chains that ended at the loser now end at the winner, one link later; every other chain is as it was. */
  lemma {:induction false} ChainsFollowTheMerge(rows: Rows, after: Rows, table: Table, loser: nat, winner: nat, t: Table, id: nat, fuel: nat)
    requires OneMoreLink(rows, after, table, loser, winner) && Follow(rows, t, id, fuel).Some?
    ensures var end := Follow(rows, t, id, fuel).value;
            Follow(after, t, id, fuel + 1) == Some(if t == table && end == loser then winner else end)
    decreases fuel
  {
    if rows[(t, id)].mergedInto.Some? {
      ChainsFollowTheMerge(rows, after, table, loser, winner, t, rows[(t, id)].mergedInto.value, fuel - 1);
    } else if t == table && id == loser {
      assert Follow(after, t, winner, fuel) == Some(winner);
    }
  }

  lemma {:induction false} ChainsKept(rows: Rows, after: Rows, t: Table, id: nat, fuel: nat)
    requires rows.Keys <= after.Keys && forall k <- rows :: after[k].mergedInto == rows[k].mergedInto
    requires Follow(rows, t, id, fuel).Some?
    ensures Follow(after, t, id, fuel) == Follow(rows, t, id, fuel)
    decreases fuel
  {
    if rows[(t, id)].mergedInto.Some? {
      ChainsKept(rows, after, t, rows[(t, id)].mergedInto.value, fuel - 1);
    }
  }

  lemma MergeAddsOneLink(db: Db, q: Request)
    requires LinksSound(db) && Merge(db, q).Committed?
    ensures var after := Merge(db, q).db;
            && OneMoreLink(db.rows, after.rows, TableOf(q.target), q.loser, q.winner)
            && after.rows.Keys == db.rows.Keys
            && (q.target, q.loser) !in db.lineage && after.lineage == db.lineage[(q.target, q.loser) := q.winner]
            && LinksSound(after)
  {
    hide Merge, Admission, LinksSound;
    MergeCommitsExactly(db, q);
    AdmittedExist(db, q);
    var after := Merge(db, q).db;
    assert OneMoreLink(db.rows, after.rows, TableOf(q.target), q.loser, q.winner) by {
      UnmergedHasNoLink(db, (TableOf(q.target), q.winner));
      UnmergedHasNoLink(db, (TableOf(q.target), q.loser));
      LinksAfterMerge(db, after, q);
    }
    LinksAfterMerge(db, after, q);
    LinksStaySound(db, after, q);
  }

  lemma UnmergedHasNoLink(db: Db, k: (Table, nat))
    requires LinksSound(db) && k in db.rows && db.rows[k].status != Merged
    ensures db.rows[k].mergedInto.None?
  {
  }

  lemma LinksAfterMerge(db: Db, after: Db, q: Request)
    requires MergedInto(db, after, q) && q.winner != q.loser && (TableOf(q.target), q.loser) in db.rows
    ensures var l := (TableOf(q.target), q.loser);
            && after.rows[l].mergedInto == Some(q.winner) && after.rows[l].status == Merged
            && forall k <- db.rows :: k != l ==>
                 after.rows[k].mergedInto == db.rows[k].mergedInto && after.rows[k].status == db.rows[k].status
  {
    RelationsUseDistinctTables(q.target);
    hide Relations, Points;
  }

  lemma LinksStaySound(db: Db, after: Db, q: Request)
    requires LinksSound(db) && (TableOf(q.target), q.loser) in db.rows && after.rows.Keys == db.rows.Keys
    requires after.lineage == db.lineage[(q.target, q.loser) := q.winner]
    requires var l := (TableOf(q.target), q.loser);
             && after.rows[l].mergedInto == Some(q.winner) && after.rows[l].status == Merged
             && forall k <- db.rows :: k != l ==>
                  after.rows[k].mergedInto == db.rows[k].mergedInto && after.rows[k].status == db.rows[k].status
    ensures LinksSound(after)
  {
  }

  lemma OneMoreKey(m: map<(Target, nat), nat>, k: (Target, nat), v: nat)
    requires k !in m
    ensures |m[k := v]| == |m| + 1
  {
    assert m[k := v].Keys == m.Keys + {k};
    assert |m[k := v].Keys| == |m[k := v]| && |m.Keys| == |m|;
  }

  lemma MergeKeepsForest(db: Db, q: Request)
    requires LinksSound(db) && Forest(db) && Merge(db, q).Committed?
    ensures Forest(Merge(db, q).db)
  {
    hide Merge, LinksSound, OneMoreLink, Follow;
    MergeAddsOneLink(db, q);
    var after := Merge(db, q).db;
    OneMoreKey(db.lineage, (q.target, q.loser), q.winner);
    forall k <- after.rows ensures Follow(after.rows, k.0, k.1, |after.lineage|).Some? {
      ChainsFollowTheMerge(db.rows, after.rows, TableOf(q.target), q.loser, q.winner, k.0, k.1, |db.lineage|);
    }
  }

  // ---------- nothing points to a merged record ----------

  /** Two targets never rewrite the same pointer of the same row. */
  lemma TargetsDoNotShare(a: Target, b: Target, r: Relation, s: Relation)
    requires a != b && r in Relations(a) && s in Relations(b) && r.table == s.table && r.column == s.column
    ensures r.relatedType == Some(a) && s.relatedType == Some(b)
  {
  }

  /** A merge of one target leaves the pointers of the other where they were. */
  lemma OtherTargetsStay(db: Db, after: Db, q: Request, t: Target, s: Relation, id: nat)
    requires MergedInto(db, after, q) && t != q.target && s in Relations(t)
    ensures Located(after.rows, s, id) == Located(db.rows, s, id)
  {
    hide Relations, MergedRows;
    forall k <- db.rows | k.0 == s.table ensures Points(after.rows[k], s, id) <==> Points(db.rows[k], s, id) {
      OtherTargetStays(db, after, q, t, s, k, id);
    }
    hide Points;
  }

  lemma OtherTargetStays(db: Db, after: Db, q: Request, t: Target, s: Relation, k: (Table, nat), id: nat)
    requires MergedInto(db, after, q) && t != q.target && s in Relations(t) && k in db.rows && k.0 == s.table
    ensures Points(after.rows[k], s, id) <==> Points(db.rows[k], s, id)
  {
    hide Relations;
    var r := RelationOf(Relations(q.target), k.0);
    if r.Some? && r.value.column == s.column {
      TargetsDoNotShare(q.target, t, r.value, s);
    }
  }

  lemma MergeKeepsNoDangling(db: Db, q: Request)
    requires LinksSound(db) && NoDangling(db) && Merge(db, q).Committed?
    ensures NoDangling(Merge(db, q).db)
  {
    hide Merge, Relations, MergedRows, Located;
    MergeCommitsExactly(db, q);
    AdmittedExist(db, q);
    var after := Merge(db, q).db;
    forall t: Target, r <- Relations(t), id: nat | (t, id) in after.lineage ensures Located(after.rows, r, id) == {} {
      if t == q.target {
        LocatedAfter(db, after, q, r, id);
      } else {
        OtherTargetsStay(db, after, q, t, r, id);
      }
    }
  }

  // ---------- runs ----------

  /** A merge, or any change by others that neither makes, breaks nor redirects a merge link and deletes no row. */
  datatype Step = MergeStep(request: Request) | EditStep(rows: Rows)

  function Edited(before: Rows, rows: Rows): Rows {
    map k | k in before.Keys + rows.Keys ::
      if k !in rows then before[k]
      else if k !in before then rows[k].(mergedInto := None, status := if rows[k].status == Merged then Active else rows[k].status)
      else if before[k].status == Merged then rows[k].(mergedInto := before[k].mergedInto, status := Merged)
      else rows[k].(mergedInto := None, status := if rows[k].status == Merged then before[k].status else rows[k].status)
  }

  function Apply(db: Db, step: Step): Db {
    match step
    case MergeStep(q) => var result := Merge(db, q); if result.Committed? then result.db else db
    case EditStep(rows) => db.(rows := Edited(db.rows, rows))
  }

  function Run(db: Db, steps: seq<Step>): Db
    decreases |steps|
  {
    if steps == [] then db else Apply(Run(db, steps[..|steps| - 1]), steps[|steps| - 1])
  }

  /** No record was merged yet. */
  ghost predicate Fresh(db: Db) {
    db.lineage == map[] && forall k <- db.rows :: db.rows[k].status != Merged && db.rows[k].mergedInto.None?
  }

  lemma EditKeeps(db: Db, rows: Rows)
    requires LinksSound(db) && Forest(db)
    ensures var after := Apply(db, EditStep(rows)); LinksSound(after) && Forest(after) && after.lineage == db.lineage
  {
    hide LinksSound, Follow;
    var after := Apply(db, EditStep(rows));
    EditedLinks(db, rows);
    EditedStaysSound(db, after);
    forall k <- after.rows ensures Follow(after.rows, k.0, k.1, |after.lineage|).Some? {
      if k in db.rows {
        ChainsKept(db.rows, after.rows, k.0, k.1, |db.lineage|);
      } else {
        RootFollows(after.rows, k.0, k.1, |after.lineage|);
      }
    }
  }

  lemma RootFollows(rows: Rows, table: Table, id: nat, fuel: nat)
    requires (table, id) in rows && rows[(table, id)].mergedInto.None?
    ensures Follow(rows, table, id, fuel) == Some(id)
  {
  }

  lemma EditedLinks(db: Db, rows: Rows)
    requires LinksSound(db)
    ensures var after := Edited(db.rows, rows);
            && db.rows.Keys <= after.Keys
            && (forall k <- db.rows :: after[k].mergedInto == db.rows[k].mergedInto && (after[k].status == Merged <==> db.rows[k].status == Merged))
            && (forall k <- after :: k !in db.rows ==> after[k].mergedInto.None? && after[k].status != Merged)
  {
  }

  lemma EditedStaysSound(db: Db, after: Db)
    requires LinksSound(db) && after.lineage == db.lineage && db.rows.Keys <= after.rows.Keys
    requires forall k <- db.rows :: after.rows[k].mergedInto == db.rows[k].mergedInto && (after.rows[k].status == Merged <==> db.rows[k].status == Merged)
    requires forall k <- after.rows :: k !in db.rows ==> after.rows[k].mergedInto.None? && after.rows[k].status != Merged
    ensures LinksSound(after)
  {
  }

  lemma StepKeeps(db: Db, step: Step)
    requires LinksSound(db) && Forest(db)
    ensures var after := Apply(db, step);
            && LinksSound(after) && Forest(after)
            && (forall p <- db.lineage :: p in after.lineage && after.lineage[p] == db.lineage[p])
  {
    hide LinksSound, Forest, Merge, Edited;
    match step
    case MergeStep(q) =>
      if Merge(db, q).Committed? {
        MergeAddsOneLink(db, q);
        MergeKeepsForest(db, q);
      }
    case EditStep(rows) => EditKeeps(db, rows);
  }

  lemma {:induction false} RunKeeps(db: Db, steps: seq<Step>)
    requires LinksSound(db) && Forest(db)
    ensures var after := Run(db, steps);
            && LinksSound(after) && Forest(after)
            && (forall p <- db.lineage :: p in after.lineage && after.lineage[p] == db.lineage[p])
    decreases |steps|
  {
    hide LinksSound, Forest, Apply;
    if steps != [] {
      var n := |steps| - 1;
      RunKeeps(db, steps[..n]);
      StepKeeps(Run(db, steps[..n]), steps[n]);
    }
  }

  lemma FreshIsSound(db: Db)
    requires Fresh(db)
    ensures LinksSound(db) && Forest(db) && NoDangling(db)
  {
  }

  /** Over any run the merge links form a forest: from every record they end at a record that is not merged. */
  lemma LinksFormAForest(db: Db, steps: seq<Step>, k: (Table, nat))
    requires Fresh(db) && k in Run(db, steps).rows
    ensures var rows := Run(db, steps).rows;
            var end := Follow(rows, k.0, k.1, |Run(db, steps).lineage|);
            end.Some? && (k.0, end.value) in rows && rows[(k.0, end.value)].status != Merged
  {
    FreshIsSound(db);
    RunKeeps(db, steps);
    var after := Run(db, steps);
    hide Run;
    FollowEnds(after.rows, k.0, k.1, |after.lineage|);
  }

  /** A record is merged away at most once: a second merge of it never commits, and its link never changes. */
  lemma MergedAwayOnce(db: Db, q: Request, steps: seq<Step>, again: Request)
    requires LinksSound(db) && Forest(db) && Merge(db, q).Committed? && again.target == q.target
    requires again.loser == q.loser || again.winner == q.loser
    ensures var later := Run(Merge(db, q).db, steps);
            && !Merge(later, again).Committed?
            && (q.target, q.loser) in later.lineage && later.lineage[(q.target, q.loser)] == q.winner
            && (TableOf(q.target), q.loser) in later.rows
            && later.rows[(TableOf(q.target), q.loser)].mergedInto == Some(q.winner)
  {
    MergeAddsOneLink(db, q);
    MergeKeepsForest(db, q);
    RunKeeps(Merge(db, q).db, steps);
    var later := Run(Merge(db, q).db, steps);
    hide Run, Forest;
    MergeCommitsExactly(later, again);
    assert (q.target, q.loser) in later.lineage;
    assert later.rows[(TableOf(q.target), q.loser)].status == Merged;
  }

  /** Merges alone never leave a pointer to a merged record, however winners later become losers. */
  lemma {:induction false} MergesLeaveNoDangling(db: Db, steps: seq<Step>)
    requires Fresh(db) && forall step <- steps :: step.MergeStep?
    ensures NoDangling(Run(db, steps))
    decreases |steps|
  {
    hide NoDangling, Merge, LinksSound, Forest;
    FreshIsSound(db);
    if steps != [] {
      var n := |steps| - 1;
      MergesLeaveNoDangling(db, steps[..n]);
      RunKeeps(db, steps[..n]);
      var before := Run(db, steps[..n]);
      assert steps[n].MergeStep?;
      if Merge(before, steps[n].request).Committed? {
        MergeKeepsNoDangling(before, steps[n].request);
      }
    }
  }
}
