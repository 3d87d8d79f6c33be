/**
 What a merge does to references, stated over the columns of the schema: every column that can name an account or a
 contact follows the merge, whatever the list of relations says.
 */
module MergeReferences {
  import opened Wrappers
  import opened MergeModel
  import opened MergeSafety

  /** The reference columns of each table. */
  function SchemaColumns(table: Table): set<Column> {
    match table
    case Accounts => {}
    case Contacts => {AccountId}
    case Opportunities => {AccountId, PrimaryContactId}
    case Leads => {QualifiedAccountId, QualifiedContactId}
    case Activities | Notes | Attachments | Tasks => {RelatedRecordId}
  }

  ghost predicate OnSchema(rows: Rows) { forall k <- rows :: rows[k].pointers.Keys <= SchemaColumns(k.0) }

  /** Whether a column of this row names a record of the target: its own columns always, the shared one by its type. */
  predicate Names(row: Row, c: Column, t: Target) {
    match c
    case AccountId | QualifiedAccountId => t == Account
    case PrimaryContactId | QualifiedContactId => t == Contact
    case RelatedRecordId => row.relatedType == Some(t)
  }

  predicate RefersTo(row: Row, t: Target, id: nat) { exists c <- row.pointers :: Names(row, c, t) && row.pointers[c] == id }

  /** The relation that covers a column of a table for a target. */
  function Covering(table: Table, c: Column, t: Target): Relation { Relation(table, c, if c == RelatedRecordId then Some(t) else None) }

  predicate MayName(c: Column, t: Target) {
    c == RelatedRecordId || (t == Account && (c == AccountId || c == QualifiedAccountId)) ||
    (t == Contact && (c == PrimaryContactId || c == QualifiedContactId))
  }

  /** Every column of the schema that can name a target has its relation, and there are no other relations. */
  lemma RelationsCoverTheSchema(table: Table, c: Column, t: Target)
    requires c in SchemaColumns(table) && MayName(c, t)
    ensures Covering(table, c, t) in Relations(t)
  {
  }

  lemma RelationIsOnTheSchema(t: Target, r: Relation)
    requires r in Relations(t)
    ensures r.column in SchemaColumns(r.table) && MayName(r.column, t) && r == Covering(r.table, r.column, t)
  {
  }

  /** On the schema a row points to a record through a relation exactly when its column names that record. */
  lemma PointingIsNaming(row: Row, r: Relation, t: Target, id: nat)
    requires r in Relations(t)
    ensures Points(row, r, id) <==> r.column in row.pointers && Names(row, r.column, t) && row.pointers[r.column] == id
  {
    RelationIsOnTheSchema(t, r);
    hide Relations;
  }

  /** A row of the schema refers to a record exactly when it points to it through the relation of its table. */
  lemma ReferencesAreRelations(rows: Rows, k: (Table, nat), t: Target, id: nat)
    requires OnSchema(rows) && k in rows
    ensures RefersTo(rows[k], t, id) <==> exists r <- Relations(t) :: r.table == k.0 && Points(rows[k], r, id)
  {
    var row := rows[k];
    assert row.pointers.Keys <= SchemaColumns(k.0);
    hide Relations, SchemaColumns, Points;
    if RefersTo(row, t, id) {
      var c :| c in row.pointers && Names(row, c, t) && row.pointers[c] == id;
      RelationsCoverTheSchema(k.0, c, t);
      PointingIsNaming(row, Covering(k.0, c, t), t, id);
    }
    if r :| r in Relations(t) && r.table == k.0 && Points(row, r, id) {
      PointingIsNaming(row, r, t, id);
    }
  }

  // ---------- one merge ----------

  /** `after` is `before` with the winner in every column that named the loser. */
  ghost predicate Followed(before: Row, after: Row, target: Target, loser: nat, winner: nat) {
    && after.relatedType == before.relatedType && after.pointers.Keys == before.pointers.Keys
    && forall c <- before.pointers :: after.pointers[c] ==
         if Names(before, c, target) && before.pointers[c] == loser then winner else before.pointers[c]
  }

  /**
   A committed merge rewrites, in every row of every table, exactly the columns that name the loser, and puts the winner
   there; every other column of every row is as it was.
   */
  lemma EveryReferenceFollows(db: Db, q: Request, k: (Table, nat))
    requires OnSchema(db.rows) && Merge(db, q).Committed? && k in db.rows
    ensures k in Merge(db, q).db.rows && Followed(db.rows[k], Merge(db, q).db.rows[k], q.target, q.loser, q.winner)
  {
    hide Merge, Relations, SchemaColumns, Points;
    MergeCommitsExactly(db, q);
    var row, list := db.rows[k], Relations(q.target);
    RedirectedBy(db.rows, q, k);
    var r := RelationOf(list, k.0);
    forall c <- row.pointers | Names(row, c, q.target) && row.pointers[c] == q.loser
      ensures r.Some? && r.value.column == c && Points(row, r.value, q.loser)
    {
      NamingColumnIsRelated(row, k.0, c, q);
    }
    if r.Some? && Points(row, r.value, q.loser) {
      PointingIsNaming(row, r.value, q.target, q.loser);
    }
  }

  lemma NamingColumnIsRelated(row: Row, table: Table, c: Column, q: Request)
    requires c in row.pointers && c in SchemaColumns(table) && Names(row, c, q.target) && row.pointers[c] == q.loser
    ensures var r := RelationOf(Relations(q.target), table);
            r.Some? && r.value.column == c && Points(row, r.value, q.loser)
  {
    hide Relations, SchemaColumns, Points;
    var list, covering := Relations(q.target), Covering(table, c, q.target);
    RelationsCoverTheSchema(table, c, q.target);
    RelationsUseDistinctTables(q.target);
    SameTableSameRelation(list, covering, RelationOf(list, table).value);
    PointingIsNaming(row, covering, q.target, q.loser);
  }

  /** After a merge no row refers to the loser, those that did refer to the winner, and all other references stay. */
  lemma NobodyRefersToTheLoser(db: Db, q: Request, k: (Table, nat), t: Target, id: nat)
    requires OnSchema(db.rows) && Merge(db, q).Committed? && k in db.rows
    ensures var before, rows := db.rows[k], Merge(db, q).db.rows;
            && k in rows
            && (RefersTo(rows[k], t, id) <==>
                  if t == q.target && id == q.loser then false
                  else if t == q.target && id == q.winner then RefersTo(before, t, q.winner) || RefersTo(before, t, q.loser)
                  else RefersTo(before, t, id))
  {
    hide *;
    EveryReferenceFollows(db, q, k);
    MergeCommitsExactly(db, q);
    AdmittedExist(db, q);
    var before, after := db.rows[k], Merge(db, q).db.rows[k];
    if RefersTo(before, t, id) { FollowedForward(before, after, q.target, q.loser, q.winner, t, id); }
    if RefersTo(before, t, q.loser) { FollowedForward(before, after, q.target, q.loser, q.winner, t, q.loser); }
    if RefersTo(after, t, id) { FollowedBack(before, after, q.target, q.loser, q.winner, t, id); }
  }

  lemma FollowedForward(before: Row, after: Row, target: Target, loser: nat, winner: nat, t: Target, id: nat)
    requires Followed(before, after, target, loser, winner) && RefersTo(before, t, id)
    ensures RefersTo(after, t, if t == target && id == loser then winner else id)
  {
    var c :| c in before.pointers && Names(before, c, t) && before.pointers[c] == id;
    assert Names(after, c, t);
    if Names(before, c, target) { OnlyOneTarget(before, c, t, target); }
  }

  lemma FollowedBack(before: Row, after: Row, target: Target, loser: nat, winner: nat, t: Target, id: nat)
    requires Followed(before, after, target, loser, winner) && RefersTo(after, t, id)
    ensures RefersTo(before, t, id) || (t == target && id == winner && RefersTo(before, t, loser))
    ensures t == target && id == loser ==> loser == winner
  {
    var c :| c in after.pointers && Names(after, c, t) && after.pointers[c] == id;
    assert Names(before, c, t);
    if Names(before, c, target) { OnlyOneTarget(before, c, t, target); }
  }

  lemma OnlyOneTarget(row: Row, c: Column, a: Target, b: Target)
    requires Names(row, c, a) && Names(row, c, b)
    ensures a == b
  {
  }

  // ---------- any number of merges ----------

  /** Merged records are referred to by nobody. */
  ghost predicate NoReferenceToMerged(db: Db) {
    forall t: Target, id: nat, k <- db.rows :: (t, id) in db.lineage ==> !RefersTo(db.rows[k], t, id)
  }

  lemma MergeKeepsReferences(db: Db, q: Request)
    requires OnSchema(db.rows) && LinksSound(db) && NoReferenceToMerged(db) && Merge(db, q).Committed?
    ensures OnSchema(Merge(db, q).db.rows) && NoReferenceToMerged(Merge(db, q).db)
  {
    hide Merge, LinksSound, RefersTo, Names;
    var after := Merge(db, q).db;
    MergeAddsOneLink(db, q);
    WinnerIsNotMerged(db, q);
    forall k <- after.rows ensures after.rows[k].pointers.Keys <= SchemaColumns(k.0) {
      EveryReferenceFollows(db, q, k);
    }
    forall t: Target, id: nat, k <- after.rows | (t, id) in after.lineage ensures !RefersTo(after.rows[k], t, id) {
      NobodyRefersToTheLoser(db, q, k, t, id);
    }
  }

  lemma WinnerIsNotMerged(db: Db, q: Request)
    requires LinksSound(db) && Merge(db, q).Committed?
    ensures (q.target, q.winner) !in db.lineage && q.winner != q.loser
  {
    hide Merge;
    MergeCommitsExactly(db, q);
    AdmittedExist(db, q);
  }

  /** However winners later become losers, merges leave no reference, in any column of any table, to a merged record. */
  lemma {:induction false} MergesLeaveNoReference(db: Db, steps: seq<Step>)
    requires Fresh(db) && OnSchema(db.rows) && forall step <- steps :: step.MergeStep?
    ensures OnSchema(Run(db, steps).rows) && NoReferenceToMerged(Run(db, steps))
    decreases |steps|
  {
    hide OnSchema, NoReferenceToMerged, Merge, LinksSound, Forest;
    FreshIsSound(db);
    assert NoReferenceToMerged(db) by { NothingMerged(db); }
    if steps != [] {
      var n := |steps| - 1;
      MergesLeaveNoReference(db, steps[..n]);
      RunKeeps(db, steps[..n]);
      var before := Run(db, steps[..n]);
      assert steps[n].MergeStep?;
      if Merge(before, steps[n].request).Committed? {
        MergeKeepsReferences(before, steps[n].request);
      }
    }
  }

  lemma NothingMerged(db: Db)
    requires db.lineage == map[]
    ensures NoReferenceToMerged(db)
  {
  }

  // ---------- who may merge ----------

  /** The rows a merge would rewrite. */
  function Referring(rows: Rows, t: Target, id: nat): set<(Table, nat)> { set k <- rows.Keys | RefersTo(rows[k], t, id) }

  function ThroughRelations(rows: Rows, relations: seq<Relation>, id: nat): set<(Table, nat)> {
    set k <- rows.Keys | exists r <- relations :: r.table == k.0 && Points(rows[k], r, id)
  }

  lemma {:induction false} RowsAreCountedOnce(rows: Rows, relations: seq<Relation>, id: nat)
    requires DistinctTables(relations)
    ensures |ThroughRelations(rows, relations, id)| == Total(rows, relations, id)
    decreases |relations|
  {
    if relations == [] {
      assert ThroughRelations(rows, relations, id) == {};
    } else {
      var first, rest := relations[0], relations[1..];
      assert relations == [first] + rest;
      OtherTables(relations);
      RowsAreCountedOnce(rows, rest, id);
      var here := Paired(first.table, Located(rows, first, id));
      PairedCount(first.table, Located(rows, first, id));
      assert ThroughRelations(rows, relations, id) == here + ThroughRelations(rows, rest, id) by {
        forall k | k in here ensures k in rows && k.0 == first.table && Points(rows[k], first, id) {}
        forall k <- rows | k.0 == first.table && Points(rows[k], first, id) ensures k in here { assert k.1 in Located(rows, first, id); }
      }
      assert here !! ThroughRelations(rows, rest, id);
    }
  }

  function Paired(table: Table, ids: set<nat>): set<(Table, nat)> { set id <- ids :: (table, id) }

  lemma {:induction false} PairedCount(table: Table, ids: set<nat>)
    ensures |Paired(table, ids)| == |ids|
    decreases |ids|
  {
    if ids != {} {
      var id :| id in ids;
      PairedCount(table, ids - {id});
      assert Paired(table, ids) == Paired(table, ids - {id}) + {(table, id)};
    }
  }

  lemma ReferringIsTotal(rows: Rows, t: Target, id: nat)
    requires OnSchema(rows)
    ensures |Referring(rows, t, id)| == Total(rows, Relations(t), id)
  {
    hide Relations, OnSchema, RefersTo, Points, Total;
    RelationsUseDistinctTables(t);
    RowsAreCountedOnce(rows, Relations(t), id);
    forall k <- rows ensures k in Referring(rows, t, id) <==> k in ThroughRelations(rows, Relations(t), id) {
      ReferencesAreRelations(rows, k, t, id);
    }
    assert Referring(rows, t, id) == ThroughRelations(rows, Relations(t), id);
  }

  ghost predicate BothActive(rows: Rows, table: Table, a: nat, b: nat) {
    (table, a) in rows && (table, b) in rows && rows[(table, a)].status == Active && rows[(table, b)].status == Active
  }

  ghost predicate OfOneActiveAccount(rows: Rows, a: Row, b: Row) {
    exists account: nat :: AccountId in a.pointers && a.pointers[AccountId] == account && AccountId in b.pointers &&
      b.pointers[AccountId] == account && (Accounts, account) in rows && rows[(Accounts, account)].status == Active
  }

  /**
   Exactly when a merge commits, and what it answers otherwise: two distinct active records the caller may merge, at the
   revisions it saw, which match as duplicates and, for contacts, belong to one active account; at most 2000 rows to
   rewrite; and a loser that was not merged before.
   */
  lemma MergeAnswers(db: Db, q: Request)
    requires OnSchema(db.rows)
    ensures var table := if q.target == Account then Accounts else Contacts;
            var result := Merge(db, q);
            if !q.authorized || q.winner == q.loser || !BothActive(db.rows, table, q.winner, q.loser) then result == Refused(Forbidden)
            else
              var w, l := db.rows[(table, q.winner)], db.rows[(table, q.loser)];
              if w.revision != q.winnerRevision || l.revision != q.loserRevision then result == Refused(Stale)
              else if !q.matched || (q.target == Contact && !OfOneActiveAccount(db.rows, w, l)) then result == Refused(Forbidden)
              else if |Referring(db.rows, q.target, q.loser)| > 2_000 then result == Refused(Forbidden)
              else if (q.target, q.loser) in db.lineage then result == Refused(Conflict)
              else result.Committed?
  {
    hide Relations, OnSchema, Referring, Total, LockImpacts, RewriteAll, Settle;
    ReferringIsTotal(db.rows, q.target, q.loser);
    MergeCommitsExactly(db, q);
    BudgetIsShared(db.rows, Relations(q.target), q.loser, IMPACT_LIMIT);
    AdmittedRewrites(db, q);
  }

  /** An admitted merge within budget is never stale: nothing moves between its locks and its rewrites. */
  lemma AdmittedRewrites(db: Db, q: Request)
    ensures var located := LockImpacts(db.rows, Relations(q.target), q.loser, IMPACT_LIMIT);
            located.Some? ==> RewriteAll(db.rows, Relations(q.target), located.value, db.watermark + 1, q.loser, q.winner).Some?
  {
    hide Relations, Impacted, LockImpacts, RewriteAll, Rewritten;
    var relations := Relations(q.target);
    RelationsUseDistinctTables(q.target);
    LockedImpacts(db.rows, relations, q.loser, IMPACT_LIMIT);
    var located := LockImpacts(db.rows, relations, q.loser, IMPACT_LIMIT);
    if located.Some? {
      RewriteAllShape(db.rows, db.rows, relations, located.value, db.watermark + 1, q.loser, q.winner);
    }
  }

  // ---------- evidence ----------

  /** One revision on, with one audit entry of this merge in this role. */
  ghost predicate Audited(before: Row, after: Row, lineage: nat, role: Role) {
    after.revision == before.revision + 1 && after.audit == before.audit + [AuditEntry(lineage, before.revision + 1, role)]
  }

  /**
   A merge audits the winner as survivor and the loser as merged away into it, and every row it rewrites as redirected,
   with a ledger line that names the row and the revision it had; any other row is identical.
   */
  lemma EveryChangeIsAudited(db: Db, q: Request, k: (Table, nat))
    requires OnSchema(db.rows) && Merge(db, q).Committed? && k in db.rows
    ensures var table := if q.target == Account then Accounts else Contacts;
            var lineage, merged := db.watermark + 1, Merge(db, q).db;
            && k in merged.rows && merged.watermark == lineage
            && var before, after := db.rows[k], merged.rows[k];
            if k == (table, q.winner) then
              Audited(before, after, lineage, Survivor) && after.status == Active && after.mergedInto == before.mergedInto
            else if k == (table, q.loser) then
              Audited(before, after, lineage, MergedAway) && after.status == Merged && after.mergedInto == Some(q.winner)
            else if RefersTo(before, q.target, q.loser) then
              && after.status == before.status && after.mergedInto == before.mergedInto
              && exists r <- Relations(q.target) ::
                   r.table == k.0 && Audited(before, after, lineage, Redirected(r, q.loser, q.winner)) &&
                   Impact(lineage, r, k.1, before.revision) in merged.impacts
            else after == before
  {
    hide Merge, Relations, Points, RefersTo, OnSchema, LinesOf;
    MergeCommitsExactly(db, q);
    AdmittedExist(db, q);
    ReferencesAreRelations(db.rows, k, q.target, q.loser);
    RedirectedBy(db.rows, q, k);
    var r := RelationOf(Relations(q.target), k.0);
    if r.Some? && Points(db.rows[k], r.value, q.loser) {
      LineOfRow(db.rows, Relations(q.target), r.value, q.loser, db.watermark + 1, k);
    }
  }

  lemma LineOfRow(rows: Rows, relations: seq<Relation>, r: Relation, loser: nat, lineage: nat, k: (Table, nat))
    requires r in relations && k in rows && k.0 == r.table && Points(rows[k], r, loser)
    ensures Impact(lineage, r, k.1, rows[k].revision) in LinesOf(rows, relations, loser, lineage)
  {
    hide Points;
    assert k == (r.table, k.1) && k in rows.Keys;
    assert k.1 in Located(rows, r, loser);
  }

  /** The ledger gains exactly one line for each row the merge rewrites. */
  lemma LedgerGainsOneLineEach(db: Db, q: Request)
    requires OnSchema(db.rows) && Merge(db, q).Committed? && forall line <- db.impacts :: line.lineage <= db.watermark
    ensures var merged := Merge(db, q).db;
            && db.impacts <= merged.impacts && |merged.impacts| == |db.impacts| + |Referring(db.rows, q.target, q.loser)|
            && forall line <- merged.impacts - db.impacts :: line.lineage == merged.watermark
  {
    hide *;
    MergeCommitsExactly(db, q);
    LedgerGrowsByLines(db, Merge(db, q).db, q);
    ReferringIsTotal(db.rows, q.target, q.loser);
    RelationsUseDistinctTables(q.target);
    LedgerCountsTotal(db.rows, Relations(q.target), q.loser, db.watermark + 1);
    LinesCarryTheirLineage(db.rows, Relations(q.target), q.loser, db.watermark + 1);
    NewLinesAreNew(db.impacts, LinesOf(db.rows, Relations(q.target), q.loser, db.watermark + 1), db.watermark);
  }

  lemma LedgerGrowsByLines(db: Db, after: Db, q: Request)
    requires MergedInto(db, after, q)
    ensures after.impacts == db.impacts + LinesOf(db.rows, Relations(q.target), q.loser, db.watermark + 1)
    ensures after.watermark == db.watermark + 1
  {
    hide LinesOf, Relations, MergedRows;
  }

  lemma LinesCarryTheirLineage(rows: Rows, relations: seq<Relation>, loser: nat, lineage: nat)
    ensures forall line <- LinesOf(rows, relations, loser, lineage) :: line.lineage == lineage
  {
    hide Located;
  }

  lemma NewLinesAreNew(before: set<Impact>, lines: set<Impact>, watermark: nat)
    requires (forall line <- before :: line.lineage <= watermark) && (forall line <- lines :: line.lineage == watermark + 1)
    ensures |before + lines| == |before| + |lines| && forall line <- (before + lines) - before :: line.lineage == watermark + 1
  {
    assert before !! lines;
  }
}
