/**
 Merging two accounts or two contacts: every related record is redirected from the loser to the winner under one shared
 budget, in one transaction.
 */
module MergeModel {
  import opened Wrappers

  const IMPACT_LIMIT := 2_000

  datatype Target = Account | Contact
  datatype Table = Accounts | Contacts | Opportunities | Leads | Activities | Notes | Attachments | Tasks
  datatype Column = AccountId | PrimaryContactId | QualifiedAccountId | QualifiedContactId | RelatedRecordId

  /** A pointer column of a table, restricted to one related-record type where the column is shared. */
  datatype Relation = Relation(table: Table, column: Column, relatedType: Option<Target>)

  datatype Status = Active | Archived | Merged
  datatype Role = Survivor | MergedAway | Redirected(relation: Relation, loser: nat, winner: nat)
  datatype AuditEntry = AuditEntry(lineage: nat, revision: nat, role: Role)

  /** A row of any of the tables; `relatedType` is None for a related type that is neither account nor contact. */
  datatype Row = Row(
    pointers: map<Column, nat>, relatedType: Option<Target>, status: Status, revision: nat, audit: seq<AuditEntry>,
    mergedInto: Option<nat>)

  type Rows = map<(Table, nat), Row>

  datatype Db = Db(rows: Rows, lineage: map<(Target, nat), nat>, impacts: set<Impact>, watermark: nat)

  /** One line of the impact ledger. */
  datatype Impact = Impact(lineage: nat, relation: Relation, id: nat, preRevision: nat)

  function TableOf(t: Target): Table { if t == Account then Accounts else Contacts }

  /** The relations a merge may rewrite, in their fixed locking order. */
  function Relations(t: Target): seq<Relation> {
    match t
    case Account =>
      [Relation(Contacts, AccountId, None), Relation(Opportunities, AccountId, None), Relation(Leads, QualifiedAccountId, None),
       Relation(Activities, RelatedRecordId, Some(Account)), Relation(Notes, RelatedRecordId, Some(Account)),
       Relation(Attachments, RelatedRecordId, Some(Account)), Relation(Tasks, RelatedRecordId, Some(Account))]
    case Contact =>
      [Relation(Opportunities, PrimaryContactId, None), Relation(Leads, QualifiedContactId, None),
       Relation(Activities, RelatedRecordId, Some(Contact)), Relation(Notes, RelatedRecordId, Some(Contact)),
       Relation(Attachments, RelatedRecordId, Some(Contact)), Relation(Tasks, RelatedRecordId, Some(Contact))]
  }

  predicate Points(row: Row, r: Relation, id: nat) {
    r.column in row.pointers && row.pointers[r.column] == id && (r.relatedType.Some? ==> row.relatedType == r.relatedType)
  }

  /** The ids of the records that point to `id` through a relation. */
  function Located(rows: Rows, r: Relation, id: nat): set<nat> {
    set k <- rows.Keys | k.0 == r.table && Points(rows[k], r, id) :: k.1
  }

  /** The records a relation locks, with the revision each has when it is locked. */
  function Impacted(rows: Rows, r: Relation, loser: nat): map<nat, nat> {
    map id | id in Located(rows, r, loser) :: rows[(r.table, id)].revision
  }

  /** Locks relation after relation while the budget lasts; None when some relation exceeds what remains. */
  function LockImpacts(rows: Rows, relations: seq<Relation>, loser: nat, remaining: nat): (r: Option<seq<map<nat, nat>>>)
    ensures r.Some? ==> |r.value| == |relations|
    decreases |relations|
  {
    if relations == [] then Some([])
    else
      var located := Impacted(rows, relations[0], loser);
      if |located| > remaining then None
      else
        var rest := LockImpacts(rows, relations[1..], loser, remaining - |located|);
        if rest.None? then None else Some([located] + rest.value)
  }

  function Redirect(row: Row, r: Relation, lineage: nat, loser: nat, winner: nat): Row {
    row.(pointers := row.pointers[r.column := winner], revision := row.revision + 1,
         audit := row.audit + [AuditEntry(lineage, row.revision + 1, Redirected(r, loser, winner))])
  }

  predicate Unmoved(rows: Rows, r: Relation, located: map<nat, nat>) {
    forall id <- located :: (r.table, id) in rows && rows[(r.table, id)].revision == located[id]
  }

  function RedirectAll(rows: Rows, r: Relation, located: map<nat, nat>, lineage: nat, loser: nat, winner: nat): (after: Rows)
    ensures after.Keys == rows.Keys
  {
    map k | k in rows :: if k.0 == r.table && k.1 in located then Redirect(rows[k], r, lineage, loser, winner) else rows[k]
  }

  /** The rewrite of one relation; None when a locked row no longer has the revision it was locked with. */
  function RewriteRelation(rows: Rows, r: Relation, located: map<nat, nat>, lineage: nat, loser: nat, winner: nat): Option<Rows> {
    if Unmoved(rows, r, located) then Some(RedirectAll(rows, r, located, lineage, loser, winner)) else None
  }

  function RewriteAll(rows: Rows, relations: seq<Relation>, located: seq<map<nat, nat>>, lineage: nat, loser: nat, winner: nat): Option<Rows>
    requires |relations| == |located|
    decreases |relations|
  {
    if relations == [] then Some(rows)
    else
      var one := RewriteRelation(rows, relations[0], located[0], lineage, loser, winner);
      if one.None? then None else RewriteAll(one.value, relations[1..], located[1..], lineage, loser, winner)
  }

  // ---------- the merge ----------

  datatype Refusal = Forbidden | Stale | Conflict
  datatype Result = Committed(db: Db) | Refused(refusal: Refusal)

  /** What the caller asks; `authorized` and `matched` stand for the grants and for the duplicate match of the two records. */
  datatype Request = Request(target: Target, winner: nat, loser: nat, winnerRevision: nat, loserRevision: nat, authorized: bool, matched: bool)

  /** Two contacts merge only within one account, and only while that account is active. */
  predicate SameActiveAccount(rows: Rows, a: Row, b: Row) {
    && AccountId in a.pointers && AccountId in b.pointers && a.pointers[AccountId] == b.pointers[AccountId]
    && (Accounts, a.pointers[AccountId]) in rows && rows[(Accounts, a.pointers[AccountId])].status == Active
  }

  function Admission(db: Db, q: Request): Option<Refusal> {
    var w, l := (TableOf(q.target), q.winner), (TableOf(q.target), q.loser);
    if !q.authorized || q.winner == q.loser then Some(Forbidden)
    else if w !in db.rows || l !in db.rows || db.rows[w].status != Active || db.rows[l].status != Active then Some(Forbidden)
    else if db.rows[w].revision != q.winnerRevision || db.rows[l].revision != q.loserRevision then Some(Stale)
    else if !q.matched || (q.target == Contact && !SameActiveAccount(db.rows, db.rows[w], db.rows[l])) then Some(Forbidden)
    else None
  }

  function Survived(row: Row, lineage: nat): Row {
    row.(revision := row.revision + 1, audit := row.audit + [AuditEntry(lineage, row.revision + 1, Survivor)])
  }

  function MergedRow(row: Row, lineage: nat, winner: nat): Row {
    row.(revision := row.revision + 1, audit := row.audit + [AuditEntry(lineage, row.revision + 1, MergedAway)],
         status := Merged, mergedInto := Some(winner))
  }

  /** The ledger lines of one merge. */
  function LinesOf(rows: Rows, relations: seq<Relation>, loser: nat, lineage: nat): set<Impact> {
    set r <- relations, id <- Located(rows, r, loser) :: Impact(lineage, r, id, rows[(r.table, id)].revision)
  }

  function Merge(db: Db, q: Request): Result {
    var refusal := Admission(db, q);
    if refusal.Some? then Refused(refusal.value)
    else
      var relations := Relations(q.target);
      var lineage := db.watermark + 1;
      var located := LockImpacts(db.rows, relations, q.loser, IMPACT_LIMIT);
      if located.None? then Refused(Forbidden)
      else
        var rewritten := RewriteAll(db.rows, relations, located.value, lineage, q.loser, q.winner);
        if rewritten.None? then Refused(Stale)
        else if (q.target, q.loser) in db.lineage then Refused(Conflict)
        else Committed(Settle(db, rewritten.value, q, lineage))
  }

  /** Winner, loser and lineage, after the related records. */
  function Settle(db: Db, rows: Rows, q: Request, lineage: nat): Db {
    var w, l := (TableOf(q.target), q.winner), (TableOf(q.target), q.loser);
    if w in rows && l in rows then
      db.(rows := rows[w := Survived(rows[w], lineage)][l := MergedRow(rows[l], lineage, q.winner)],
          lineage := db.lineage[(q.target, q.loser) := q.winner],
          impacts := db.impacts + LinesOf(db.rows, Relations(q.target), q.loser, lineage),
          watermark := lineage)
    else db
  }
}
