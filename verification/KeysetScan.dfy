/**
 Keyset scans and the cursors built on them: duplicate candidates page by page, and the export snapshot.
 The eligible rows of a query are a sequence in id order; a query sees the rows after an id, at most a batch of them.
 */
module KeysetScan {
  import opened Wrappers
  import opened Cursors

  const BATCH := 100
  const PAGE := 100
  const CANDIDATE_LIMIT := 1_000
  const EXPORT_LIMIT := 10_000

  datatype MatchKind = AccountName | ContactEmail | ContactPhone | ContactEmailAndPhone

  /** An eligible row and how it matches the subject, if it does. */
  datatype Candidate = Candidate(id: nat, revision: nat, kind: Option<MatchKind>)

  ghost predicate Ordered(table: seq<Candidate>) {
    && (forall c <- table :: 0 < c.id <= MAX_SAFE)
    && (forall i, j :: 0 <= i < j < |table| ==> table[i].id < table[j].id)
  }

  /** `WHERE id > after ORDER BY id`. */
  function After(table: seq<Candidate>, after: nat): seq<Candidate>
    decreases |table|
  {
    if table == [] then [] else if table[0].id > after then table else After(table[1..], after)
  }

  function Batch(table: seq<Candidate>, after: nat): (b: seq<Candidate>)
    ensures |b| <= BATCH
  {
    var rest := After(table, after);
    if |rest| <= BATCH then rest else rest[..BATCH]
  }

  /** The rows that match, in order: what the batched scan must find. */
  function Matches(table: seq<Candidate>): seq<Candidate>
    decreases |table|
  {
    if table == [] then [] else Matches(table[..|table| - 1]) + if table[|table| - 1].kind.Some? then [table[|table| - 1]] else []
  }

  lemma {:induction false} AfterIsSuffix(table: seq<Candidate>, p: nat, after: nat)
    requires p <= |table| && (forall i | 0 <= i < p :: table[i].id <= after) && (p < |table| ==> table[p].id > after)
    ensures After(table, after) == table[p..]
    decreases p
  {
    if p > 0 {
      AfterIsSuffix(table[1..], p - 1, after);
      assert table[1..][p - 1..] == table[p..];
    } else {
      assert table[0..] == table;
    }
  }

  lemma MatchesExtend(table: seq<Candidate>, n: nat)
    requires n < |table|
    ensures Matches(table[..n + 1]) == Matches(table[..n]) + if table[n].kind.Some? then [table[n]] else []
  {
    assert table[..n + 1][..n] == table[..n];
  }

  lemma {:induction false} MatchesGrow(table: seq<Candidate>, n: nat)
    requires n <= |table|
    ensures Matches(table[..n]) <= Matches(table)
    decreases |table| - n
  {
    if n < |table| {
      MatchesExtend(table, n);
      MatchesGrow(table, n + 1);
    } else {
      assert table[..n] == table;
    }
  }

  /** The scan has read the first `p` rows and will ask for those after id `after`. */
  ghost predicate At(table: seq<Candidate>, p: nat, after: nat) {
    p <= |table| && (forall i | 0 <= i < p :: table[i].id <= after) && (p < |table| ==> table[p].id > after)
  }

  lemma BatchAt(table: seq<Candidate>, p: nat, after: nat)
    requires At(table, p, after)
    ensures var b := Batch(table, after);
            p + |b| <= |table| && b == table[p..p + |b|] && (|b| == BATCH || p + |b| == |table|)
  {
    AfterIsSuffix(table, p, after);
  }

  lemma MoveOn(table: seq<Candidate>, p: nat)
    requires Ordered(table) && 0 < p <= |table|
    ensures At(table, p, table[p - 1].id)
  {
  }

  lemma BatchStep(table: seq<Candidate>, p: nat, batch: seq<Candidate>, j: nat)
    requires j < |batch| && p + |batch| <= |table| && batch == table[p..p + |batch|]
    ensures batch[j] == table[p + j] && p + j < |table|
    ensures Matches(table[..p + j + 1]) == Matches(table[..p + j]) + if batch[j].kind.Some? then [batch[j]] else []
  {
    MatchesExtend(table, p + j);
  }

  /** The batched scan stops, finds every match of the whole table in order, and gives up only past the limit. */
  method ScanMatches(table: seq<Candidate>) returns (matches: seq<Candidate>)
    requires Ordered(table)
    ensures |Matches(table)| <= CANDIDATE_LIMIT ==> matches == Matches(table)
    ensures |Matches(table)| > CANDIDATE_LIMIT ==> |matches| == CANDIDATE_LIMIT + 1 && matches <= Matches(table)
  {
    hide Ordered, At, Matches;
    matches := [];
    var after: nat := 0;
    ghost var p := 0;
    StartOfScan(table);
    while |matches| <= CANDIDATE_LIMIT
      invariant p <= |table| && matches == Matches(table[..p]) && |matches| <= CANDIDATE_LIMIT + 1
      invariant At(table, p, after)
      decreases |table| - p
    {
      BatchAt(table, p, after);
      var batch := Batch(table, after);
      var j := 0;
      while j < |batch|
        invariant j <= |batch| && p + |batch| <= |table| && batch == table[p..p + |batch|]
        invariant matches == Matches(table[..p + j]) && |matches| <= CANDIDATE_LIMIT
      {
        BatchStep(table, p, batch, j);
        if batch[j].kind.Some? { matches := matches + [batch[j]]; }
        if |matches| > CANDIDATE_LIMIT {
          MatchesGrow(table, p + j + 1);
          return;
        }
        j := j + 1;
      }
      p := p + |batch|;
      if |batch| < BATCH {
        assert table[..p] == table;
        return;
      }
      after := batch[|batch| - 1].id;
      MoveOn(table, p);
    }
    MatchesGrow(table, p);
  }

  lemma StartOfScan(table: seq<Candidate>)
    requires Ordered(table)
    ensures At(table, 0, 0) && Matches(table[..0]) == []
  {
    if table != [] { assert table[0] in table; }
  }

  /** The export snapshot takes every row of the table, or fails past its limit. */
  method ScanExport(table: seq<Candidate>) returns (records: Option<seq<Candidate>>)
    requires Ordered(table)
    ensures records == if |table| <= EXPORT_LIMIT then Some(table) else None
  {
    hide Ordered, At;
    var found, after: nat := [], 0;
    StartOfScan(table);
    while true
      invariant |found| <= |table| && |found| <= EXPORT_LIMIT && found == table[..|found|]
      invariant At(table, |found|, after)
      decreases |table| - |found|
    {
      BatchAt(table, |found|, after);
      var batch := Batch(table, after);
      ghost var p := |found|;
      found := found + batch;
      assert found == table[..p + |batch|];
      if |found| > EXPORT_LIMIT { return None; }
      if |batch| < BATCH {
        assert table[..|table|] == table;
        return Some(found);
      }
      after := batch[|batch| - 1].id;
      MoveOn(table, |found|);
    }
  }

  // ---------- pages ----------

  datatype Page = Page(rows: seq<Candidate>, next: Option<Token>)
  datatype Answer = Answered(page: Page) | LimitExceeded | CursorUnavailable

  /** The position of the first match after an id, or the number of matches when there is none. */
  function FirstAfter(matches: seq<Candidate>, after: nat): (offset: nat)
    ensures offset <= |matches| && forall i | 0 <= i < offset :: matches[i].id <= after
    ensures offset < |matches| ==> matches[offset].id > after
    decreases |matches|
  {
    if matches == [] || matches[0].id > after then 0 else FirstAfter(matches[1..], after) + 1
  }

  /** One call of the data source, given the matches the scan found. */
  function FindPage(matches: seq<Candidate>, cursor: Option<Token>): Answer {
    if |matches| > CANDIDATE_LIMIT then LimitExceeded
    else
      match CursorAfter(cursor)
      case NotFound => CursorUnavailable
      case Found(after) =>
        var offset := FirstAfter(matches, after);
        if offset == |matches| && cursor.Some? then CursorUnavailable
        else
          var start := if offset == |matches| then 0 else offset;
          var end := if start + PAGE < |matches| then start + PAGE else |matches|;
          var rows := matches[start..end];
          Answered(Page(rows, if |rows| == PAGE && start + PAGE < |matches| then Some(Cursor(rows[PAGE - 1].id)) else None))
  }

  /** A whole call: scan, limit, cursor, page. */
  method FindCandidates(table: seq<Candidate>, cursor: Option<Token>) returns (answer: Answer)
    requires Ordered(table)
    ensures answer == FindPage(Matches(table), cursor)
  {
    var matches := ScanMatches(table);
    return FindPage(matches, cursor);
  }

  lemma {:induction false} MatchesAreOrdered(table: seq<Candidate>)
    requires Ordered(table)
    ensures Ordered(Matches(table)) && forall c <- Matches(table) :: c in table && c.kind.Some?
    ensures forall c <- table :: c.kind.Some? ==> c in Matches(table)
    decreases |table|
  {
    hide Ordered;
    EmptyOrdered();
    if table != [] {
      var n := |table| - 1;
      PrefixOrdered(table);
      MatchesAreOrdered(table[..n]);
      assert table == table[..n] + [table[n]];
      if table[n].kind.Some? {
        OrderedAppend(Matches(table[..n]), table[n]);
      } else {
        assert Matches(table) == Matches(table[..n]);
      }
    }
  }

  lemma EmptyOrdered()
    ensures Ordered([])
  {
  }

  lemma PrefixOrdered(table: seq<Candidate>)
    requires Ordered(table) && table != []
    ensures var n := |table| - 1;
            Ordered(table[..n]) && 0 < table[n].id <= MAX_SAFE && forall c <- table[..n] :: c in table && c.id < table[n].id
  {
    assert table[|table| - 1] in table;
  }

  lemma OrderedAppend(found: seq<Candidate>, c: Candidate)
    requires Ordered(found) && 0 < c.id <= MAX_SAFE && forall f <- found :: f.id < c.id
    ensures Ordered(found + [c])
  {
  }

  /** The pages a client sees that starts at `cursor` and follows every next cursor, as long as calls succeed. */
  function Followed(matches: seq<Candidate>, cursor: Option<Token>, calls: nat): (r: Option<seq<seq<Candidate>>>)
    decreases calls
  {
    if calls == 0 then None
    else
      match FindPage(matches, cursor)
      case Answered(page) =>
        if page.next.None? then Some([page.rows])
        else
          var rest := Followed(matches, page.next, calls - 1);
          if rest.None? then None else Some([page.rows] + rest.value)
      case _ => None
  }

  function Flat(pages: seq<seq<Candidate>>): seq<Candidate>
    decreases |pages|
  {
    if pages == [] then [] else pages[0] + Flat(pages[1..])
  }

  lemma OffsetOf(matches: seq<Candidate>, k: nat)
    requires Ordered(matches) && 0 < k < |matches|
    ensures FirstAfter(matches, matches[k - 1].id) == k
  {
    var offset := FirstAfter(matches, matches[k - 1].id);
    assert forall i | 0 <= i < k :: matches[i].id <= matches[k - 1].id;
    assert matches[k].id > matches[k - 1].id;
  }

  /** From the `k`-th match on, the remaining pages are the remaining matches, in at most as many calls as rows. */
  lemma {:induction false} FollowingReturnsTheRest(matches: seq<Candidate>, k: nat, cursor: Option<Token>, calls: nat)
    requires Ordered(matches) && |matches| <= CANDIDATE_LIMIT && calls > |matches| - k
    requires k <= |matches| && (k == 0 ==> cursor.None?)
    requires k > 0 ==> k < |matches| && cursor == Some(Cursor(matches[k - 1].id))
    ensures var pages := Followed(matches, cursor, calls); pages.Some? && Flat(pages.value) == matches[k..]
    decreases calls
  {
    hide Ordered, FindPage, Flat;
    PageAt(matches, k, cursor);
    FollowOne(matches, cursor, calls);
    var page := FindPage(matches, cursor).page;
    if page.next.None? {
      OnlyPage(page.rows);
    } else {
      FollowingReturnsTheRest(matches, k + PAGE, page.next, calls - 1);
      FirstPage(page.rows, Followed(matches, page.next, calls - 1).value);
      hide Followed;
      assert matches[k..] == page.rows + matches[k + PAGE..];
    }
  }

  lemma FollowOne(matches: seq<Candidate>, cursor: Option<Token>, calls: nat)
    requires calls > 0 && FindPage(matches, cursor).Answered?
    ensures var page := FindPage(matches, cursor).page;
            Followed(matches, cursor, calls) ==
              if page.next.None? then Some([page.rows])
              else if Followed(matches, page.next, calls - 1).None? then None
              else Some([page.rows] + Followed(matches, page.next, calls - 1).value)
  {
    hide FindPage;
  }

  lemma OnlyPage(rows: seq<Candidate>)
    ensures Flat([rows]) == rows
  {
    assert Flat([rows]) == rows + Flat([]);
  }

  lemma FirstPage(rows: seq<Candidate>, rest: seq<seq<Candidate>>)
    ensures Flat([rows] + rest) == rows + Flat(rest)
  {
    assert ([rows] + rest)[1..] == rest;
  }

  /** The page a cursor leads to: the matches from where it stopped, and a next cursor exactly while some remain. */
  lemma PageAt(matches: seq<Candidate>, k: nat, cursor: Option<Token>)
    requires Ordered(matches) && |matches| <= CANDIDATE_LIMIT
    requires k <= |matches| && (k == 0 ==> cursor.None?)
    requires k > 0 ==> k < |matches| && cursor == Some(Cursor(matches[k - 1].id))
    ensures var answer := FindPage(matches, cursor);
            && answer.Answered?
            && (if k + PAGE < |matches| then
                  answer.page.rows == matches[k..k + PAGE] && answer.page.next == Some(Cursor(matches[k + PAGE - 1].id))
                else answer.page.rows == matches[k..] && answer.page.next.None?)
  {
    hide Ordered, FirstAfter, CursorAfter;
    OffsetAt(matches, k, cursor);
    assert matches[k..|matches|] == matches[k..];
  }

  lemma OffsetAt(matches: seq<Candidate>, k: nat, cursor: Option<Token>)
    requires Ordered(matches) && k <= |matches| && (k == 0 ==> cursor.None?)
    requires k > 0 ==> k < |matches| && cursor == Some(Cursor(matches[k - 1].id))
    ensures CursorAfter(cursor).Found? && FirstAfter(matches, CursorAfter(cursor).after) == k
  {
    if k > 0 {
      assert matches[k - 1] in matches;
      CursorRoundTrip(matches[k - 1].id);
      OffsetOf(matches, k);
    } else if matches != [] {
      assert matches[0] in matches;
    }
  }

  /**
   With unchanged data, following cursors from the first call returns every match exactly once in increasing id order,
   never meets an unavailable cursor, and stops.
   */
  lemma FollowingCursorsReturnsEveryMatch(table: seq<Candidate>)
    requires Ordered(table) && |Matches(table)| <= CANDIDATE_LIMIT
    ensures var pages := Followed(Matches(table), None, |Matches(table)| + 1);
            && pages.Some? && Flat(pages.value) == Matches(table) && Ordered(Flat(pages.value))
            && forall c <- table :: c.kind.Some? <==> c in Flat(pages.value)
  {
    MatchesAreOrdered(table);
    FollowingReturnsTheRest(Matches(table), 0, None, |Matches(table)| + 1);
    assert Matches(table)[0..] == Matches(table);
  }

  /** The only error of a first call is the limit, and it is reported exactly when there are more matches than it. */
  lemma FirstCallFailsOnlyPastTheLimit(table: seq<Candidate>)
    ensures FindPage(Matches(table), None).Answered? <==> |Matches(table)| <= CANDIDATE_LIMIT
    ensures FindPage(Matches(table), None).LimitExceeded? <==> |Matches(table)| > CANDIDATE_LIMIT
  {
  }
}
