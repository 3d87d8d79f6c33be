/** The cursor of a keyset page: how an id is written, and which decoded texts are read back. */
module Cursors {
  import opened Wrappers

  const MAX_SAFE := 9_007_199_254_740_991

  datatype Value = Number(n: int) | OtherValue(tag: int)

  /** A member of a decoded JSON object. */
  datatype Member = Member(name: string, value: Value)

  /** A cursor text decoded: not JSON, JSON that is no object, or an object with its members in order. */
  datatype Token = Malformed | NotAnObject | Object(members: seq<Member>)

  function Cursor(after: nat): Token { Object([Member("after", Number(after))]) }

  /** `Object.keys(parsed).join("")`. */
  function Joined(members: seq<Member>): string
    decreases |members|
  {
    if members == [] then "" else members[0].name + Joined(members[1..])
  }

  function Find(members: seq<Member>, name: string): Option<Value>
    decreases |members|
  {
    if members == [] then None else if members[0].name == name then Some(members[0].value) else Find(members[1..], name)
  }

  datatype Lookup = Found(after: nat) | NotFound

  /** The id a cursor stands for: the joined member names must read `after`, and its value be a positive safe integer. */
  function CursorAfter(token: Option<Token>): Lookup {
    if token.None? then Found(0)
    else if !token.value.Object? || Joined(token.value.members) != "after" then NotFound
    else
      match Find(token.value.members, "after")
      case Some(Number(n)) => if 0 < n <= MAX_SAFE then Found(n) else NotFound
      case _ => NotFound
  }

  /** Reading a cursor gives back the id it was made from. */
  lemma CursorRoundTrip(after: nat)
    requires 0 < after <= MAX_SAFE
    ensures CursorAfter(Some(Cursor(after))) == Found(after)
  {
    OneMember(Member("after", Number(after)));
  }

  // ---------- what is accepted ----------

  /** A JSON object has each member name once. */
  ghost predicate DistinctNames(members: seq<Member>) {
    forall i, j :: 0 <= i < j < |members| ==> members[i].name != members[j].name
  }

  lemma OneMember(m: Member)
    ensures Joined([m]) == m.name && Find([m], m.name) == Some(m.value)
  {
    assert [m][1..] == [];
    assert m.name + "" == m.name;
  }

  lemma TwoMembers(a: Member, b: Member)
    requires a.name != b.name
    ensures Joined([a, b]) == a.name + b.name
    ensures Find([a, b], a.name) == Some(a.value) && Find([a, b], b.name) == Some(b.value)
  {
    assert [a, b][1..] == [b];
    OneMember(b);
  }

  lemma RestIsDistinct(members: seq<Member>)
    requires members != [] && DistinctNames(members)
    ensures DistinctNames(members[1..]) && forall m <- members[1..] :: m.name != members[0].name
  {
  }

  lemma {:induction false} EmptyNames(members: seq<Member>)
    requires Joined(members) == ""
    ensures forall m <- members :: m.name == ""
    decreases |members|
  {
    if members != [] {
      EmptyNames(members[1..]);
      assert members == [members[0]] + members[1..];
    }
  }

  /** Names that join to nothing are all empty, so there is at most one of them. */
  lemma EmptyJoin(members: seq<Member>)
    requires DistinctNames(members) && Joined(members) == ""
    ensures members == [] || (|members| == 1 && members[0].name == "")
  {
    EmptyNames(members);
    if members != [] {
      RestIsDistinct(members);
      EmptyNames(members[1..]);
      hide DistinctNames, Joined;
      assert forall m <- members[1..] :: m.name != members[0].name && m.name == "";
      assert members == [members[0]] + members[1..];
    }
  }

  /** A member named `after` first leaves nothing but possibly one empty name behind it. */
  lemma AfterFirst(members: seq<Member>)
    requires DistinctNames(members) && members != [] && members[0].name == "after" && Joined(members) == "after"
    ensures members == [members[0]] || (|members| == 2 && members[1].name == "")
  {
    RestIsDistinct(members);
    assert "after" + Joined(members[1..]) == "after";
    assert |Joined(members[1..])| == 0;
    EmptyJoin(members[1..]);
    assert members == [members[0]] + members[1..];
  }

  /** A member named `after` later on can have only the empty name before it. */
  lemma {:induction false} FindSplits(members: seq<Member>, name: string)
    requires Find(members, name).Some?
    ensures |Joined(members)| >= |name|
    ensures members[0].name != name ==> |Joined(members)| >= |members[0].name| + |name| && Find(members[1..], name).Some?
    decreases |members|
  {
    if members[0].name != name { FindSplits(members[1..], name); }
  }

  lemma AfterLater(members: seq<Member>)
    requires DistinctNames(members) && Joined(members) == "after" && Find(members, "after").Some? && members[0].name != "after"
    ensures |members| == 2 && members[0].name == "" && members[1].name == "after"
  {
    hide DistinctNames, Joined, Find;
    NotEmptyWhenFound(members, "after");
    EmptyHead(members);
    RestIsDistinct(members);
    AfterAlone(members[1..]);
    assert members == [members[0]] + members[1..];
  }

  lemma NotEmptyWhenFound(members: seq<Member>, name: string)
    requires Find(members, name).Some?
    ensures members != []
  {
  }

  /** Only an empty name fits before `after`. */
  lemma EmptyHead(members: seq<Member>)
    requires Joined(members) == "after" && Find(members, "after").Some? && members[0].name != "after"
    ensures members[0].name == "" && Joined(members[1..]) == "after" && Find(members[1..], "after").Some?
  {
    FindSplits(members, "after");
    assert |members[0].name| == 0;
    assert Joined(members) == members[0].name + Joined(members[1..]);
    hide Joined, Find;
    assert members[0].name == "";
    assert "" + Joined(members[1..]) == Joined(members[1..]);
  }

  /** Without an empty name a member named `after` stands alone. */
  lemma AfterAlone(members: seq<Member>)
    requires DistinctNames(members) && Joined(members) == "after" && Find(members, "after").Some?
    requires forall m <- members :: m.name != ""
    ensures |members| == 1 && members[0].name == "after"
  {
    FindSplits(members, "after");
    assert members[0] in members;
    NonEmpty(members[0].name);
    if members[0].name == "after" {
      AfterFirst(members);
      if |members| == 2 { assert false; }
    } else {
      assert false;
    }
  }

  lemma NonEmpty(name: string)
    ensures name != "" ==> |name| > 0
  {
  }

  /** The shapes that are read as `n`: the issued one, and it with one extra member whose name is empty. */
  ghost predicate Readable(members: seq<Member>, n: nat) {
    || members == [Member("after", Number(n))]
    || (exists v :: members == [Member("after", Number(n)), Member("", v)])
    || (exists v :: members == [Member("", v), Member("after", Number(n))])
  }

  lemma ReadableIsFound(members: seq<Member>, n: nat)
    requires Readable(members, n) && 0 < n <= MAX_SAFE
    ensures CursorAfter(Some(Object(members))) == Found(n)
  {
    var m := Member("after", Number(n));
    OneMember(m);
    if v :| members == [m, Member("", v)] {
      TwoMembers(m, Member("", v));
      assert "after" + "" == "after";
    } else if v :| members == [Member("", v), m] {
      TwoMembers(Member("", v), m);
      assert "" + "after" == "after";
    }
  }

  lemma FoundIsReadable(members: seq<Member>, n: nat)
    requires DistinctNames(members) && 0 < n && CursorAfter(Some(Object(members))) == Found(n)
    ensures Readable(members, n)
  {
    hide CursorAfter;
    FoundMember(members, n);
    hide Joined;
    if members[0].name == "after" {
      AfterFirst(members);
      FirstFound(members, "after");
      if |members| == 2 { assert members == [Member("after", Number(n)), Member("", members[1].value)]; }
    } else {
      AfterLater(members);
      TwoMembers(members[0], members[1]);
      assert members == [members[0], members[1]];
      assert members == [Member("", members[0].value), Member("after", Number(n))];
    }
  }

  lemma FoundMember(members: seq<Member>, n: nat)
    requires 0 < n && CursorAfter(Some(Object(members))) == Found(n)
    ensures members != [] && Joined(members) == "after" && Find(members, "after") == Some(Number(n))
  {
  }

  lemma FirstFound(members: seq<Member>, name: string)
    requires members != [] && members[0].name == name
    ensures Find(members, name) == Some(members[0].value)
  {
  }

  /** What is read as `n` is exactly the cursor issued for `n`, with or without one extra member whose name is empty. */
  lemma AcceptedCursors(members: seq<Member>, n: nat)
    requires DistinctNames(members) && 0 < n <= MAX_SAFE
    ensures CursorAfter(Some(Object(members))) == Found(n) <==> Readable(members, n)
  {
    hide CursorAfter, Readable, DistinctNames;
    if CursorAfter(Some(Object(members))) == Found(n) { FoundIsReadable(members, n); }
    if Readable(members, n) { ReadableIsFound(members, n); }
  }
}
