/**
 The sales-cycle metric: the median of whole-day durations, found by position and next value in the sorted list, and
 then printed with its trailing zeros trimmed.
 */
module Median {
  import opened Wrappers
  import opened Decimals

  predicate Sorted(s: seq<nat>)
    decreases |s|
  {
    |s| <= 1 || (s[0] <= s[1] && Sorted(s[1..]))
  }

  lemma {:induction false} SortedAt(s: seq<nat>, i: nat, j: nat)
    requires Sorted(s) && i <= j < |s|
    ensures s[i] <= s[j]
    decreases |s|
  {
    if i > 0 {
      SortedAt(s[1..], i - 1, j - 1);
    } else if j > 0 {
      SortedAt(s[1..], 0, j - 1);
    }
  }

  function Insert(x: nat, s: seq<nat>): seq<nat>
    decreases |s|
  {
    if s == [] || x <= s[0] then [x] + s else [s[0]] + Insert(x, s[1..])
  }

  /** `ORDER BY whole_days`. */
  function Ordered(s: seq<nat>): seq<nat>
    decreases |s|
  {
    if s == [] then [] else Insert(s[0], Ordered(s[1..]))
  }

  lemma {:induction false} InsertIsSorted(x: nat, s: seq<nat>)
    requires Sorted(s)
    ensures Sorted(Insert(x, s)) && |Insert(x, s)| == |s| + 1
    ensures Insert(x, s)[0] == if s == [] || x <= s[0] then x else s[0]
    decreases |s|
  {
    if s != [] && x > s[0] {
      InsertIsSorted(x, s[1..]);
      assert ([s[0]] + Insert(x, s[1..]))[1..] == Insert(x, s[1..]);
    } else {
      assert ([x] + s)[1..] == s;
    }
  }

  lemma {:induction false} InsertKeepsElements(x: nat, s: seq<nat>)
    ensures multiset(Insert(x, s)) == multiset(s) + multiset{x}
    decreases |s|
  {
    if s != [] && x > s[0] {
      InsertKeepsElements(x, s[1..]);
      assert s == [s[0]] + s[1..];
    }
  }

  lemma {:induction false} OrderedIsSorted(s: seq<nat>)
    ensures Sorted(Ordered(s)) && |Ordered(s)| == |s|
    decreases |s|
  {
    if s != [] {
      OrderedIsSorted(s[1..]);
      InsertIsSorted(s[0], Ordered(s[1..]));
    }
  }

  lemma {:induction false} OrderedKeepsElements(s: seq<nat>)
    ensures multiset(Ordered(s)) == multiset(s)
    decreases |s|
  {
    if s != [] {
      OrderedKeepsElements(s[1..]);
      InsertKeepsElements(s[0], Ordered(s[1..]));
      assert s == [s[0]] + s[1..];
    }
  }

  /** The value at the middle position, averaged with the next one when the number of values is even; in half-days. */
  function MiddleOf(s: seq<nat>): Option<nat> {
    var n := |s|;
    if n == 0 then None
    else if n % 2 == 1 then Some(2 * s[(n + 1) / 2 - 1])
    else Some(s[n / 2 - 1] + s[n / 2])
  }

  function MedianHalves(durations: seq<nat>): Option<nat> { MiddleOf(Ordered(durations)) }

  /** How many values, doubled, are at or below a mark; and at or above it. */
  function AtMost(s: seq<nat>, mark: nat): nat
    decreases |s|
  {
    if s == [] then 0 else AtMost(s[1..], mark) + if 2 * s[0] <= mark then 1 else 0
  }

  function AtLeast(s: seq<nat>, mark: nat): nat
    decreases |s|
  {
    if s == [] then 0 else AtLeast(s[1..], mark) + if 2 * s[0] >= mark then 1 else 0
  }

  lemma {:induction false} CountsIgnoreInsertion(x: nat, s: seq<nat>, mark: nat)
    ensures AtMost(Insert(x, s), mark) == AtMost([x] + s, mark)
    ensures AtLeast(Insert(x, s), mark) == AtLeast([x] + s, mark)
    decreases |s|
  {
    assert ([x] + s)[1..] == s;
    if s != [] && x > s[0] {
      CountsIgnoreInsertion(x, s[1..], mark);
      assert ([x] + s[1..])[1..] == s[1..];
      assert ([s[0]] + Insert(x, s[1..]))[1..] == Insert(x, s[1..]);
    }
  }

  lemma {:induction false} CountsIgnoreOrder(s: seq<nat>, mark: nat)
    ensures AtMost(Ordered(s), mark) == AtMost(s, mark) && AtLeast(Ordered(s), mark) == AtLeast(s, mark)
    decreases |s|
  {
    if s != [] {
      CountsIgnoreOrder(s[1..], mark);
      CountsIgnoreInsertion(s[0], Ordered(s[1..]), mark);
      assert ([s[0]] + Ordered(s[1..]))[1..] == Ordered(s[1..]);
    }
  }

  lemma {:induction false} PrefixIsAtMost(s: seq<nat>, k: nat, mark: nat)
    requires k <= |s| && forall i | 0 <= i < k :: 2 * s[i] <= mark
    ensures AtMost(s, mark) >= k
    decreases |s|
  {
    if k > 0 { PrefixIsAtMost(s[1..], k - 1, mark); }
  }

  lemma {:induction false} SuffixIsAtLeast(s: seq<nat>, k: nat, mark: nat)
    requires k <= |s| && forall i | k <= i < |s| :: 2 * s[i] >= mark
    ensures AtLeast(s, mark) >= |s| - k
    decreases |s|
  {
    if s != [] { SuffixIsAtLeast(s[1..], if k > 0 then k - 1 else 0, mark); }
  }

  /** The formula finds a median: at least half of the durations lie at or below it and at least half at or above it. */
  lemma FormulaIsAMedian(durations: seq<nat>)
    ensures MedianHalves(durations).None? <==> durations == []
    ensures MedianHalves(durations).Some? ==>
              2 * AtMost(durations, MedianHalves(durations).value) >= |durations| &&
              2 * AtLeast(durations, MedianHalves(durations).value) >= |durations|
  {
    OrderedIsSorted(durations);
    hide Ordered, MiddleOf, AtMost, AtLeast;
    MiddleIsAMedian(Ordered(durations));
    if MedianHalves(durations).Some? { CountsIgnoreOrder(durations, MedianHalves(durations).value); }
  }

  lemma MiddleIsAMedian(s: seq<nat>)
    requires Sorted(s)
    ensures MiddleOf(s).None? <==> |s| == 0
    ensures MiddleOf(s).Some? ==> 2 * AtMost(s, MiddleOf(s).value) >= |s| && 2 * AtLeast(s, MiddleOf(s).value) >= |s|
  {
    hide Sorted, AtMost, AtLeast;
    var n := |s|;
    if n > 0 {
      var m := MiddleOf(s).value;
      if n % 2 == 1 {
        MiddleSplits(s, (n - 1) / 2, (n + 1) / 2, m);
      } else {
        SortedAt(s, n / 2 - 1, n / 2);
        MiddleSplits(s, n / 2, n / 2, m);
      }
    }
  }

  /** A mark between two positions of a sorted list has everything before the one at or below it, everything after at or above. */
  lemma MiddleSplits(s: seq<nat>, lower: nat, upper: nat, mark: nat)
    requires Sorted(s) && 0 < upper <= |s| && lower < |s| && 2 * s[upper - 1] <= mark <= 2 * s[lower]
    ensures AtMost(s, mark) >= upper && AtLeast(s, mark) >= |s| - lower
  {
    forall i | 0 <= i < upper ensures 2 * s[i] <= mark { SortedAt(s, i, upper - 1); }
    forall i | lower <= i < |s| ensures 2 * s[i] >= mark { SortedAt(s, lower, i); }
    PrefixIsAtMost(s, upper, mark);
    SuffixIsAtLeast(s, lower, mark);
  }

  /** `a` and `b` are the lower and the upper middle value: strictly more than half lie on the far side of each. */
  ghost predicate MiddlePair(s: seq<nat>, a: nat, b: nat) {
    && a in s && b in s && a <= b
    && 2 * AtMost(s, 2 * a) >= |s| && 2 * AtLeast(s, 2 * a) > |s|
    && 2 * AtMost(s, 2 * b) > |s| && 2 * AtLeast(s, 2 * b) >= |s|
  }

  /** The median is the mean of the lower and the upper middle value, which are one value for an odd number of durations. */
  lemma MedianIsTheMeanOfTheMiddle(durations: seq<nat>)
    requires durations != []
    ensures exists a: nat, b: nat :: MedianHalves(durations) == Some(a + b) && MiddlePair(durations, a, b)
  {
    var s, n := Ordered(durations), |durations|;
    OrderedIsSorted(durations);
    OrderedKeepsElements(durations);
    hide Ordered, Sorted, AtMost, AtLeast;
    var i, j := (n - 1) / 2, n / 2;
    var a, b := s[i], s[j];
    SortedAt(s, i, j);
    MiddleSplits(s, i, i + 1, 2 * a);
    MiddleSplits(s, j, j + 1, 2 * b);
    CountsIgnoreOrder(durations, 2 * a);
    CountsIgnoreOrder(durations, 2 * b);
    assert a in multiset(s) && b in multiset(s);
    assert MiddlePair(durations, a, b);
  }

  lemma {:induction false} SortedIsUnique(a: seq<nat>, b: seq<nat>)
    requires Sorted(a) && Sorted(b) && multiset(a) == multiset(b)
    ensures a == b
    decreases |a|
  {
    assert |multiset(a)| == |a| && |multiset(b)| == |b|;
    if a != [] {
      HeadIsLeast(a, b[0]);
      HeadIsLeast(b, a[0]);
      TailElements(a);
      TailElements(b);
      assert Sorted(a[1..]) && Sorted(b[1..]);
      hide Sorted;
      SortedIsUnique(a[1..], b[1..]);
      assert a == [a[0]] + a[1..] && b == [b[0]] + b[1..];
    }
  }

  lemma TailElements(s: seq<nat>)
    requires s != []
    ensures multiset(s[1..]) == multiset(s) - multiset{s[0]} && s[0] in multiset(s)
  {
    assert s == [s[0]] + s[1..];
  }

  lemma HeadIsLeast(s: seq<nat>, x: nat)
    requires Sorted(s) && s != []
    ensures x in multiset(s) ==> s[0] <= x
  {
    if x in multiset(s) {
      var i :| 0 <= i < |s| && s[i] == x;
      SortedAt(s, 0, i);
    }
  }

  /** The order of the input does not matter. */
  lemma MedianIgnoresOrder(a: seq<nat>, b: seq<nat>)
    requires multiset(a) == multiset(b)
    ensures MedianHalves(a) == MedianHalves(b)
  {
    hide Ordered, Sorted, MiddleOf;
    OrderedIsSorted(a);
    OrderedIsSorted(b);
    OrderedKeepsElements(a);
    OrderedKeepsElements(b);
    SortedIsUnique(Ordered(a), Ordered(b));
  }

  // ---------- printing ----------

  function Zeros(n: nat): (s: string)
    ensures |s| == n && forall i | 0 <= i < n :: s[i] == '0'
  {
    seq(n, _ => '0')
  }

  /** `trim(trailing c from s)`. */
  function Trim(s: string, c: char): (r: string)
    ensures r <= s && (r == "" || r[|r| - 1] != c)
    decreases |s|
  {
    if s == "" || s[|s| - 1] != c then s else Trim(s[..|s| - 1], c)
  }

  /**
   The database text of the value: the stored whole number when the number of durations is odd, and otherwise a quotient,
   which carries at least one fraction digit.
   */
  function Text(halves: nat, odd: bool, scale: nat): string
    requires scale >= 1
  {
    if odd then Print(halves / 2)
    else Print(halves / 2) + "." + (if halves % 2 == 1 then "5" else "0") + Zeros(scale - 1)
  }

  /** What the report returns: zeros trimmed, then dots, and "0" for what is left empty. */
  function Printed(durations: seq<nat>, scale: nat): Option<string>
    requires scale >= 1
  {
    var m := MedianHalves(durations);
    if m.None? then None
    else
      var trimmed := Trim(Trim(Text(m.value, |durations| % 2 == 1, scale), '0'), '.');
      Some(if trimmed == "" then "0" else trimmed)
  }

  /** The exact decimal text of a number of half-days. */
  function Exact(halves: nat): string { Print(halves / 2) + if halves % 2 == 1 then ".5" else "" }

  lemma {:induction false} TrimRepeats(s: string, c: char, n: nat, tail: string)
    requires |tail| == n && forall i | 0 <= i < n :: tail[i] == c
    ensures Trim(s + tail, c) == Trim(s, c)
    decreases n
  {
    if n == 0 {
      assert s + tail == s;
    } else {
      assert (s + tail)[..|s + tail| - 1] == s + tail[..n - 1];
      TrimRepeats(s, c, n - 1, tail[..n - 1]);
    }
  }

  lemma LastDigit(n: nat)
    ensures |Print(n)| > 0 && Print(n)[|Print(n)| - 1] == Digit(n % 10)
  {
    PrintIsCanonical(n);
  }

  lemma EvenIsExact(halves: nat, scale: nat)
    requires scale >= 1
    ensures var trimmed := Trim(Trim(Text(halves, false, scale), '0'), '.'); trimmed == Exact(halves) && trimmed != ""
  {
    var whole := Print(halves / 2);
    LastDigit(halves / 2);
    var zeros := Zeros(scale - 1);
    if halves % 2 == 1 {
      assert Text(halves, false, scale) == whole + ".5" + zeros;
      TrimRepeats(whole + ".5", '0', scale - 1, zeros);
    } else {
      assert Text(halves, false, scale) == whole + "." + ("0" + zeros);
      TrimRepeats(whole + ".", '0', scale, "0" + zeros);
      assert (whole + ".")[..|whole|] == whole;
    }
  }

  /**
   The printed value is the median, unless an odd number of durations has a positive median that is a multiple of ten:
   its trailing zeros are trimmed as if they were decimals.
   */
  lemma PrintedIsTheMedianExactly(durations: seq<nat>, scale: nat)
    requires scale >= 1 && durations != []
    ensures MedianHalves(durations).Some?
    ensures var m := MedianHalves(durations).value;
            Printed(durations, scale) == Some(Exact(m)) <==> |durations| % 2 == 0 || m == 0 || (m / 2) % 10 != 0
  {
    FormulaIsAMedian(durations);
    OrderedIsSorted(durations);
    var m := MedianHalves(durations).value;
    if |durations| % 2 == 0 {
      EvenIsExact(m, scale);
    } else {
      OddPrints(m);
    }
  }

  lemma OddPrints(m: nat)
    requires m % 2 == 0
    ensures var trimmed := Trim(Trim(Text(m, true, 1), '0'), '.');
            (if trimmed == "" then "0" else trimmed) == Exact(m) <==> m == 0 || (m / 2) % 10 != 0
  {
    var text := Print(m / 2);
    LastDigit(m / 2);
    PrintIsCanonical(m / 2);
    assert Exact(m) == text;
    if m == 0 {
      assert text == "0" && text[..0] == "";
    } else if (m / 2) % 10 == 0 {
      assert |Trim(text[..|text| - 1], '0')| < |text|;
    }
  }

  /** Three deals of ten days are reported as a one-day cycle. */
  lemma TenDaysPrintAsOne()
    ensures Printed([10, 10, 10], 16) == Some("1")
  {
    var d := [10, 10, 10];
    assert d[1..] == [10, 10] && d[1..][1..] == [10] && d[1..][1..][1..] == [];
    assert Ordered(d[1..][1..]) == [10];
    assert Ordered(d[1..]) == [10, 10];
    assert Ordered(d) == [10, 10, 10];
    assert Print(10) == Print(1) + ['0'] == "10";
    assert "10"[..1] == "1";
  }
}
