/** The numeric record-ID pattern: canonical decimals from 1 to the largest 32-bit integer. */
module RecordId {
  import opened Decimals

  const MAX_ID := 2_147_483_647

  /** `prefix` literally, one character in `low`..`high`, then `tail` digits. */
  datatype Alternative = Alternative(prefix: string, low: char, high: char, tail: nat)

  /** The alternatives after `[1-9][0-9]{0,8}`, in the order of the pattern. */
  const LONG: seq<Alternative> := [
    Alternative("", '1', '1', 9), Alternative("2", '0', '0', 8), Alternative("21", '0', '3', 7), Alternative("214", '0', '6', 6),
    Alternative("2147", '0', '3', 5), Alternative("21474", '0', '7', 4), Alternative("214748", '0', '2', 3),
    Alternative("2147483", '0', '5', 2), Alternative("21474836", '0', '3', 1), Alternative("214748364", '0', '7', 0)]

  predicate MatchesShort(s: string) { 1 <= |s| <= 9 && '1' <= s[0] <= '9' && AllDigits(s[1..]) }

  predicate Matches(a: Alternative, s: string) {
    && |s| == |a.prefix| + 1 + a.tail && s[..|a.prefix|] == a.prefix
    && a.low <= s[|a.prefix|] <= a.high && AllDigits(s[|a.prefix| + 1..])
  }

  /** `salesRecordIdPattern`, anchored at both ends. */
  predicate MatchesPattern(s: string) { MatchesShort(s) || exists a <- LONG :: Matches(a, s) }

  predicate Digits(a: Alternative) { AllDigits(a.prefix) && IsDigit(a.low) && IsDigit(a.high) && a.low <= a.high }

  function Low(a: Alternative): nat
    requires Digits(a)
  {
    (Value(a.prefix) * 10 + DigitValue(a.low)) * Pow10(a.tail)
  }

  function High(a: Alternative): nat
    requires Digits(a)
  {
    (Value(a.prefix) * 10 + DigitValue(a.high) + 1) * Pow10(a.tail)
  }

  /** An alternative accepts exactly the digit strings of its length whose value lies in its interval. */
  lemma AlternativeIsAnInterval(a: Alternative, s: string)
    requires Digits(a)
    ensures Matches(a, s) <==> AllDigits(s) && |s| == |a.prefix| + 1 + a.tail && Low(a) <= Value(s) < High(a)
  {
    hide Value, Pow10, Low, High, AllDigits;
    if Matches(a, s) {
      MatchIsInside(a, s);
    } else if AllDigits(s) && |s| == |a.prefix| + 1 + a.tail && Low(a) <= Value(s) < High(a) {
      InsideMatches(a, s);
    }
  }

  lemma MatchIsInside(a: Alternative, s: string)
    requires Digits(a) && Matches(a, s)
    ensures AllDigits(s) && Low(a) <= Value(s) < High(a)
  {
    hide Value, Pow10;
    var n := |a.prefix|;
    var p, c, t := s[..n], s[n], s[n + 1..];
    assert s == p + [c] + t;
    DigitsJoin(p, c, t);
    SplitValue(p, c, t);
    IntervalArithmetic(Value(p) * 10 + DigitValue(c), Value(t), Pow10(a.tail), Value(p) * 10 + DigitValue(a.low), Value(p) * 10 + DigitValue(a.high));
  }

  lemma InsideMatches(a: Alternative, s: string)
    requires Digits(a) && AllDigits(s) && |s| == |a.prefix| + 1 + a.tail && Low(a) <= Value(s) < High(a)
    ensures Matches(a, s)
  {
    hide Value, Pow10;
    var n := |a.prefix|;
    var p, c, t := s[..n], s[n], s[n + 1..];
    assert s == p + [c] + t;
    DigitsSplit(s, n);
    SplitValue(p, c, t);
    IntervalArithmetic(Value(p) * 10 + DigitValue(c), Value(t), Pow10(a.tail), Value(a.prefix) * 10 + DigitValue(a.low), Value(a.prefix) * 10 + DigitValue(a.high));
    assert Value(p) == Value(a.prefix);
    SameLengthSameValue(p, a.prefix);
  }

  lemma DigitsJoin(p: string, c: char, t: string)
    requires AllDigits(p) && IsDigit(c) && AllDigits(t)
    ensures AllDigits(p + [c] + t)
  {
  }

  lemma DigitsSplit(s: string, n: nat)
    requires AllDigits(s) && n < |s|
    ensures AllDigits(s[..n]) && IsDigit(s[n]) && AllDigits(s[n + 1..])
  {
  }

  lemma SplitValue(p: string, c: char, t: string)
    requires AllDigits(p) && IsDigit(c) && AllDigits(t)
    ensures AllDigits(p + [c] + t) && Value(p + [c] + t) == (Value(p) * 10 + DigitValue(c)) * Pow10(|t|) + Value(t)
    ensures Value(t) < Pow10(|t|)
  {
    hide Value, Pow10;
    ValueAppend(p, c);
    ValueSplits(p + [c], t);
    ValueBelowPow(t);
  }

  lemma IntervalArithmetic(head: nat, rest: nat, power: nat, low: nat, high: nat)
    requires rest < power
    ensures low <= head <= high <==> low * power <= head * power + rest < (high + 1) * power
  {
    if head < low { assert (head + 1) * power <= low * power; }
    if head > high { assert (high + 1) * power <= head * power; }
    if low <= head <= high {
      assert low * power <= head * power;
      assert (head + 1) * power <= (high + 1) * power;
    }
  }

  lemma ShortIsAnInterval(s: string)
    ensures MatchesShort(s) <==> Canonical(s) && |s| <= 9 && Value(s) >= 1
  {
    if |s| > 0 { assert s == [s[0]] + s[1..]; }
    if Canonical(s) && |s| <= 9 {
      PrintOfValue(s);
      if |s| == 1 { assert s[..0] == ""; }
    }
  }

  /** Where the interval of each long alternative starts; each ends where the next one starts. */
  const STARTS: seq<nat> := [
    1_000_000_000, 2_000_000_000, 2_100_000_000, 2_140_000_000, 2_147_000_000, 2_147_400_000, 2_147_480_000, 2_147_483_000,
    2_147_483_600, 2_147_483_640, 2_147_483_648]

  lemma Powers()
    ensures Pow10(0) == 1 && Pow10(1) == 10 && Pow10(2) == 100 && Pow10(3) == 1_000 && Pow10(4) == 10_000
    ensures Pow10(5) == 100_000 && Pow10(6) == 1_000_000 && Pow10(7) == 10_000_000 && Pow10(8) == 100_000_000
    ensures Pow10(9) == 1_000_000_000
  {
    assert Pow10(4) == 10_000;
    assert Pow10(8) == Pow10(7) * 10 && Pow10(7) == Pow10(6) * 10 && Pow10(6) == Pow10(5) * 10 && Pow10(5) == Pow10(4) * 10;
  }

  lemma Prefixes()
    ensures Value("") == 0 && Value("2") == 2 && Value("21") == 21 && Value("214") == 214 && Value("2147") == 2147
    ensures Value("21474") == 21474 && Value("214748") == 214748 && Value("2147483") == 2147483
    ensures Value("21474836") == 21474836 && Value("214748364") == 214748364
  {
    hide Value;
    assert Value("") == 0 by { EmptyValue(); }
    ValueAppend("", '2');
    assert "" + ['2'] == "2";
    ValueAppend("2", '1');
    assert "2" + ['1'] == "21";
    ValueAppend("21", '4');
    assert "21" + ['4'] == "214";
    ValueAppend("214", '7');
    assert "214" + ['7'] == "2147";
    ValueAppend("2147", '4');
    assert "2147" + ['4'] == "21474";
    ValueAppend("21474", '8');
    assert "21474" + ['8'] == "214748";
    ValueAppend("214748", '3');
    assert "214748" + ['3'] == "2147483";
    ValueAppend("2147483", '6');
    assert "2147483" + ['6'] == "21474836";
    ValueAppend("21474836", '4');
    assert "21474836" + ['4'] == "214748364";
  }

  lemma EmptyValue()
    ensures Value("") == 0
  {
  }

  lemma Bound(i: nat)
    requires i < |LONG|
    ensures Digits(LONG[i]) && |LONG[i].prefix| + 1 + LONG[i].tail == 10
    ensures Low(LONG[i]) == STARTS[i] && High(LONG[i]) == STARTS[i + 1]
  {
    hide Value, Pow10;
    Powers();
    Prefixes();
  }

  /** The ten long alternatives tile the ten-digit numbers up to the largest id. */
  lemma LongIsAnInterval(s: string)
    ensures (exists a <- LONG :: Matches(a, s)) <==> AllDigits(s) && |s| == 10 && 1_000_000_000 <= Value(s) <= MAX_ID
  {
    hide Value, Pow10, Low, High, Digits, Matches;
    forall i: nat | i < |LONG|
      ensures Matches(LONG[i], s) <==> AllDigits(s) && |s| == 10 && STARTS[i] <= Value(s) < STARTS[i + 1]
    {
      Bound(i);
      AlternativeIsAnInterval(LONG[i], s);
    }
    if AllDigits(s) && |s| == 10 && 1_000_000_000 <= Value(s) <= MAX_ID {
      var i := IntervalOf(Value(s));
      assert Matches(LONG[i], s) && LONG[i] in LONG;
    }
    forall a <- LONG | Matches(a, s) ensures AllDigits(s) && |s| == 10 && 1_000_000_000 <= Value(s) <= MAX_ID {
      var i :| 0 <= i < |LONG| && LONG[i] == a;
      StartsWithin(i);
    }
  }

  lemma StartsWithin(i: nat)
    requires i < 10
    ensures STARTS[0] <= STARTS[i] && STARTS[i + 1] <= STARTS[10]
  {
  }

  function IntervalOf(v: nat): (i: nat)
    requires STARTS[0] <= v < STARTS[10]
    ensures i < 10 && STARTS[i] <= v < STARTS[i + 1]
  {
    if v < STARTS[1] then 0 else if v < STARTS[2] then 1 else if v < STARTS[3] then 2 else if v < STARTS[4] then 3
    else if v < STARTS[5] then 4 else if v < STARTS[6] then 5 else if v < STARTS[7] then 6 else if v < STARTS[8] then 7
    else if v < STARTS[9] then 8 else 9
  }

  /** The first digit decides whether a digit string reaches the power of its length. */
  lemma LeadingDigit(s: string)
    requires AllDigits(s) && |s| > 0
    ensures s[0] != '0' <==> Value(s) >= Pow10(|s| - 1)
  {
    hide Value, Pow10;
    EmptyValue();
    ValueAppend("", s[0]);
    assert s == [s[0]] + s[1..] && "" + [s[0]] == [s[0]];
    ValueSplits([s[0]], s[1..]);
    ValueBelowPow(s[1..]);
    AtLeastOneTimes(DigitValue(s[0]), Pow10(|s| - 1));
  }

  lemma AtLeastOneTimes(d: nat, p: nat)
    ensures d > 0 ==> d * p >= p
    ensures d == 0 ==> d * p == 0
  {
  }

  lemma {:induction false} PowersGrow(n: nat)
    requires n >= 10
    ensures Pow10(n) >= 10_000_000_000
    decreases n
  {
    if n > 10 {
      PowersGrow(n - 1);
    } else {
      Powers();
      assert Pow10(10) == Pow10(9) * 10;
    }
  }

  /** The pattern accepts exactly the canonical decimals of 1 to 2147483647. */
  lemma PatternIsTheRange(s: string)
    ensures MatchesPattern(s) <==> Canonical(s) && 1 <= Value(s) <= MAX_ID
  {
    ShortIsAnInterval(s);
    LongIsAnInterval(s);
    hide Value, Pow10;
    if AllDigits(s) && |s| > 0 {
      LeadingDigit(s);
      Powers();
      if |s| >= 11 { PowersGrow(|s| - 1); }
      if |s| <= 9 { ShortValue(s); }
      if |s| == 1 { OneDigit(s); }
    }
  }

  lemma OneDigit(s: string)
    requires AllDigits(s) && |s| == 1
    ensures s[0] == '0' <==> Value(s) == 0
  {
    assert s[..0] == "";
  }

  lemma {:induction false} PowersAreOrdered(n: nat, m: nat)
    requires n <= m
    ensures Pow10(n) <= Pow10(m)
    decreases m
  {
    if n < m { PowersAreOrdered(n, m - 1); }
  }

  lemma ShortValue(s: string)
    requires AllDigits(s) && |s| <= 9
    ensures Value(s) < 1_000_000_000
  {
    Powers();
    ValueBelowPow(s);
    PowersAreOrdered(|s|, 9);
  }

  /** Parsing and printing accepted ids undo each other. */
  lemma IdsRoundTrip(s: string, n: nat)
    ensures MatchesPattern(s) ==> AllDigits(s) && Print(Value(s)) == s
    ensures MatchesPattern(Print(n)) <==> 1 <= n <= MAX_ID
    ensures MatchesPattern(Print(n)) ==> AllDigits(Print(n)) && Value(Print(n)) == n
  {
    PatternIsTheRange(s);
    if MatchesPattern(s) { PrintOfValue(s); }
    PrintIsCanonical(n);
    ValueOfPrint(n);
    PatternIsTheRange(Print(n));
  }
}
