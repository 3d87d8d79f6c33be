/** Decimal notation of natural numbers. */
module Decimals {
  function Digit(d: nat): char
    requires d < 10
  {
    ('0' as int + d) as char
  }

  predicate IsDigit(c: char) { '0' <= c <= '9' }

  function DigitValue(c: char): (d: nat)
    requires IsDigit(c)
    ensures d < 10 && Digit(d) == c
  {
    c as int - '0' as int
  }

  predicate AllDigits(s: string) { forall c <- s :: IsDigit(c) }

  /** Digits without a leading zero. */
  predicate Canonical(s: string) { |s| > 0 && AllDigits(s) && (|s| > 1 ==> s[0] != '0') }

  function Print(n: nat): string
    decreases n
  {
    if n < 10 then [Digit(n)] else Print(n / 10) + [Digit(n % 10)]
  }

  function Value(s: string): nat
    requires AllDigits(s)
    decreases |s|
  {
    if s == "" then 0
    else
      assert forall c <- s[..|s| - 1] :: c in s;
      Value(s[..|s| - 1]) * 10 + DigitValue(s[|s| - 1])
  }

  lemma {:induction false} PrintIsCanonical(n: nat)
    ensures Canonical(Print(n)) && (n > 0 ==> Print(n)[0] != '0')
    decreases n
  {
    if n >= 10 { PrintIsCanonical(n / 10); }
  }

  /** Reading what was printed gives the number back. */
  lemma {:induction false} ValueOfPrint(n: nat)
    ensures AllDigits(Print(n)) && Value(Print(n)) == n
    decreases n
  {
    PrintIsCanonical(n);
    if n >= 10 {
      ValueOfPrint(n / 10);
      assert Print(n)[..|Print(n)| - 1] == Print(n / 10);
    } else {
      assert Print(n)[..0] == "";
    }
  }

  /** Printing what was read gives canonical text back. */
  lemma {:induction false} PrintOfValue(s: string)
    requires Canonical(s)
    ensures Print(Value(s)) == s && (s[0] != '0' ==> Value(s) > 0)
    decreases |s|
  {
    var front, d := s[..|s| - 1], DigitValue(s[|s| - 1]);
    assert s == front + [s[|s| - 1]];
    if |s| == 1 {
      assert front == "";
    } else {
      PrintOfValue(front);
      assert Value(s) == Value(front) * 10 + d;
      assert Value(s) / 10 == Value(front) && Value(s) % 10 == d;
    }
  }

  function Pow10(n: nat): (p: nat)
    ensures p > 0
  {
    if n == 0 then 1 else Pow10(n - 1) * 10
  }

  lemma {:induction false} ValueBelowPow(s: string)
    requires AllDigits(s)
    ensures Value(s) < Pow10(|s|)
    decreases |s|
  {
    if s != "" { ValueBelowPow(s[..|s| - 1]); }
  }

  lemma {:induction false} ValueSplits(a: string, b: string)
    requires AllDigits(a) && AllDigits(b)
    ensures AllDigits(a + b) && Value(a + b) == Value(a) * Pow10(|b|) + Value(b)
    decreases |b|
  {
    if b == "" {
      assert a + b == a;
    } else {
      var front := b[..|b| - 1];
      ValueSplits(a, front);
      assert (a + b)[..|a + b| - 1] == a + front;
      assert Value(a) * (Pow10(|front|) * 10) == Value(a) * Pow10(|front|) * 10;
    }
  }

  /** Digit strings of one length are told apart by their values. */
  lemma {:induction false} SameLengthSameValue(a: string, b: string)
    requires AllDigits(a) && AllDigits(b) && |a| == |b| && Value(a) == Value(b)
    ensures a == b
    decreases |a|
  {
    if a != "" {
      var n := |a| - 1;
      SameLengthSameValue(a[..n], b[..n]);
      assert a == a[..n] + [a[n]] && b == b[..n] + [b[n]];
    }
  }

  lemma ValueAppend(s: string, c: char)
    requires AllDigits(s) && IsDigit(c)
    ensures AllDigits(s + [c]) && Value(s + [c]) == Value(s) * 10 + DigitValue(c)
  {
    assert (s + [c])[..|s|] == s;
  }
}
