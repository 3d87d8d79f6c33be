/** Sequences without repetition, as the validators check them. */
module Distinctness {
  ghost predicate Distinct<T>(s: seq<T>) { forall i, j :: 0 <= i < j < |s| ==> s[i] != s[j] }

  /** `new Set(s).size === s.length`. */
  method AllDistinct(s: seq<string>) returns (ok: bool)
    ensures ok <==> Distinct(s)
  {
    var seen: set<string>, i := {}, 0;
    while i < |s|
      invariant i <= |s| && seen == set k | 0 <= k < i :: s[k]
      invariant Distinct(s[..i])
    {
      if s[i] in seen {
        var k :| 0 <= k < i && s[k] == s[i];
        return false;
      }
      seen := seen + {s[i]};
      i := i + 1;
    }
    assert s[..i] == s;
    return true;
  }
}
