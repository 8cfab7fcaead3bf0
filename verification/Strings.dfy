/** The few string operations of Go's `strings` package and Python's `str` that the models share. */
module Strings {

  predicate HasPrefix(s: string, prefix: string) {
    prefix <= s
  }

  predicate HasSuffix(s: string, suffix: string) {
    |suffix| <= |s| && s[|s| - |suffix|..] == suffix
  }

  function TrimPrefix(s: string, prefix: string): string {
    if HasPrefix(s, prefix) then s[|prefix|..] else s
  }

  function TrimSuffix(s: string, suffix: string): string {
    if HasSuffix(s, suffix) then s[..|s| - |suffix|] else s
  }

  predicate Contains(s: string, sub: string) {
    HasPrefix(s, sub) || (s != "" && Contains(s[1..], sub))
  }

  /** sub stands at position i of s. */
  predicate StandsAt(s: string, sub: string, i: nat) {
    i + |sub| <= |s| && s[i..i + |sub|] == sub
  }

  /** sub stands at some position of s. */
  ghost predicate Has(s: string, sub: string) {
    exists i: nat :: StandsAt(s, sub, i)
  }

  /** Contains on its own terms. */
  lemma {:induction false} ContainsIff(s: string, sub: string)
    ensures Contains(s, sub) <==> Has(s, sub)
  {
    assert StandsAt(s, sub, 0) <==> HasPrefix(s, sub);
    if s != "" {
      var rest := s[1..];
      ContainsIff(rest, sub);
      forall i: nat ensures StandsAt(rest, sub, i) <==> StandsAt(s, sub, i + 1) {
        assert i + |sub| <= |rest| ==> rest[i..i + |sub|] == s[i + 1..i + 1 + |sub|];
      }
      if i: nat :| StandsAt(s, sub, i) {
        assert i > 0 ==> StandsAt(rest, sub, i - 1);
      }
      if i: nat :| StandsAt(rest, sub, i) {
        assert StandsAt(s, sub, i + 1);
      }
    }
  }

  /** Drops every trailing `c`, as Go's strings.TrimRight(s, "c"). */
  function TrimRight(s: string, c: char): (r: string)
    ensures r <= s && forall i :: |r| <= i < |s| ==> s[i] == c
    ensures r == "" || r[|r| - 1] != c
  {
    if s == "" || s[|s| - 1] != c then s else TrimRight(s[..|s| - 1], c)
  }

  /** Removes every occurrence of `sub`, left to right, as Python's s.replace(sub, ""). */
  function RemoveAll(s: string, sub: string): string
    requires sub != ""
    decreases |s|
  {
    if s == "" then ""
    else if HasPrefix(s, sub) then RemoveAll(s[|sub|..], sub)
    else [s[0]] + RemoveAll(s[1..], sub)
  }

  /** A separator that does not occur in the first parts makes joining them reversible. */
  lemma JoinIsInjective(a: string, b: string, x: string, y: string, sep: char)
    requires sep !in a && sep !in x
    requires a + [sep] + b == x + [sep] + y
    ensures a == x && b == y
  {
    var s := a + [sep] + b;
    assert s[|a|] == sep && s[|x|] == sep;
    assert a == s[..|a|] && x == s[..|x|];
    assert |a| == |x| by {
      assert sep !in s[..|a|] && sep !in s[..|x|];
      assert forall i :: 0 <= i < |a| ==> s[i] == a[i];
      assert forall i :: 0 <= i < |x| ==> s[i] == x[i];
    }
    assert b == s[|a| + 1..] && y == s[|x| + 1..];
  }

  /** The same for a separator that does not occur in the last parts. */
  lemma LastJoinIsInjective(a: string, b: string, x: string, y: string, sep: char)
    requires sep !in b && sep !in y
    requires a + [sep] + b == x + [sep] + y
    ensures a == x && b == y
  {
    var s := a + [sep] + b;
    assert s[|a|] == sep && s[|x|] == sep;
    assert s[|a| + 1..] == b && s[|x| + 1..] == y;
    assert |a| == |x| by {
      assert forall i :: |a| < i < |s| ==> s[i] == b[i - |a| - 1];
      assert forall i :: |x| < i < |s| ==> s[i] == y[i - |x| - 1];
    }
    assert a == s[..|a|] && x == s[..|x|];
  }

  // ---- RemoveAll ----

  /** Text in which sub does not stand is left alone. */
  lemma {:induction false} RemoveAllNothing(s: string, sub: string)
    requires sub != "" && !Has(s, sub)
    ensures RemoveAll(s, sub) == s
    decreases |s|
  {
    if s != "" {
      assert !StandsAt(s, sub, 0);
      forall i: nat | StandsAt(s[1..], sub, i) ensures StandsAt(s, sub, i + 1) {
        assert s[1..][i..i + |sub|] == s[i + 1..i + 1 + |sub|];
      }
      RemoveAllNothing(s[1..], sub);
    }
  }

  /** A leading sub that does not come again is cut off. */
  lemma RemoveAllPrefix(sub: string, rest: string)
    requires sub != "" && !Has(rest, sub)
    ensures RemoveAll(sub + rest, sub) == rest
  {
    assert (sub + rest)[|sub|..] == rest;
    RemoveAllNothing(rest, sub);
  }

  /** A trailing sub that did not come before is cut off. */
  lemma {:induction false} RemoveAllSuffix(rest: string, sub: string)
    requires sub != "" && forall i: nat :: i < |rest| ==> !StandsAt(rest + sub, sub, i)
    ensures RemoveAll(rest + sub, sub) == rest
    decreases |rest|
  {
    var s := rest + sub;
    if rest == "" {
      assert s == sub && s[|sub|..] == "";
    } else {
      assert !StandsAt(s, sub, 0);
      assert s[1..] == rest[1..] + sub;
      forall i: nat | i < |rest[1..]| ensures !StandsAt(rest[1..] + sub, sub, i) {
        assert !StandsAt(s, sub, i + 1);
        assert i + |sub| <= |s| - 1 ==> s[1..][i..i + |sub|] == s[i + 1..i + 1 + |sub|];
      }
      RemoveAllSuffix(rest[1..], sub);
    }
  }
}
