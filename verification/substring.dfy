/** Case-sensitive substring containment over strings, the meaning of
    Python's `pattern in text` for `str`: no URL parsing, no case folding,
    no wildcards. `Contains` is the recursive definition the hook uses,
    `OccursAt` the positional reference it is proved equal to, and `Find`
    a loop that searches for the first occurrence. */
module Substring {

  /** `p` is a prefix of `s`. */
  predicate IsPrefix(p: string, s: string) {
    |p| <= |s| && s[..|p|] == p
  }

  /** `s` contains `p`: either `p` starts `s`, or it occurs in the tail. */
  predicate Contains(s: string, p: string)
    decreases |s|
  {
    IsPrefix(p, s) || (|s| > 0 && Contains(s[1..], p))
  }

  /** Reference definition: `p` occurs in `s` starting at index `i`. */
  ghost predicate OccursAt(s: string, p: string, i: int) {
    0 <= i && i + |p| <= |s| && s[i..i + |p|] == p
  }

  /** The recursive definition agrees with the positional one, in both
      directions. */
  lemma {:induction false} ContainsIffOccurs(s: string, p: string)
    ensures Contains(s, p) <==> exists i :: OccursAt(s, p, i)
    decreases |s|
  {
    if Contains(s, p) {
      if IsPrefix(p, s) {
        assert OccursAt(s, p, 0);
      } else {
        ContainsIffOccurs(s[1..], p);
        var i :| OccursAt(s[1..], p, i);
        assert s[1..][i..i + |p|] == s[i + 1..i + 1 + |p|];
        assert OccursAt(s, p, i + 1);
      }
    }
    if exists i :: OccursAt(s, p, i) {
      var i :| OccursAt(s, p, i);
      if i > 0 {
        assert s[1..][i - 1..i - 1 + |p|] == s[i..i + |p|];
        assert OccursAt(s[1..], p, i - 1);
        ContainsIffOccurs(s[1..], p);
      }
    }
  }

  /** A witness position is enough to establish containment. */
  lemma OccursAtContains(s: string, p: string, i: int)
    requires OccursAt(s, p, i)
    ensures Contains(s, p)
  {
    ContainsIffOccurs(s, p);
  }

  /** A pattern longer than the text never occurs in it. */
  lemma {:induction false} LongerNotContained(s: string, p: string)
    requires |p| > |s|
    ensures !Contains(s, p)
    decreases |s|
  {
    if |s| > 0 {
      LongerNotContained(s[1..], p);
    }
  }

  /** If some character of the pattern appears nowhere in the text, the
      pattern is not contained. Characters are compared exactly, so an
      upper-case letter never stands in for a lower-case one. */
  lemma MissingCharNotContained(s: string, p: string, c: char)
    requires c in p && c !in s
    ensures !Contains(s, p)
  {
    var k :| 0 <= k < |p| && p[k] == c;
    forall i | 0 <= i && i + |p| <= |s|
      ensures !OccursAt(s, p, i)
    {
      assert s[i..i + |p|][k] == s[i + k];
    }
    ContainsIffOccurs(s, p);
  }

  /** Containment survives text added on either side: a matching URL still
      matches with a longer host, path or query. */
  lemma ContainsExtend(a: string, s: string, b: string, p: string)
    requires Contains(s, p)
    ensures Contains(a + s + b, p)
  {
    ContainsIffOccurs(s, p);
    var i :| OccursAt(s, p, i);
    var t := a + s + b;
    assert t[|a| + i..|a| + i + |p|] == s[i..i + |p|];
    assert OccursAt(t, p, |a| + i);
    ContainsIffOccurs(t, p);
  }

  /** Searches `s` for the first occurrence of `p`, returning its index, or
      -1 when there is none. */
  method Find(s: string, p: string) returns (k: int)
    ensures k == -1 || 0 <= k <= |s| - |p|
    ensures k >= 0 <==> Contains(s, p)
    ensures k >= 0 ==> IsPrefix(p, s[k..])
    ensures forall j :: 0 <= j < k ==> !IsPrefix(p, s[j..])
  {
    var i := 0;
    while i + |p| <= |s| && s[i..i + |p|] != p
      invariant 0 <= i <= |s|
      invariant forall j :: 0 <= j < i ==> !IsPrefix(p, s[j..])
      decreases |s| - i
    {
      assert s[i..][..|p|] == s[i..i + |p|];
      i := i + 1;
    }
    ContainsIffOccurs(s, p);
    if i + |p| <= |s| {
      assert OccursAt(s, p, i);
      assert s[i..][..|p|] == s[i..i + |p|];
      k := i;
    } else {
      forall j | 0 <= j < i
        ensures !OccursAt(s, p, j)
      {
        if j + |p| <= |s| {
          assert s[j..][..|p|] == s[j..j + |p|];
        }
      }
      assert forall j :: !OccursAt(s, p, j);
      k := -1;
    }
  }
}
