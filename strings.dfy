/**
  String primitives: the two calls into Go's `strings` package that the helpers
  make (HasPrefix and LastIndex), and the scanning helpers (IndexOf, TrimPrefix,
  Cut) of the parser that stands in for the SPIFFE URI regular expression.
 */
module Strings {
  import opened Wrappers

  /** strings.HasPrefix */
  predicate HasPrefix(s: string, prefix: string)
  {
    |prefix| <= |s| && s[..|prefix|] == prefix
  }

  /** The first index of `c` in `s`, or -1; a helper of the SPIFFE URI parser. */
  function IndexOf(s: string, c: char): (i: int)
    ensures -1 <= i < |s|
    ensures i == -1 <==> c !in s
    ensures 0 <= i ==> s[i] == c && c !in s[..i]
  {
    if |s| == 0 then -1
    else if s[0] == c then 0
    else
      var j := IndexOf(s[1..], c);
      assert s[1..] == s[1..][..] && forall k :: 1 <= k < |s| ==> s[k] == s[1..][k - 1];
      if j == -1 then -1
      else
        assert s[..j + 1] == [s[0]] + s[1..][..j];
        j + 1
  }

  /** strings.LastIndex for a one-character separator: the last index of `c` in `s`, or -1. */
  function LastIndex(s: string, c: char): (i: int)
    ensures -1 <= i < |s|
    ensures i == -1 <==> c !in s
    ensures 0 <= i ==> s[i] == c && c !in s[i + 1..]
  {
    if |s| == 0 then -1
    else if s[|s| - 1] == c then |s| - 1
    else
      var j := LastIndex(s[..|s| - 1], c);
      assert forall k :: 0 <= k < |s| - 1 ==> s[k] == s[..|s| - 1][k];
      if j == -1 then -1
      else
        assert s[j + 1..] == s[..|s| - 1][j + 1..] + [s[|s| - 1]];
        j
  }

  /** The first occurrence of `c` in `a + [c] + b` is at `|a|` when `a` does not contain `c`. */
  lemma IndexOfAfterFree(a: string, c: char, b: string)
    requires c !in a
    ensures IndexOf(a + [c] + b, c) == |a|
  {
    var s := a + [c] + b;
    assert s[|a|] == c && s[..|a|] == a;
  }

  /** The last occurrence of `c` in `a + [c] + b` is at `|a|` when `b` does not contain `c`. */
  lemma LastIndexBeforeFree(a: string, c: char, b: string)
    requires c !in b
    ensures LastIndex(a + [c] + b, c) == |a|
  {
    var s := a + [c] + b;
    assert s[|a|] == c && s[|a| + 1..] == b;
  }

  /** The rest of `s` after `prefix`, if `s` starts with it; a helper of the SPIFFE URI parser. */
  function TrimPrefix(s: string, prefix: string): (r: Option<string>)
    ensures r.Some? <==> HasPrefix(s, prefix)
    ensures r.Some? ==> s == prefix + r.value
  {
    if HasPrefix(s, prefix) then
      assert s == s[..|prefix|] + s[|prefix|..];
      Some(s[|prefix|..])
    else None
  }

  lemma TrimPrefixOf(prefix: string, t: string)
    ensures TrimPrefix(prefix + t, prefix) == Some(t)
  {
  }

  /** The parts before and after the first `c`, if any; a helper of the SPIFFE URI parser. */
  function Cut(s: string, c: char): (r: Option<(string, string)>)
    ensures r.None? <==> c !in s
    ensures r.Some? ==> s == r.value.0 + [c] + r.value.1 && c !in r.value.0
  {
    var i := IndexOf(s, c);
    if i == -1 then None
    else
      assert s == s[..i] + [c] + s[i + 1..];
      Some((s[..i], s[i + 1..]))
  }

  lemma CutOf(a: string, c: char, b: string)
    requires c !in a
    ensures Cut(a + [c] + b, c) == Some((a, b))
  {
    IndexOfAfterFree(a, c, b);
    var s := a + [c] + b;
    assert s[..|a|] == a && s[|a| + 1..] == b;
  }
}
