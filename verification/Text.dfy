/** The few operations of Go's `strings` package that the operator uses on names and messages. */
module Text {

  /** strings.TrimPrefix */
  function TrimPrefix(s: string, prefix: string): string {
    if prefix <= s then s[|prefix|..] else s
  }

  /** strings.Index for a one-character separator: the first position of c, or -1. */
  function Index(s: string, c: char): (i: int)
    ensures -1 <= i < |s|
    ensures i == -1 <==> c !in s
    ensures i >= 0 ==> s[i] == c && c !in s[..i]
  {
    if s == [] then -1
    else if s[0] == c then 0
    else
      var i := Index(s[1..], c);
      if i == -1 then -1
      else assert s[..i + 1] == [s[0]] + s[1..][..i]; i + 1
  }

  /** strings.LastIndex for a one-character separator. */
  function LastIndex(s: string, c: char): (i: int)
    ensures -1 <= i < |s|
    ensures i == -1 <==> c !in s
    ensures i >= 0 ==> s[i] == c && c !in s[i + 1..]
  {
    if s == [] then -1
    else
      var n := |s| - 1;
      if s[n] == c then n
      else assert s == s[..n] + [s[n]];
           var i := LastIndex(s[..n], c);
           assert i >= 0 ==> s[i + 1..] == s[..n][i + 1..] + [s[n]];
           i
  }

  /** Element 0 of strings.Split or strings.SplitN(_, _, 2): everything before the first c. */
  function Before(s: string, c: char): (r: string)
    ensures r <= s && c !in r
  {
    if c in s then s[..Index(s, c)] else s
  }

  lemma TrimJoined(prefix: string, rest: string)
    ensures TrimPrefix(prefix + rest, prefix) == rest
  {
  }

  lemma FirstIndex(s: string, c: char, k: nat)
    requires k < |s| && s[k] == c && forall j :: 0 <= j < k ==> s[j] != c
    ensures Index(s, c) == k && Before(s, c) == s[..k]
  {
  }

  /** The separator of a joined string is found when it does not occur before. */
  lemma IndexOfJoin(a: string, c: char, b: string)
    requires c !in a
    ensures c in a + [c] + b
    ensures Index(a + [c] + b, c) == |a|
    ensures Before(a + [c] + b, c) == a
  {
    FirstIndex(a + [c] + b, c, |a|);
    assert (a + [c] + b)[..|a|] == a;
  }

  lemma LastIndexOfJoin(a: string, c: char, b: string)
    requires c !in b
    ensures LastIndex(a + [c] + b, c) == |a|
  {
    var s := a + [c] + b;
    assert s[|a|] == c && s[|a| + 1..] == b;
    assert forall j :: |a| < j < |s| ==> s[j] == b[j - |a| - 1];
  }

  /** Before stops inside a whenever the separator already occurs in a. */
  lemma BeforeStopsInside(a: string, c: char, b: string)
    requires c in a
    ensures c in a + b && Index(a + b, c) == Index(a, c)
    ensures Before(a + b, c) == Before(a, c) != a
  {
    var i := Index(a, c);
    assert forall j :: 0 <= j < i ==> a[j] == a[..i][j] != c;
    FirstIndex(a + b, c, i);
    assert (a + b)[..i] == a[..i];
  }
}
