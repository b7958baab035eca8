/** The few functions of Go's `strings` package that the handlers use. A Go
    string is a byte sequence; here one `char` stands for one byte, so `|s|`
    is Go's `len(s)` and `s[i..j]` is Go's `s[i:j]`. */
module GoStrings {

  predicate HasPrefix(s: string, prefix: string) {
    |prefix| <= |s| && s[..|prefix|] == prefix
  }

  /** strings.TrimPrefix: drops one leading `prefix` if `s` starts with it. */
  function TrimPrefix(s: string, prefix: string): (r: string)
    ensures HasPrefix(s, prefix) ==> s == prefix + r
    ensures !HasPrefix(s, prefix) ==> r == s
    ensures HasSuffix(s, r)
  {
    if HasPrefix(s, prefix) then s[|prefix|..] else s
  }

  predicate HasSuffix(s: string, suffix: string) {
    |suffix| <= |s| && s[|s| - |suffix|..] == suffix
  }

  lemma HasSuffixTransitive(s: string, t: string, u: string)
    requires HasSuffix(s, t) && HasSuffix(t, u)
    ensures HasSuffix(s, u)
  {
  }

  /** TrimPrefix removes the prefix once, not repeatedly. */
  lemma TrimPrefixOnce(prefix: string, rest: string)
    ensures TrimPrefix(prefix + prefix + rest, prefix) == prefix + rest
  {
  }

  /** TrimPrefix removes a prefix that is there. */
  lemma TrimPrefixConcat(prefix: string, rest: string)
    ensures TrimPrefix(prefix + rest, prefix) == rest
  {
    assert (prefix + rest)[..|prefix|] == prefix;
  }

  /** TrimPrefix keeps a text that differs from the prefix at some byte. */
  lemma TrimPrefixMismatch(s: string, prefix: string, i: nat)
    requires i < |s| && i < |prefix| && s[i] != prefix[i]
    ensures TrimPrefix(s, prefix) == s
  {
    assert !HasPrefix(s, prefix) by {
      assert |prefix| <= |s| ==> s[..|prefix|][i] == s[i];
    }
  }

  /** `s[0:n]` when `s` is longer than `n`, otherwise `s` itself: the guarded
      slice `if len(t) > n { t[0:n] } else { t }` of trimText in
      cmd/webhook/main.go. */
  function Truncate(s: string, n: nat): (r: string)
    ensures |r| <= n && HasPrefix(s, r)
    ensures |s| <= n ==> r == s
    ensures |s| > n ==> |r| == n
  {
    if |s| > n then s[..n] else s
  }

  predicate OccursAt(s: string, sub: string, i: int) {
    0 <= i && i + |sub| <= |s| && s[i..i + |sub|] == sub
  }

  /** The search loop of strings.Index, from position `k` on. */
  function IndexFrom(s: string, sub: string, k: nat): (r: int)
    requires k <= |s|
    ensures r == -1 || (k <= r && OccursAt(s, sub, r))
    ensures forall i :: k <= i && (r == -1 || i < r) ==> !OccursAt(s, sub, i)
    decreases |s| - k
  {
    if k + |sub| > |s| then -1
    else if s[k..k + |sub|] == sub then k
    else IndexFrom(s, sub, k + 1)
  }

  /** strings.Index: the position of the first occurrence of `sub`, or -1. */
  function Index(s: string, sub: string): (r: int)
    ensures r == -1 <==> forall i :: !OccursAt(s, sub, i)
    ensures r != -1 ==> OccursAt(s, sub, r)
    ensures forall i :: 0 <= i < r ==> !OccursAt(s, sub, i)
  {
    IndexFrom(s, sub, 0)
  }

  /** strings.Replace(s, old, new, 1) with `pattern` as old and `replacement` as new: replaces the first occurrence only. */
  function ReplaceFirst(s: string, pattern: string, replacement: string): (r: string)
    ensures Index(s, pattern) == -1 ==> r == s
    ensures Index(s, pattern) != -1 ==>
      var i := Index(s, pattern);
      && |r| == |s| - |pattern| + |replacement|
      && r[..i] == s[..i]
      && r[i..i + |replacement|] == replacement
      && r[i + |replacement|..] == s[i + |pattern|..]
  {
    var i := Index(s, pattern);
    if i == -1 then s else s[..i] + replacement + s[i + |pattern|..]
  }

  /** strings.Split(s, sep)[0]: the text before the first `sep`, or all of `s`. */
  function SplitFirst(s: string, sep: string): (r: string)
    requires sep != ""
    ensures HasPrefix(s, r)
    ensures forall i :: 0 <= i < |r| ==> !OccursAt(s, sep, i)
    ensures r == s || OccursAt(s, sep, |r|)
  {
    var i := Index(s, sep);
    if i == -1 then s else s[..i]
  }

  /** Two strings that agree up to and including the first separator of the
      first have the same first segment. */
  lemma SplitFirstAgrees(s: string, t: string, sep: string)
    requires sep != "" && SplitFirst(s, sep) != s
    requires var k := |SplitFirst(s, sep)| + |sep|; k <= |t| && t[..k] == s[..k]
    ensures SplitFirst(t, sep) == SplitFirst(s, sep)
  {
    var seg := SplitFirst(s, sep);
    var k := |seg| + |sep|;
    forall j | 0 <= j <= |seg| ensures OccursAt(t, sep, j) <==> OccursAt(s, sep, j) {
      assert t[j..j + |sep|] == t[..k][j..j + |sep|];
      assert s[j..j + |sep|] == s[..k][j..j + |sep|];
    }
    assert t[..|seg|] == t[..k][..|seg|];
    assert s[..|seg|] == s[..k][..|seg|];
  }
}
