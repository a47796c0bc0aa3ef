/** The handful of Python string operations the credential check relies on,
    restricted to what the adapter needs: ASCII lower-casing, `startswith`,
    and `split(sep, 1)`. */
module Text {

  /** Lower-cases an ASCII capital letter; every other character is unchanged. */
  function LowerChar(c: char): char
  {
    if 'A' <= c <= 'Z' then (c as int + 32) as char else c
  }

  /** `s.lower()`, ASCII only. */
  function Lower(s: string): (t: string)
    ensures |t| == |s|
  {
    seq(|s|, i requires 0 <= i < |s| => LowerChar(s[i]))
  }

  /** `s.startswith(p)`: case-sensitive prefix test. */
  predicate StartsWith(s: string, p: string)
  {
    |p| <= |s| && s[..|p|] == p
  }

  /** `s.split(sep, 1)`: the whole string when `sep` does not occur in it,
      otherwise the text before and the text after its first occurrence. */
  function SplitOnce(s: string, sep: char): (parts: seq<string>)
    ensures |parts| == 1 || |parts| == 2
    ensures |parts| == 1 ==> parts[0] == s && sep !in s
    ensures |parts| == 2 ==> s == parts[0] + [sep] + parts[1] && sep !in parts[0]
    decreases |s|
  {
    if |s| == 0 then [s]
    else if s[0] == sep then ["", s[1..]]
    else
      var rest := SplitOnce(s[1..], sep);
      if |rest| == 1 then [s] else [[s[0]] + rest[0], rest[1]]
  }

  /** The split happens at the first occurrence of `sep`: when `s[k]` is
      `sep` and no earlier character is, the parts are `s[..k]` and `s[k+1..]`. */
  lemma SplitAtFirst(s: string, sep: char, k: nat)
    requires k < |s| && s[k] == sep
    requires forall i :: 0 <= i < k ==> s[i] != sep
    ensures SplitOnce(s, sep) == [s[..k], s[k + 1..]]
  {
    var parts := SplitOnce(s, sep);
    assert sep in s;
    assert |parts| == 2;
    var n := |parts[0]|;
    assert s[..n] == parts[0];
    assert s[n] == sep;
    assert forall i :: 0 <= i < n ==> s[..n][i] == s[i] != sep;
    assert s[n + 1..] == parts[1];
  }

  /** A lower-case ASCII letter is reached by lower-casing exactly itself and its capital. */
  lemma LowerCharOnto(c: char, l: char)
    requires 'a' <= l <= 'z'
    ensures LowerChar(c) == l <==> c == l || c as int == l as int - 32
  {
  }
}
