/** The Python string operations the pseudo-call parser is built from:
    `str.isspace`, `str.strip()`, `str.startswith`, `str.split(sep, 1)`,
    `str.rsplit(sep, 1)` and `str.replace(pat, rep)`. */
module PyStr {

  /** `c.isspace()`: the characters Python treats as whitespace. */
  predicate IsSpace(c: char) {
    || ('\t' <= c <= '\r')
    || ('\U{1c}' <= c <= '\U{1f}')
    || c == ' ' || c == '\U{85}' || c == '\U{a0}' || c == '\U{1680}'
    || ('\U{2000}' <= c <= '\U{200a}')
    || c == '\U{2028}' || c == '\U{2029}' || c == '\U{202f}' || c == '\U{205f}'
    || c == '\U{3000}'
  }

  /** `s.lstrip()` */
  function TrimStart(s: string): (r: string)
    ensures |r| <= |s| && r == s[|s| - |r|..]
    ensures forall k :: 0 <= k < |s| - |r| ==> IsSpace(s[k])
    ensures r == [] || !IsSpace(r[0])
  {
    if s != [] && IsSpace(s[0]) then TrimStart(s[1..]) else s
  }

  /** `s.rstrip()` */
  function TrimEnd(s: string): (r: string)
    ensures |r| <= |s| && r == s[..|r|]
    ensures forall k :: |r| <= k < |s| ==> IsSpace(s[k])
    ensures r == [] || !IsSpace(r[|r| - 1])
  {
    if s != [] && IsSpace(s[|s| - 1]) then TrimEnd(s[..|s| - 1]) else s
  }

  /** `s.strip()`: `s` without its leading and trailing whitespace. */
  function Strip(s: string): (r: string)
    ensures r == [] || (!IsSpace(r[0]) && !IsSpace(r[|r| - 1]))
    ensures exists i :: (0 <= i <= |s| && r <= s[i..]
      && (forall k :: 0 <= k < i ==> IsSpace(s[k]))
      && (forall k :: i + |r| <= k < |s| ==> IsSpace(s[k])))
  {
    var t := TrimStart(s);
    var r := TrimEnd(t);
    assert r <= s[|s| - |t|..];
    r
  }

  /** `s.startswith(p)` */
  predicate StartsWith(s: string, p: string) {
    |p| <= |s| && s[..|p|] == p
  }

  /** `p` occurs somewhere in `s`. */
  predicate Occurs(s: string, p: string) {
    exists k :: 0 <= k <= |s| && StartsWith(s[k..], p)
  }

  /** `s.split(sep, 1)`: the text before the first `sep` and the text after
      it, or `[s]` when `sep` does not occur. */
  function SplitOnce(s: string, sep: char): (parts: seq<string>)
    ensures sep in s ==> |parts| == 2 && s == parts[0] + [sep] + parts[1] && sep !in parts[0]
    ensures sep !in s ==> parts == [s]
  {
    if s == [] then [s]
    else if s[0] == sep then [[], s[1..]]
    else
      var rest := SplitOnce(s[1..], sep);
      if |rest| == 2 then
        assert s == [s[0]] + s[1..];
        [[s[0]] + rest[0], rest[1]]
      else [s]
  }

  /** `s.rsplit(sep, 1)`: the text before the last `sep` and the text after
      it, or `[s]` when `sep` does not occur. */
  function RSplitOnce(s: string, sep: char): (parts: seq<string>)
    ensures sep in s ==> |parts| == 2 && s == parts[0] + [sep] + parts[1] && sep !in parts[1]
    ensures sep !in s ==> parts == [s]
  {
    if s == [] then [s]
    else if s[|s| - 1] == sep then [s[..|s| - 1], []]
    else
      var rest := RSplitOnce(s[..|s| - 1], sep);
      if |rest| == 2 then
        assert s == s[..|s| - 1] + [s[|s| - 1]];
        [rest[0], rest[1] + [s[|s| - 1]]]
      else
        assert sep !in s;
        [s]
  }

  /** `s.replace(pat, rep)`: every occurrence of `pat`, found left to right
      without overlap, is replaced by `rep`. */
  function ReplaceAll(s: string, pat: string, rep: string): string
    requires pat != []
    decreases |s|
  {
    if |s| < |pat| then s
    else if s[..|pat|] == pat then rep + ReplaceAll(s[|pat|..], pat, rep)
    else [s[0]] + ReplaceAll(s[1..], pat, rep)
  }

  /** Replacing in a text where `pat` does not occur changes nothing. */
  lemma {:induction false} ReplaceAllAbsent(s: string, pat: string, rep: string)
    requires pat != [] && !Occurs(s, pat)
    ensures ReplaceAll(s, pat, rep) == s
    decreases |s|
  {
    if |s| >= |pat| {
      assert s[0..] == s;
      forall k | 0 <= k <= |s| - 1
        ensures !StartsWith(s[1..][k..], pat)
      {
        assert s[1..][k..] == s[k + 1..];
      }
      ReplaceAllAbsent(s[1..], pat, rep);
      assert s == [s[0]] + s[1..];
    }
  }

  /** A leading occurrence of `pat` is replaced and scanning resumes after it. */
  lemma ReplaceAllLeading(s: string, pat: string, rep: string)
    requires pat != []
    ensures ReplaceAll(pat + s, pat, rep) == rep + ReplaceAll(s, pat, rep)
  {
    assert (pat + s)[..|pat|] == pat;
    assert (pat + s)[|pat|..] == s;
  }

  /** Text with no whitespace at either end is left as it is by `strip()`. */
  lemma StripUnchanged(s: string)
    requires s == [] || (!IsSpace(s[0]) && !IsSpace(s[|s| - 1]))
    ensures Strip(s) == s
  {
    assert TrimStart(s) == s;
    assert TrimEnd(s) == s;
  }

  /** The pieces around the first occurrence of `sep` are unique. */
  lemma SplitAt(a: string, b: string, a': string, b': string, sep: char)
    requires a + [sep] + b == a' + [sep] + b'
    requires sep !in a && sep !in a'
    ensures a == a' && b == b'
  {
    var s := a + [sep] + b;
    assert s[|a|] == sep && s[|a'|] == sep;
    assert forall k :: 0 <= k < |a'| ==> s[k] == a'[k];
    assert forall k :: 0 <= k < |a| ==> s[k] == a[k];
    assert |a| == |a'|;
    assert b == s[|a| + 1..] == b';
  }

  /** The pieces around the last occurrence of `sep` are unique. */
  lemma RSplitAt(a: string, b: string, a': string, b': string, sep: char)
    requires a + [sep] + b == a' + [sep] + b'
    requires sep !in b && sep !in b'
    ensures a == a' && b == b'
  {
    var s := a + [sep] + b;
    assert s[|s| - 1 - |b|] == sep && s[|s| - 1 - |b'|] == sep;
    assert forall k :: 0 <= k < |b'| ==> s[|s| - |b'| + k] == b'[k];
    assert forall k :: 0 <= k < |b| ==> s[|s| - |b| + k] == b[k];
    assert |b| == |b'|;
    assert a == s[..|a|] == a';
    assert b == s[|a| + 1..] == b';
  }
}
