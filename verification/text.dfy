/**
 * The string operations the RPC layer takes from Go's `strings` and
 * `unicode` packages: IndexRune, TrimSpace and Join.  Go works on UTF-8
 * bytes; this model works on characters (code points).  Split is not used
 * by the backend: it is the reference inverse against which Join is shown
 * to lose nothing.
 */
module Text {

  /** Index of the first occurrence of `c` in `s`, or -1 (strings.IndexRune). */
  function IndexOf(s: string, c: char): (r: int)
    ensures -1 <= r < |s|
    ensures r == -1 <==> c !in s
    ensures 0 <= r ==> s[r] == c && c !in s[..r]
  {
    if |s| == 0 then -1
    else if s[0] == c then 0
    else
      var i := IndexOf(s[1..], c);
      if i == -1 then -1
      else
        assert s[..i + 1] == [s[0]] + s[1..][..i];
        i + 1
  }

  /** The first occurrence is unique: any index holding `c` with no earlier `c` is it. */
  lemma IndexOfAt(s: string, c: char, k: int)
    requires 0 <= k < |s| && s[k] == c && c !in s[..k]
    ensures IndexOf(s, c) == k
  {
    var r := IndexOf(s, c);
    assert s[..k + 1][k] == c;
  }

  /** White space as Go's unicode.IsSpace defines it (Latin-1 and the Unicode White_Space set). */
  predicate IsSpace(c: char)
  {
    || c == '\t' || c == '\n' || c == '\U{000B}' || c == '\U{000C}' || c == '\r' || c == ' '
    || c == '\U{0085}' || c == '\U{00A0}' || c == '\U{1680}'
    || ('\U{2000}' <= c <= '\U{200A}')
    || c == '\U{2028}' || c == '\U{2029}' || c == '\U{202F}' || c == '\U{205F}' || c == '\U{3000}'
  }

  predicate AllSpace(s: string)
  {
    forall i :: 0 <= i < |s| ==> IsSpace(s[i])
  }

  /** `s` is empty or neither starts nor ends with white space. */
  predicate Trimmed(s: string)
  {
    s == [] || (!IsSpace(s[0]) && !IsSpace(s[|s| - 1]))
  }

  /** Drops the leading white space (strings.TrimLeftFunc with unicode.IsSpace). */
  function TrimLeft(s: string): (r: string)
    ensures |r| <= |s| && r == s[|s| - |r|..]
    ensures AllSpace(s[..|s| - |r|])
    ensures r == [] || !IsSpace(r[0])
  {
    if s != [] && IsSpace(s[0]) then
      var t := TrimLeft(s[1..]);
      assert s[..|s| - |t|] == [s[0]] + s[1..][..|s[1..]| - |t|];
      t
    else
      s
  }

  /** Drops the trailing white space (strings.TrimRightFunc with unicode.IsSpace). */
  function TrimRight(s: string): (r: string)
    ensures |r| <= |s| && r == s[..|r|]
    ensures AllSpace(s[|r|..])
    ensures r == [] || !IsSpace(r[|r| - 1])
  {
    if s != [] && IsSpace(s[|s| - 1]) then
      var t := TrimRight(s[..|s| - 1]);
      assert s[|t|..] == s[..|s| - 1][|t|..] + [s[|s| - 1]];
      t
    else
      s
  }

  /** strings.TrimSpace: leading and trailing white space removed. */
  function TrimSpace(s: string): (r: string)
    ensures Trimmed(r)
    ensures |r| <= |s|
  {
    TrimRight(TrimLeft(s))
  }

  lemma {:induction false} TrimLeftPadded(p: string, m: string)
    requires AllSpace(p)
    requires m == [] || !IsSpace(m[0])
    ensures TrimLeft(p + m) == m
  {
    if p != [] {
      assert (p + m)[1..] == p[1..] + m;
      TrimLeftPadded(p[1..], m);
    }
  }

  lemma {:induction false} TrimRightPadded(m: string, q: string)
    requires AllSpace(q)
    requires m == [] || !IsSpace(m[|m| - 1])
    ensures TrimRight(m + q) == m
  {
    if q != [] {
      var q' := q[..|q| - 1];
      assert (m + q)[..|m + q| - 1] == m + q';
      TrimRightPadded(m, q');
    } else {
      assert m + q == m;
    }
  }

  /** TrimSpace recovers a trimmed word from any white-space padding around it. */
  lemma TrimSpacePadded(p: string, m: string, q: string)
    requires AllSpace(p) && AllSpace(q) && Trimmed(m)
    ensures TrimSpace(p + m + q) == m
  {
    assert p + m + q == p + (m + q);
    if m == [] {
      assert AllSpace(m + q) by { assert m + q == q; }
      TrimLeftPadded(p, []);
      assert p + (m + q) == (p + (m + q)) + [];
      TrimLeftAllSpace(p + (m + q));
    } else {
      TrimLeftPadded(p, m + q);
      TrimRightPadded(m, q);
    }
  }

  lemma TrimLeftAllSpace(s: string)
    requires AllSpace(s)
    ensures TrimLeft(s) == []
  {
  }

  /**
   * The converse of TrimSpacePadded: whatever TrimSpace returns, the input is
   * that result padded with white space on both sides.
   */
  lemma TrimSpaceSplits(s: string) returns (before: string, after: string)
    ensures AllSpace(before) && AllSpace(after)
    ensures s == before + TrimSpace(s) + after
  {
    var l := TrimLeft(s);
    var k := |s| - |l|;
    var r := TrimRight(l);
    assert TrimSpace(s) == r;
    SpaceAround(s, k, r);
    before := s[..k];
    after := s[k + |r|..];
  }

  /** TrimSpace only removes characters. */
  lemma TrimSpaceKeepsOut(s: string, c: char)
    requires c !in s
    ensures c !in TrimSpace(s)
  {
    var before, after := TrimSpaceSplits(s);
    assert s == before + TrimSpace(s) + after;
  }

  /** `s` is the part before `k`, then `r`, then the rest, when `r` starts at `k`. */
  lemma SpaceAround(s: string, k: nat, r: string)
    requires k + |r| <= |s| && r == s[k..][..|r|]
    requires AllSpace(s[..k]) && AllSpace(s[k..][|r|..])
    ensures s == s[..k] + r + s[k + |r|..]
    ensures AllSpace(s[k + |r|..])
  {
    assert s[k..k + |r|] == r;
    assert s == s[..k] + s[k..k + |r|] + s[k + |r|..];
    assert s[k..][|r|..] == s[k + |r|..];
  }

  /** strings.Join: the parts with `sep` between consecutive ones. */
  function Join(parts: seq<string>, sep: string): string
  {
    if |parts| == 0 then ""
    else if |parts| == 1 then parts[0]
    else parts[0] + sep + Join(parts[1..], sep)
  }

  /** strings.Split on a one-character separator: the reference inverse of Join. */
  function Split(s: string, sep: char): (r: seq<string>)
    ensures |r| >= 1
    ensures forall i :: 0 <= i < |r| ==> sep !in r[i]
    decreases |s|
  {
    var i := IndexOf(s, sep);
    if i == -1 then [s]
    else
      var rest := Split(s[i + 1..], sep);
      assert forall j :: 1 <= j < |[s[..i]] + rest| ==> ([s[..i]] + rest)[j] == rest[j - 1];
      [s[..i]] + rest
  }

  /**
   * Joining a non-empty list of parts that do not contain the separator
   * loses nothing: splitting the result gives back exactly those parts.
   */
  lemma {:induction false} SplitJoin(parts: seq<string>, sep: char)
    requires |parts| >= 1
    requires forall i :: 0 <= i < |parts| ==> sep !in parts[i]
    ensures Split(Join(parts, [sep]), sep) == parts
  {
    if |parts| == 1 {
      assert Join(parts, [sep]) == parts[0];
    } else {
      var p := parts[0];
      var tail := Join(parts[1..], [sep]);
      assert Join(parts, [sep]) == p + [sep] + tail;
      SplitFirst(p, sep, tail);
      SplitJoin(parts[1..], sep);
      assert parts == [p] + parts[1..];
    }
  }

  /** Split cuts at the first separator. */
  lemma SplitFirst(p: string, sep: char, tail: string)
    requires sep !in p
    ensures Split(p + [sep] + tail, sep) == [p] + Split(tail, sep)
  {
    var s := p + [sep] + tail;
    assert s[..|p|] == p;
    IndexOfAt(s, sep, |p|);
    assert s[|p| + 1..] == tail;
  }
}
