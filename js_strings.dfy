/** The JavaScript string operations the core relies on: `split` by a
    non-empty separator (with and without a limit), `join` and `trim`. */
module JsStrings {

  import opened JsValues

  /** `sep` occurs in `s` at position `i`. */
  predicate OccursAt(s: string, sep: string, i: nat) {
    i + |sep| <= |s| && s[i..i + |sep|] == sep
  }

  ghost predicate Contains(s: string, sep: string) {
    exists i: nat :: OccursAt(s, sep, i)
  }

  /** `String.prototype.indexOf`: the first position of `sep` in `s`. */
  function IndexOf(s: string, sep: string): (r: Option<nat>)
    requires |sep| > 0
    ensures r.Some? ==> OccursAt(s, sep, r.value) && forall j: nat :: j < r.value ==> !OccursAt(s, sep, j)
    ensures r.None? ==> !Contains(s, sep)
    decreases |s|
  {
    if |s| < |sep| then
      assert forall j: nat :: !OccursAt(s, sep, j);
      None
    else if s[..|sep|] == sep then Some(0)
    else
      var rest := IndexOf(s[1..], sep);
      forall j: nat | OccursAt(s, sep, j + 1) ensures OccursAt(s[1..], sep, j) {
        assert s[1..][j..j + |sep|] == s[j + 1..j + 1 + |sep|];
      }
      forall j: nat | OccursAt(s[1..], sep, j) ensures OccursAt(s, sep, j + 1) {
        assert s[1..][j..j + |sep|] == s[j + 1..j + 1 + |sep|];
      }
      match rest
      case None =>
        assert forall j: nat :: !OccursAt(s, sep, j) by {
          forall j: nat ensures !OccursAt(s, sep, j) {
            if j > 0 { assert !OccursAt(s[1..], sep, j - 1); }
          }
        }
        None
      case Some(k) =>
        assert !OccursAt(s, sep, 0);
        forall j: nat | j < k + 1 ensures !OccursAt(s, sep, j) {
          if j > 0 { assert !OccursAt(s[1..], sep, j - 1); }
        }
        Some(k + 1)
  }

  /** `String.prototype.split(sep)`. */
  function Split(s: string, sep: string): (parts: seq<string>)
    requires |sep| > 0
    ensures |parts| >= 1
    decreases |s|
  {
    match IndexOf(s, sep)
    case None => [s]
    case Some(i) => [s[..i]] + Split(s[i + |sep|..], sep)
  }

  /** `Array.prototype.join(sep)` on strings. */
  function Join(parts: seq<string>, sep: string): string {
    if parts == [] then ""
    else if |parts| == 1 then parts[0]
    else parts[0] + sep + Join(parts[1..], sep)
  }

  /** Splitting and joining again by the same separator gives the string back. */
  lemma {:induction false} JoinSplit(s: string, sep: string)
    requires |sep| > 0
    ensures Join(Split(s, sep), sep) == s
    decreases |s|
  {
    match IndexOf(s, sep)
    case None =>
    case Some(i) =>
      var rest := s[i + |sep|..];
      var parts := Split(rest, sep);
      JoinSplit(rest, sep);
      assert Split(s, sep) == [s[..i]] + parts;
      assert ([s[..i]] + parts)[1..] == parts;
      assert Join([s[..i]] + parts, sep) == s[..i] + sep + Join(parts, sep);
      assert s == s[..i] + sep + rest by {
        assert s[i..i + |sep|] == sep;
        assert s == s[..i] + s[i..i + |sep|] + s[i + |sep|..];
      }
  }

  /** No part of a split holds the separator. */
  lemma {:induction false} SplitPartsLackSeparator(s: string, sep: string)
    requires |sep| > 0
    ensures forall p :: p in Split(s, sep) ==> !Contains(p, sep)
    decreases |s|
  {
    match IndexOf(s, sep)
    case None =>
    case Some(i) =>
      SplitPartsLackSeparator(s[i + |sep|..], sep);
      assert !Contains(s[..i], sep) by {
        forall j: nat | OccursAt(s[..i], sep, j) ensures false {
          assert s[..i][j..j + |sep|] == s[j..j + |sep|];
          assert OccursAt(s, sep, j);
        }
      }
  }

  /** The first part of a split is everything before the first separator,
      and the separator follows it whenever there is a second part. */
  lemma SplitHead(s: string, sep: string)
    requires |sep| > 0
    ensures Contains(s, sep) <==> |Split(s, sep)| >= 2
    ensures !Contains(s, sep) ==> Split(s, sep) == [s]
    ensures Contains(s, sep) ==> |Split(s, sep)[0]| + |sep| <= |s|
                                 && s[..|Split(s, sep)[0]| + |sep|] == Split(s, sep)[0] + sep
  {
    match IndexOf(s, sep)
    case None =>
    case Some(i) =>
      assert OccursAt(s, sep, i);
      assert s[..i + |sep|] == s[..i] + s[i..i + |sep|];
  }

  /** `String.prototype.split(sep, limit)`: at most `limit` leading parts. */
  function SplitLimit(s: string, sep: string, limit: nat): (parts: seq<string>)
    requires |sep| > 0
    ensures |parts| <= limit
    ensures parts == Split(s, sep)[..if limit < |Split(s, sep)| then limit else |Split(s, sep)|]
  {
    var all := Split(s, sep);
    all[..if limit < |all| then limit else |all|]
  }

  /** The characters `String.prototype.trim` strips: ECMAScript white space
      and line terminators. */
  const WhiteSpace: set<char> := {
    ' ', '\t', '\n', '\r', '\U{000B}', '\U{000C}', '\U{00A0}', '\U{1680}',
    '\U{2000}', '\U{2001}', '\U{2002}', '\U{2003}', '\U{2004}', '\U{2005}', '\U{2006}',
    '\U{2007}', '\U{2008}', '\U{2009}', '\U{200A}',
    '\U{2028}', '\U{2029}', '\U{202F}', '\U{205F}', '\U{3000}', '\U{FEFF}'
  }

  predicate IsWhiteSpace(c: char) {
    c in WhiteSpace
  }

  /** `s` without its leading white space. */
  function TrimStart(s: string): (r: string)
    ensures r == [] || !IsWhiteSpace(r[0])
    ensures |r| <= |s| && r == s[|s| - |r|..]
    ensures forall i :: 0 <= i < |s| - |r| ==> IsWhiteSpace(s[i])
    decreases |s|
  {
    if s != [] && IsWhiteSpace(s[0]) then
      var r := TrimStart(s[1..]);
      assert s[1..][|s[1..]| - |r|..] == s[|s| - |r|..];
      assert forall i :: 1 <= i < |s| - |r| ==> s[i] == s[1..][i - 1];
      r
    else
      s
  }

  /** `s` without its trailing white space. */
  function TrimEnd(s: string): (r: string)
    ensures r == [] || !IsWhiteSpace(r[|r| - 1])
    ensures |r| <= |s| && r == s[..|r|]
    ensures forall i :: |r| <= i < |s| ==> IsWhiteSpace(s[i])
    decreases |s|
  {
    if s != [] && IsWhiteSpace(s[|s| - 1]) then
      var t := s[..|s| - 1];
      var r := TrimEnd(t);
      assert t[..|r|] == s[..|r|];
      assert forall i :: |r| <= i < |t| ==> s[i] == t[i];
      r
    else
      s
  }

  /** `r` is the slice of `s` at `k`, with only white space around it. */
  predicate SliceInWhiteSpace(s: string, r: string, k: int) {
    && 0 <= k <= |s| - |r| && r == s[k..k + |r|]
    && AllWhiteSpace(s, 0, k) && AllWhiteSpace(s, k + |r|, |s|)
  }

  /** `s[lo..hi]` is white space only. */
  predicate AllWhiteSpace(s: string, lo: int, hi: int) {
    forall i :: lo <= i < hi && 0 <= i < |s| ==> IsWhiteSpace(s[i])
  }

  /** `String.prototype.trim`: the middle of `s` left once the white space
      at both ends is gone. */
  function Trim(s: string): (r: string)
    ensures r == [] || (!IsWhiteSpace(r[0]) && !IsWhiteSpace(r[|r| - 1]))
    ensures exists k :: SliceInWhiteSpace(s, r, k)
  {
    TrimIsSlice(s);
    TrimEnd(TrimStart(s))
  }

  /** The trimmed string sits in `s` right after the leading white space. */
  lemma TrimIsSlice(s: string)
    ensures SliceInWhiteSpace(s, TrimEnd(TrimStart(s)), |s| - |TrimStart(s)|)
  {
    var t := TrimStart(s);
    var r := TrimEnd(t);
    var k := |s| - |t|;
    SliceOfSuffix(s, t, r, k);
    WhiteSpaceOfSuffix(s, t, |r|, k);
    assert AllWhiteSpace(s, 0, k);
  }

  /** A prefix of the suffix of `s` at `k` is the slice of `s` at `k`. */
  lemma SliceOfSuffix(s: string, t: string, r: string, k: int)
    requires 0 <= k <= |s| && t == s[k..] && |r| <= |t| && r == t[..|r|]
    ensures k + |r| <= |s| && r == s[k..k + |r|]
  {
  }

  /** White space at the end of the suffix at `k` is white space in `s`. */
  lemma WhiteSpaceOfSuffix(s: string, t: string, n: int, k: int)
    requires 0 <= k <= |s| && t == s[k..] && 0 <= n <= |t|
    requires forall j :: n <= j < |t| ==> IsWhiteSpace(t[j])
    ensures AllWhiteSpace(s, k + n, |s|)
  {
    forall i | k + n <= i < |s|
      ensures IsWhiteSpace(s[i])
    {
      assert s[i] == t[i - k];
    }
  }

  /** A string without surrounding white space is its own trim. */
  lemma TrimUnchanged(s: string)
    requires s == [] || (!IsWhiteSpace(s[0]) && !IsWhiteSpace(s[|s| - 1]))
    ensures Trim(s) == s
  {
  }

  /** Trimming twice is trimming once. */
  lemma TrimIdempotent(s: string)
    ensures Trim(Trim(s)) == Trim(s)
  {
    TrimUnchanged(Trim(s));
  }
}
