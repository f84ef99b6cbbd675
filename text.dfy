/**
 * The handful of Python `str` operations the two scripts rely on, over
 * strings as sequences of code points: `isspace`, `strip`, `split(sep)`,
 * `split(sep, 1)`, `sep.join`, `lower` and `find`.
 */
module Text {
  import opened Wrappers

  /** `c.isspace()`: the code points Python treats as whitespace. */
  predicate IsSpace(c: char) {
    var n := c as int;
    (9 <= n <= 13) || (28 <= n <= 32) || n == 0x85 || n == 0xA0 || n == 0x1680
    || (0x2000 <= n <= 0x200A) || n == 0x2028 || n == 0x2029 || n == 0x202F
    || n == 0x205F || n == 0x3000
  }

  predicate AllSpace(s: string) {
    forall k :: 0 <= k < |s| ==> IsSpace(s[k])
  }

  /** Neither end of `s` is whitespace. */
  predicate IsStripped(s: string) {
    s == [] || (!IsSpace(s[0]) && !IsSpace(s[|s| - 1]))
  }

  /** The first position from `i` on that is not whitespace (`|s|` when there is none). */
  function SkipSpaces(s: string, i: nat): (j: nat)
    requires i <= |s|
    ensures i <= j <= |s|
    ensures forall k :: i <= k < j ==> IsSpace(s[k])
    ensures j < |s| ==> !IsSpace(s[j])
    decreases |s| - i
  {
    if i == |s| || !IsSpace(s[i]) then i else SkipSpaces(s, i + 1)
  }

  /** Where `s[..j]` ends once its trailing whitespace is dropped. */
  function SkipSpacesBack(s: string, j: nat): (e: nat)
    requires j <= |s|
    ensures e <= j
    ensures forall k :: e <= k < j ==> IsSpace(s[k])
    ensures e > 0 ==> !IsSpace(s[e - 1])
  {
    if j == 0 || !IsSpace(s[j - 1]) then j else SkipSpacesBack(s, j - 1)
  }

  /**
   * `s.strip()`: the part of `s` between its leading and its trailing
   * whitespace; empty exactly when `s` is all whitespace.
   */
  function Strip(s: string): (r: string)
    ensures IsStripped(r)
    ensures r == [] <==> AllSpace(s)
    ensures |r| <= |s|
  {
    var i := SkipSpaces(s, 0);
    if i == |s| then []
    else
      var e := SkipSpacesBack(s, |s|);
      assert !IsSpace(s[i]) && i < e;
      s[i..e]
  }

  /** Strip removes whitespace only: a character that is not whitespace is in `s` exactly when it is in `s.strip()`. */
  lemma StripKeeps(s: string, c: char)
    requires !IsSpace(c)
    ensures c in Strip(s) <==> c in s
  {
    var i := SkipSpaces(s, 0);
    if i < |s| {
      var e := SkipSpacesBack(s, |s|);
      assert Strip(s) == s[i..e];
      if c in s {
        var k :| 0 <= k < |s| && s[k] == c;
        assert s[i..e][k - i] == c;
      }
    }
  }

  /** Strip is determined by its defining property: any slice that leaves only whitespace outside and none at its ends is the stripped text. */
  lemma StripIs(s: string, i: nat, j: nat)
    requires i <= j <= |s|
    requires AllSpace(s[..i]) && AllSpace(s[j..]) && IsStripped(s[i..j])
    ensures Strip(s) == s[i..j]
  {
    assert forall k :: 0 <= k < i ==> IsSpace(s[k]) by {
      forall k | 0 <= k < i ensures IsSpace(s[k]) { assert s[..i][k] == s[k]; }
    }
    assert forall k :: j <= k < |s| ==> IsSpace(s[k]) by {
      forall k | j <= k < |s| ensures IsSpace(s[k]) { assert s[j..][k - j] == s[k]; }
    }
    if i < j {
      assert s[i..j][0] == s[i] && s[i..j][j - i - 1] == s[j - 1];
      assert SkipSpaces(s, 0) == i;
      assert SkipSpacesBack(s, |s|) == j;
    }
  }

  /** Stripping twice is stripping once. */
  lemma StripIdempotent(s: string)
    ensures Strip(Strip(s)) == Strip(s)
  {
    var r := Strip(s);
    StripIs(r, 0, |r|);
  }

  /** Text whose ends are not whitespace is left alone by strip. */
  lemma StripNoop(s: string)
    requires IsStripped(s)
    ensures Strip(s) == s
  {
    StripIs(s, 0, |s|);
  }

  /** Outside the leading and the trailing whitespace lies a slice whose ends are not whitespace. */
  lemma StripBounds(s: string, l: nat, e: nat)
    requires l == SkipSpaces(s, 0) < |s| && e == SkipSpacesBack(s, |s|)
    ensures l < e
    ensures AllSpace(s[..l]) && AllSpace(s[e..]) && IsStripped(s[l..e])
  {
    LeadingRun(s, l);
    TrailingRun(s, e);
    InnerSlice(s, l, e);
  }

  lemma LeadingRun(s: string, l: nat)
    requires l == SkipSpaces(s, 0)
    ensures AllSpace(s[..l]) && (l < |s| ==> !IsSpace(s[l]))
  {
    assert forall k :: 0 <= k < l ==> s[..l][k] == s[k];
  }

  lemma TrailingRun(s: string, e: nat)
    requires e == SkipSpacesBack(s, |s|)
    ensures AllSpace(s[e..]) && (e > 0 ==> !IsSpace(s[e - 1]))
  {
    assert forall k :: 0 <= k < |s| - e ==> s[e..][k] == s[e + k];
  }

  /** A slice starting at a non-whitespace character and ending before only whitespace, after one, is non-empty and stripped. */
  lemma InnerSlice(s: string, l: nat, e: nat)
    requires l < |s| && e <= |s|
    requires !IsSpace(s[l]) && AllSpace(s[e..]) && (e > 0 ==> !IsSpace(s[e - 1]))
    ensures l < e && IsStripped(s[l..e])
  {
    assert forall k :: e <= k < |s| ==> s[e..][k - e] == s[k];
    assert s[l..e][0] == s[l] && s[l..e][e - l - 1] == s[e - 1];
  }

  /** Dropping the leading whitespace first (from `l` on) does not change what strip gives. */
  lemma StripAfterLeading(s: string, l: nat)
    requires l == SkipSpaces(s, 0)
    ensures Strip(s[l..]) == Strip(s)
  {
    if l < |s| {
      var e := SkipSpacesBack(s, |s|);
      StripBounds(s, l, e);
      StripIs(s, l, e);
      SuffixStrip(s, l, e);
    } else {
      LeadingRun(s, l);
      assert s[..l] == s && s[l..] == [];
    }
  }

  /** Cutting off whitespace-only text before a stripped middle leaves the same strip. */
  lemma SuffixStrip(s: string, l: nat, e: nat)
    requires l < e <= |s|
    requires AllSpace(s[e..]) && IsStripped(s[l..e])
    ensures Strip(s[l..]) == s[l..e]
  {
    var q := s[l..];
    assert q[..0] == [] && q[e - l..] == s[e..] && q[0..e - l] == s[l..e];
    StripIs(q, 0, e - l);
  }

  /** Dropping the trailing whitespace first (the first `e` characters are kept) does not change what strip gives. */
  lemma StripAfterTrailing(s: string, e: nat)
    requires e == SkipSpacesBack(s, |s|)
    ensures Strip(s[..e]) == Strip(s)
  {
    var l := SkipSpaces(s, 0);
    if l < |s| {
      StripBounds(s, l, e);
      StripIs(s, l, e);
      PrefixStrip(s, l, e);
    } else {
      TrailingRun(s, e);
      assert AllSpace(s);
      assert s[..e] == [];
    }
  }

  /** Cutting off whitespace-only text after a stripped middle leaves the same strip. */
  lemma PrefixStrip(s: string, l: nat, e: nat)
    requires l < e <= |s|
    requires AllSpace(s[..l]) && IsStripped(s[l..e])
    ensures Strip(s[..e]) == s[l..e]
  {
    var p := s[..e];
    assert forall k :: 0 <= k < l ==> p[..l][k] == s[..l][k];
    assert p[e..] == [] && p[l..e] == s[l..e];
    StripIs(p, l, e);
  }

  /** Index of the first `c` in `s`, or `|s|` when there is none. */
  function IndexOf(s: string, c: char): (i: nat)
    ensures i <= |s|
    ensures i < |s| ==> s[i] == c
    ensures forall k :: 0 <= k < i ==> s[k] != c
  {
    if s == [] || s[0] == c then 0 else 1 + IndexOf(s[1..], c)
  }

  /** The total length of a list of pieces. */
  function TotalLength(parts: seq<string>): nat {
    if parts == [] then 0 else |parts[0]| + TotalLength(parts[1..])
  }

  /**
   * `sep.join(parts)` for a one-character separator: the pieces, in order,
   * with one separator between each two, so no separator for a single piece
   * and the empty text for no pieces.
   */
  function Join(parts: seq<string>, sep: char): (r: string)
    ensures |parts| == 0 ==> r == []
    ensures |parts| >= 1 ==> |r| == TotalLength(parts) + |parts| - 1
    ensures |parts| >= 1 ==> r[..|parts[0]|] == parts[0]
  {
    if |parts| == 0 then ""
    else if |parts| == 1 then parts[0]
    else parts[0] + [sep] + Join(parts[1..], sep)
  }

  /** A join begins with its first piece and ends with its last one. */
  lemma {:induction false} JoinEnds(parts: seq<string>, sep: char)
    requires |parts| >= 1
    ensures |Join(parts, sep)| >= |parts[0]| && |Join(parts, sep)| >= |parts[|parts| - 1]|
    ensures Join(parts, sep)[..|parts[0]|] == parts[0]
    ensures Join(parts, sep)[|Join(parts, sep)| - |parts[|parts| - 1]|..] == parts[|parts| - 1]
  {
    if |parts| > 1 {
      var rest := parts[1..];
      JoinEnds(rest, sep);
      var j := Join(parts, sep);
      assert j == parts[0] + [sep] + Join(rest, sep);
      assert rest[|rest| - 1] == parts[|parts| - 1];
      assert j[|j| - |Join(rest, sep)|..] == Join(rest, sep);
    }
  }

  /**
   * `s.split(sep)`: the pieces between separators, in order; never empty
   * (`"".split(sep)` is `[""]`), no piece holds `sep`, and joining the pieces
   * with `sep` gives `s` back.
   */
  function Split(s: string, sep: char): (parts: seq<string>)
    ensures |parts| >= 1
    ensures forall k :: 0 <= k < |parts| ==> sep !in parts[k]
    ensures Join(parts, sep) == s
    decreases |s|
  {
    var i := IndexOf(s, sep);
    if i == |s| then [s]
    else
      var rest := Split(s[i + 1..], sep);
      assert ([s[..i]] + rest)[1..] == rest;
      assert s[..i] + [sep] + s[i + 1..] == s;
      [s[..i]] + rest
  }

  /** The other half of the round trip: splitting joined pieces that hold no separator gives the pieces back. */
  lemma {:induction false} SplitJoin(parts: seq<string>, sep: char)
    requires |parts| >= 1
    requires forall k :: 0 <= k < |parts| ==> sep !in parts[k]
    ensures Split(Join(parts, sep), sep) == parts
  {
    var s := Join(parts, sep);
    if |parts| == 1 {
      assert IndexOf(s, sep) == |s|;
    } else {
      var p := parts[0];
      assert s == p + [sep] + Join(parts[1..], sep);
      assert s[|p|] == sep;
      assert forall k :: 0 <= k < |p| ==> s[k] == p[k];
      assert IndexOf(s, sep) == |p|;
      assert s[..|p|] == p;
      assert s[|p| + 1..] == Join(parts[1..], sep);
      SplitJoin(parts[1..], sep);
      assert parts == [p] + parts[1..];
    }
  }

  /**
   * Unpacking `s.split(sep, 1)` into two names: the text before the first
   * `sep` and everything after it, or None when `s` holds no `sep` (Python's
   * unpacking then raises ValueError).
   */
  function SplitOnce(s: string, sep: char): (r: Option<(string, string)>)
    ensures r.None? <==> sep !in s
    ensures r.Some? ==> r.value.0 + [sep] + r.value.1 == s && sep !in r.value.0
  {
    var i := IndexOf(s, sep);
    if i == |s| then None
    else
      assert s[..i] + [sep] + s[i + 1..] == s;
      Some((s[..i], s[i + 1..]))
  }

  /** Only the first separator splits: whatever follows it, separators included, is the second part. */
  lemma SplitOnceFirst(a: string, sep: char, b: string)
    requires sep !in a
    ensures SplitOnce(a + [sep] + b, sep) == Some((a, b))
  {
    var s := a + [sep] + b;
    assert s[|a|] == sep;
    assert forall k :: 0 <= k < |a| ==> s[k] == a[k];
    assert s[..|a|] == a && s[|a| + 1..] == b;
  }

  function LowerChar(c: char): char {
    if 'A' <= c <= 'Z' then (c as int + 32) as char else c
  }

  /**
   * `s.lower()` on the ASCII letters: each upper-case letter A-Z becomes its
   * lower-case partner, every other character is kept, and no upper-case
   * ASCII letter is left.
   */
  function Lower(s: string): (r: string)
    ensures |r| == |s|
    ensures forall k :: 0 <= k < |r| ==> !('A' <= r[k] <= 'Z')
    ensures forall k :: 0 <= k < |s| && !('A' <= s[k] <= 'Z') ==> r[k] == s[k]
    ensures forall k :: 0 <= k < |s| && 'A' <= s[k] <= 'Z' ==> 'a' <= r[k] <= 'z' && r[k] as int == s[k] as int + 32
  {
    seq(|s|, k requires 0 <= k < |s| => LowerChar(s[k]))
  }

  /** `needle` occurs in `hay` starting at index `k`. */
  predicate OccursAt(hay: string, needle: string, k: int) {
    0 <= k && k + |needle| <= |hay| && hay[k..k + |needle|] == needle
  }

  /** `needle in hay`, i.e. `hay.find(needle) != -1`. */
  predicate Contains(hay: string, needle: string) {
    exists k | 0 <= k <= |hay| - |needle| :: OccursAt(hay, needle, k)
  }

  /** `hay.find(needle)`: the lowest index where `needle` occurs, or -1. */
  method Find(hay: string, needle: string) returns (idx: int)
    ensures idx == -1 <==> !Contains(hay, needle)
    ensures idx != -1 ==> OccursAt(hay, needle, idx)
    ensures forall k :: 0 <= k < idx ==> !OccursAt(hay, needle, k)
  {
    idx := 0;
    while idx + |needle| <= |hay|
      invariant 0 <= idx
      invariant forall k :: 0 <= k < idx ==> !OccursAt(hay, needle, k)
      decreases |hay| - idx
    {
      if hay[idx..idx + |needle|] == needle {
        assert OccursAt(hay, needle, idx);
        return;
      }
      idx := idx + 1;
    }
    idx := -1;
  }
}
