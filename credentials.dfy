/**
 * The credential-list format both scripts read from an environment variable:
 * one `name:secret` pair per line. Each line is stripped; a blank line is
 * skipped; otherwise the line is split at its first ':' and both halves are
 * stripped, so a secret may itself contain ':'. A non-blank line without ':'
 * is malformed: Koyeb skips it, Netlib logs a warning for it.
 */
module Credentials {
  import opened Wrappers
  import opened Text

  /** `name` is the Koyeb email or the Netlib username; `secret` the PAT or the password. */
  datatype Credential = Credential(name: string, secret: string)

  datatype Line = Blank | Malformed(item: string) | Pair(credential: Credential)

  /** What one raw line of the list is. */
  function ClassifyLine(raw: string): (l: Line)
    ensures l.Blank? <==> AllSpace(raw)
    ensures l.Malformed? <==> !AllSpace(raw) && ':' !in raw
    ensures l.Malformed? ==> l.item == Strip(raw) && l.item != []
    ensures l.Pair? ==> ':' !in l.credential.name
    ensures l.Pair? ==> IsStripped(l.credential.name) && IsStripped(l.credential.secret)
  {
    var item := Strip(raw);
    StripKeeps(raw, ':');
    if item == [] then Blank
    else match SplitOnce(item, ':')
      case None => Malformed(item)
      case Some((name, secret)) =>
        StripKeeps(name, ':');
        Pair(Credential(Strip(name), Strip(secret)))
  }

  /**
   * The first ':' splits: a line `a:b` with no ':' in `a` is the pair of the
   * stripped `a` and the stripped `b`, whatever `b` holds.
   */
  lemma ClassifyFirstColon(a: string, b: string)
    requires ':' !in a
    ensures ClassifyLine(a + [':'] + b) == Pair(Credential(Strip(a), Strip(b)))
  {
    var raw := a + [':'] + b;
    var la := SkipSpaces(a, 0);
    var eb := SkipSpacesBack(b, |b|);
    var core := a[la..] + [':'] + b[..eb];
    assert Strip(raw) == core by {
      assert raw[..la] == a[..la];
      assert AllSpace(raw[..la]) by {
        forall k | 0 <= k < la ensures IsSpace(raw[..la][k]) { assert raw[..la][k] == a[k]; }
      }
      var j := |a| + 1 + eb;
      assert raw[j..] == b[eb..];
      assert AllSpace(raw[j..]) by {
        forall k | 0 <= k < |b| - eb ensures IsSpace(raw[j..][k]) { assert raw[j..][k] == b[eb + k]; }
      }
      SliceAroundColon(a, b, la, eb);
      assert core[0] == (if la < |a| then a[la] else ':');
      assert core[|core| - 1] == (if eb > 0 then b[eb - 1] else ':');
      StripIs(raw, la, j);
    }
    assert ':' !in a[la..];
    SplitOnceFirst(a[la..], ':', b[..eb]);
    StripAfterLeading(a, la);
    StripAfterTrailing(b, eb);
  }

  /** The part of `a:b` from `la` in `a` to `eb` in `b` is the two partial pieces around the colon. */
  lemma SliceAroundColon(a: string, b: string, la: nat, eb: nat)
    requires la <= |a| && eb <= |b|
    ensures (a + [':'] + b)[la..|a| + 1 + eb] == a[la..] + [':'] + b[..eb]
  {
    var raw := a + [':'] + b;
    assert forall k :: la <= k < |a| ==> raw[k] == a[k];
    assert forall k :: 0 <= k < eb ==> raw[|a| + 1 + k] == b[k];
  }

  /** The credential a line contributes: one for a pair, none otherwise. */
  function Accepted(raw: string): seq<Credential> {
    match ClassifyLine(raw)
    case Pair(c) => [c]
    case _ => []
  }

  /** Accepted in the terms of a loop that strips the line, skips it when it is empty or holds no ':', and splits it at the first ':' otherwise. */
  lemma AcceptedByGuard(raw: string)
    ensures var item := Strip(raw);
      Accepted(raw) ==
        if item == [] || ':' !in item then []
        else [Credential(Strip(SplitOnce(item, ':').value.0), Strip(SplitOnce(item, ':').value.1))]
  {
  }

  /** The malformed item a line contributes: one for a non-blank line without ':', none otherwise. */
  function Rejected(raw: string): seq<string> {
    match ClassifyLine(raw)
    case Malformed(item) => [item]
    case _ => []
  }

  /** The credentials of a list of lines, in line order. */
  function Parsed(lines: seq<string>): seq<Credential> {
    if lines == [] then [] else Accepted(lines[0]) + Parsed(lines[1..])
  }

  /** The malformed items of a list of lines, in line order. */
  function Malformations(lines: seq<string>): seq<string> {
    if lines == [] then [] else Rejected(lines[0]) + Malformations(lines[1..])
  }

  function BlankCount(lines: seq<string>): nat {
    if lines == [] then 0 else (if AllSpace(lines[0]) then 1 else 0) + BlankCount(lines[1..])
  }

  /** Parsing is line by line: the credentials of two blocks of lines are those of the first followed by those of the second. */
  lemma {:induction false} ParsedAppend(a: seq<string>, b: seq<string>)
    ensures Parsed(a + b) == Parsed(a) + Parsed(b)
  {
    if a != [] {
      assert (a + b)[1..] == a[1..] + b;
      ParsedAppend(a[1..], b);
    } else {
      assert a + b == b;
    }
  }

  /** One more line read: its credential, if any, goes at the end. */
  lemma ParsedStep(lines: seq<string>, i: nat)
    requires i < |lines|
    ensures Parsed(lines[..i + 1]) == Parsed(lines[..i]) + Accepted(lines[i])
  {
    assert lines[..i + 1] == lines[..i] + [lines[i]];
    ParsedAppend(lines[..i], [lines[i]]);
    assert Parsed([lines[i]]) == Accepted(lines[i]) + Parsed([]);
  }

  /** One more line read: its malformed item, if any, goes at the end. */
  lemma MalformationsStep(lines: seq<string>, i: nat)
    requires i < |lines|
    ensures Malformations(lines[..i + 1]) == Malformations(lines[..i]) + Rejected(lines[i])
  {
    assert lines[..i + 1] == lines[..i] + [lines[i]];
    MalformationsAppend(lines[..i], [lines[i]]);
    assert Malformations([lines[i]]) == Rejected(lines[i]) + Malformations([]);
  }

  /** Malformed items are reported line by line, in order. */
  lemma {:induction false} MalformationsAppend(a: seq<string>, b: seq<string>)
    ensures Malformations(a + b) == Malformations(a) + Malformations(b)
  {
    if a != [] {
      assert (a + b)[1..] == a[1..] + b;
      MalformationsAppend(a[1..], b);
    } else {
      assert a + b == b;
    }
  }

  /** Every line is exactly one of: blank, malformed, or a credential. */
  lemma {:induction false} EveryLineAccounted(lines: seq<string>)
    ensures |Parsed(lines)| + |Malformations(lines)| + BlankCount(lines) == |lines|
  {
    if lines != [] {
      EveryLineAccounted(lines[1..]);
    }
  }

  /** A credential that can be written as a line and read back unchanged. */
  predicate Writable(c: Credential) {
    IsStripped(c.name) && IsStripped(c.secret) && ':' !in c.name && '\n' !in c.name && '\n' !in c.secret
  }

  /** The line `name:secret`. */
  function LineOf(c: Credential): string {
    c.name + [':'] + c.secret
  }

  function LinesOf(cs: seq<Credential>): (lines: seq<string>)
    ensures |lines| == |cs|
  {
    if cs == [] then [] else [LineOf(cs[0])] + LinesOf(cs[1..])
  }

  /** Writing credentials one per line and parsing the lines gives the credentials back. */
  lemma {:induction false} ParseLinesOf(cs: seq<Credential>)
    requires forall k :: 0 <= k < |cs| ==> Writable(cs[k])
    ensures Parsed(LinesOf(cs)) == cs
  {
    if cs != [] {
      var c := cs[0];
      ClassifyFirstColon(c.name, c.secret);
      StripNoop(c.name);
      StripNoop(c.secret);
      ParseLinesOf(cs[1..]);
      assert LinesOf(cs)[1..] == LinesOf(cs[1..]);
    }
  }

  /** The credential list as one newline-separated text. */
  function Render(cs: seq<Credential>): string {
    Join(LinesOf(cs), '\n')
  }

  /**
   * The full round trip, with the outer strip and the split at newlines:
   * rendering credentials and reading the text back gives them again.
   */
  lemma RenderRoundTrip(cs: seq<Credential>)
    requires forall k :: 0 <= k < |cs| ==> Writable(cs[k])
    ensures Parsed(Split(Strip(Render(cs)), '\n')) == cs
  {
    var lines := LinesOf(cs);
    if cs == [] {
      assert Split(Strip(""), '\n') == [""];
    } else {
      RenderIsStripped(cs);
      StripNoop(Render(cs));
      assert forall k :: 0 <= k < |lines| ==> '\n' !in lines[k] by {
        forall k | 0 <= k < |lines| ensures '\n' !in lines[k] { LineOfAt(cs, k); }
      }
      SplitJoin(lines, '\n');
      ParseLinesOf(cs);
    }
  }

  lemma {:induction false} LineOfAt(cs: seq<Credential>, k: nat)
    requires k < |cs|
    ensures LinesOf(cs)[k] == LineOf(cs[k])
  {
    if k > 0 { LineOfAt(cs[1..], k - 1); }
  }

  /** A rendered non-empty list begins and ends with a character that is not whitespace. */
  lemma RenderIsStripped(cs: seq<Credential>)
    requires |cs| > 0 && forall k :: 0 <= k < |cs| ==> Writable(cs[k])
    ensures IsStripped(Render(cs))
  {
    var lines := LinesOf(cs);
    JoinEnds(lines, '\n');
    LineOfAt(cs, 0);
    LineOfAt(cs, |cs| - 1);
    LineEnds(cs[0]);
    LineEnds(cs[|cs| - 1]);
    EndsOf(Render(cs), lines[0], lines[|lines| - 1]);
  }

  /** The line of a writable credential is non-empty and has no whitespace at either end. */
  lemma LineEnds(c: Credential)
    requires Writable(c)
    ensures LineOf(c) != [] && IsStripped(LineOf(c))
  {
    var l := LineOf(c);
    assert l[0] == (if c.name == [] then ':' else c.name[0]);
    assert l[|l| - 1] == (if c.secret == [] then ':' else c.secret[|c.secret| - 1]);
  }

  lemma EndsOf(r: string, first: string, last: string)
    requires first != [] && last != [] && |first| <= |r| && |last| <= |r|
    requires r[..|first|] == first && r[|r| - |last|..] == last
    requires IsStripped(first) && IsStripped(last)
    ensures IsStripped(r)
  {
    assert r[..|first|][0] == r[0];
    assert r[|r| - |last|..][|last| - 1] == r[|r| - 1];
  }
}
