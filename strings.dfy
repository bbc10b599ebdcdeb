/** The Python string builtins the stream adapter relies on: `str.isspace`
    (character by character), `str.rstrip()` with no argument, and
    `str.splitlines()`, together with `"\n".join` as the inverse of the latter. */
module Strings {

  /** Python 3's `str.isspace` on one character: the ASCII separators and
      controls 0x09-0x0D and 0x1C-0x1F, the space, and the Unicode characters
      of category Zs or of bidirectional class WS, B or S. */
  predicate IsSpace(c: char) {
    || c == ' ' || c == '\t' || c == '\n' || c == '\r'
    || c == '\U{0B}' || c == '\U{0C}'
    || ('\U{1C}' <= c <= '\U{1F}')
    || c == '\U{85}' || c == '\U{A0}' || c == '\U{1680}'
    || ('\U{2000}' <= c <= '\U{200A}')
    || c == '\U{2028}' || c == '\U{2029}' || c == '\U{202F}' || c == '\U{205F}'
    || c == '\U{3000}'
  }

  /** The line boundaries of `str.splitlines`: \n, \r, \v, \f, the
      separators 0x1C-0x1E, NEL (0x85), and the Unicode line and paragraph
      separators. (The two-character boundary \r\n is handled by BreakWidth.) */
  predicate IsLineBreak(c: char) {
    || c == '\n' || c == '\r' || c == '\U{0B}' || c == '\U{0C}'
    || ('\U{1C}' <= c <= '\U{1E}')
    || c == '\U{85}' || c == '\U{2028}' || c == '\U{2029}'
  }

  lemma LineBreakIsSpace(c: char)
    ensures IsLineBreak(c) ==> IsSpace(c)
  {
  }

  predicate AllSpace(s: string) {
    forall i :: 0 <= i < |s| ==> IsSpace(s[i])
  }

  predicate NoTrailingSpace(s: string) {
    s == [] || !IsSpace(s[|s| - 1])
  }

  predicate NoLineBreak(s: string) {
    forall i :: 0 <= i < |s| ==> !IsLineBreak(s[i])
  }

  /** `s.rstrip()`: the longest prefix of `s` that does not end in whitespace;
      everything cut off is whitespace. */
  function RStrip(s: string): (r: string)
    ensures r <= s
    ensures NoTrailingSpace(r)
    ensures AllSpace(s[|r|..])
    decreases |s|
  {
    if s == [] || !IsSpace(s[|s| - 1]) then s
    else
      var r := RStrip(s[..|s| - 1]);
      assert s[|r|..] == s[..|s| - 1][|r|..] + [s[|s| - 1]];
      r
  }

  /** The three contract clauses of RStrip determine its result: any prefix
      without trailing whitespace whose cut-off part is all whitespace is it. */
  lemma RStripUnique(s: string, r: string)
    requires r <= s && NoTrailingSpace(r) && AllSpace(s[|r|..])
    ensures RStrip(s) == r
  {
  }

  lemma RStripIdempotent(s: string)
    ensures RStrip(RStrip(s)) == RStrip(s)
  {
    var r := RStrip(s);
    assert r[|r|..] == [];
    RStripUnique(r, r);
  }

  /** A string is stripped to nothing exactly when it is all whitespace. */
  lemma RStripEmptyIff(s: string)
    ensures RStrip(s) == [] <==> AllSpace(s)
  {
    if RStrip(s) == [] {
      assert s[0..] == s;
    }
  }

  /** Appending whitespace to a string that does not end in whitespace is undone by rstrip. */
  lemma RStripAppendSpace(x: string, tail: string)
    requires NoTrailingSpace(x) && AllSpace(tail)
    ensures RStrip(x + tail) == x
  {
    assert (x + tail)[|x|..] == tail;
    RStripUnique(x + tail, x);
  }

  /** Whitespace appended to any string is stripped along with its own. */
  lemma {:induction false} RStripSpaceTail(x: string, tail: string)
    requires AllSpace(tail)
    ensures RStrip(x + tail) == RStrip(x)
    decreases |tail|
  {
    if tail == [] {
      assert x + tail == x;
    } else {
      var front := tail[..|tail| - 1];
      assert AllSpace(front) by {
        forall i | 0 <= i < |front| ensures IsSpace(front[i]) {
          assert front[i] == tail[i];
        }
      }
      RStripSpaceTail(x, front);
      var s := x + tail;
      assert s[|s| - 1] == tail[|tail| - 1] && IsSpace(s[|s| - 1]);
      assert s[..|s| - 1] == x + front;
    }
  }

  /** A string with no trailing whitespace keeps its prefix when stripped as
      part of a longer string. */
  lemma RStripPrepend(x: string, y: string)
    requires RStrip(y) != []
    ensures RStrip(x + y) == x + RStrip(y)
  {
    var r := RStrip(y);
    assert (x + r)[|x + r| - 1] == r[|r| - 1];
    assert (x + y)[|x + r|..] == y[|r|..];
    assert x + r <= x + y;
    RStripUnique(x + y, x + r);
  }

  /** Index of the first line boundary in `s`, or |s| when there is none. */
  function FirstBreak(s: string): (k: nat)
    ensures k <= |s|
    ensures forall i :: 0 <= i < k ==> !IsLineBreak(s[i])
    ensures k < |s| ==> IsLineBreak(s[k])
  {
    if s == [] || IsLineBreak(s[0]) then 0 else 1 + FirstBreak(s[1..])
  }

  /** Number of characters the boundary at `k` takes: two for \r\n, else one. */
  function BreakWidth(s: string, k: nat): (w: nat)
    requires k < |s|
    ensures 1 <= w && k + w <= |s|
  {
    if s[k] == '\r' && k + 1 < |s| && s[k + 1] == '\n' then 2 else 1
  }

  /** `b` is one whole line boundary when it is followed by `next`: the pair
      \r\n, or a single boundary character other than a '\r' that `next`
      continues with '\n'. */
  predicate IsBoundary(b: string, next: string) {
    || b == "\r\n"
    || (|b| == 1 && IsLineBreak(b[0]) && !(b[0] == '\r' && next != [] && next[0] == '\n'))
  }

  /** `s.splitlines()`: the pieces between line boundaries, with no boundary
      kept and no empty piece after a final boundary. */
  function SplitLines(s: string): (lines: seq<string>)
    ensures forall j :: 0 <= j < |lines| ==> NoLineBreak(lines[j])
    ensures lines == [] <==> s == []
    decreases |s|
  {
    if s == [] then []
    else
      var k := FirstBreak(s);
      if k == |s| then [s]
      else [s[..k]] + SplitLines(s[k + BreakWidth(s, k)..])
  }

  /** `"\n".join(lines)` */
  function JoinLines(lines: seq<string>): string {
    if lines == [] then ""
    else if |lines| == 1 then lines[0]
    else lines[0] + "\n" + JoinLines(lines[1..])
  }

  lemma FirstBreakOfJoin(l: string, rest: string)
    requires NoLineBreak(l)
    ensures FirstBreak(l + "\n" + rest) == |l|
    ensures BreakWidth(l + "\n" + rest, |l|) == 1
  {
    var s := l + "\n" + rest;
    assert s[|l|] == '\n';
    assert forall i :: 0 <= i < |l| ==> s[i] == l[i];
  }

  /** splitlines cuts at the first whole boundary and carries on after it. */
  lemma SplitLinesAtBreak(l: string, b: string, rest: string)
    requires NoLineBreak(l) && IsBoundary(b, rest)
    ensures SplitLines(l + b + rest) == [l] + SplitLines(rest)
  {
    var s := l + b + rest;
    assert forall i :: 0 <= i < |l| ==> s[i] == l[i];
    assert s[|l|] == b[0];
    assert FirstBreak(s) == |l|;
    if b == "\r\n" {
      assert s[|l| + 1] == '\n';
    } else if |l| + 1 < |s| {
      assert s[|l| + 1] == rest[0];
    }
    assert BreakWidth(s, |l|) == |b|;
    assert s[..|l|] == l;
    assert s[|l| + |b|..] == rest;
  }

  /** A non-empty piece without boundaries is one line. */
  lemma SplitLinesOne(l: string)
    requires l != [] && NoLineBreak(l)
    ensures SplitLines(l) == [l]
  {
    FirstBreakNone(l);
  }

  /** "\n\r" is two boundaries, with an empty line between them. */
  lemma SplitLinesNewlineCr(a: string, b: string)
    requires NoLineBreak(a) && NoLineBreak(b) && b != []
    ensures SplitLines(a + "\n\r" + b) == [a, "", b]
  {
    assert !IsLineBreak(b[0]);
    SplitLinesOne(b);
    assert "" + "\r" + b == "\r" + b;
    SplitLinesAtBreak("", "\r", b);
    assert a + "\n" + ("\r" + b) == a + "\n\r" + b;
    SplitLinesAtBreak(a, "\n", "\r" + b);
  }

  lemma FirstBreakNone(s: string)
    requires NoLineBreak(s)
    ensures FirstBreak(s) == |s|
  {
  }

  /** splitlines undoes "\n".join when no line holds a boundary and the
      last line is not empty (an empty last line would read as a final
      boundary and disappear). */
  lemma {:induction false} SplitJoin(lines: seq<string>)
    requires lines != [] && lines[|lines| - 1] != []
    requires forall j :: 0 <= j < |lines| ==> NoLineBreak(lines[j])
    ensures SplitLines(JoinLines(lines)) == lines
    decreases |lines|
  {
    if |lines| == 1 {
      FirstBreakNone(lines[0]);
    } else {
      var rest := JoinLines(lines[1..]);
      var s := lines[0] + "\n" + rest;
      FirstBreakOfJoin(lines[0], rest);
      assert s[|lines[0]| + 1..] == rest;
      assert s[..|lines[0]|] == lines[0];
      SplitJoin(lines[1..]);
      assert [lines[0]] + lines[1..] == lines;
    }
  }

  /** "\n".join ends the way its last line ends. */
  lemma {:induction false} JoinLinesNoTrailingSpace(lines: seq<string>)
    requires lines != [] && lines[|lines| - 1] != [] && NoTrailingSpace(lines[|lines| - 1])
    ensures JoinLines(lines) != [] && NoTrailingSpace(JoinLines(lines))
    decreases |lines|
  {
    if |lines| > 1 {
      JoinLinesNoTrailingSpace(lines[1..]);
    }
  }
}
