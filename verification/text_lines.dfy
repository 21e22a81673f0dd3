/**
  The string primitives renderAiSummary relies on: ECMAScript white space (what
  `String.prototype.trim` removes and what the regular-expression class `\s`
  matches), `trim`, `split('\n')`, and the line preparation
  `summary.split('\n').map(line => line.trim()).filter(Boolean)`.
 */
module TextLines {

  /**
    ECMAScript WhiteSpace and LineTerminator: tab, line tabulation, form feed,
    space, no-break space, byte-order mark, the Unicode space separators, line
    feed, carriage return, line separator and paragraph separator.
   */
  predicate IsSpace(c: char)
  {
    || c == '\t' || c == '\n' || c == '\U{000B}' || c == '\U{000C}' || c == '\r' || c == ' '
    || c == '\U{00A0}' || c == '\U{1680}' || ('\U{2000}' <= c <= '\U{200A}')
    || c == '\U{2028}' || c == '\U{2029}' || c == '\U{202F}' || c == '\U{205F}'
    || c == '\U{3000}' || c == '\U{FEFF}'
  }

  /** The characters the regular-expression `.` does not match. */
  predicate IsLineTerminator(c: char)
  {
    c == '\n' || c == '\r' || c == '\U{2028}' || c == '\U{2029}'
  }

  /** Positions `lo` up to `hi` of `s` hold white space. */
  predicate SpaceIn(s: string, lo: nat, hi: nat)
  {
    hi <= |s| && forall i | lo <= i < hi :: IsSpace(s[i])
  }

  predicate AllSpace(s: string)
  {
    SpaceIn(s, 0, |s|)
  }

  /** The length of the longest all-space prefix. */
  function LeadingSpace(s: string): (n: nat)
    ensures SpaceIn(s, 0, n)
    ensures n < |s| ==> !IsSpace(s[n])
  {
    if s == [] || !IsSpace(s[0]) then 0
    else
      var k := LeadingSpace(s[1..]);
      assert forall i | 1 <= i < k + 1 :: s[i] == s[1..][i - 1];
      k + 1
  }

  /** The length of the longest all-space suffix. */
  function TrailingSpace(s: string): (n: nat)
    ensures n <= |s| && SpaceIn(s, |s| - n, |s|)
    ensures n < |s| ==> !IsSpace(s[|s| - n - 1])
  {
    if s == [] || !IsSpace(s[|s| - 1]) then 0
    else
      var p := s[..|s| - 1];
      var k := TrailingSpace(p);
      assert forall i | |p| - k <= i < |p| :: s[i] == p[i];
      assert k + 1 < |s| ==> s[|s| - k - 2] == p[|p| - k - 1];
      k + 1
  }

  /** `r` is `s` without an all-space prefix of length `a` and an all-space suffix. */
  predicate TrimmedFrom(s: string, a: nat, r: string)
  {
    a + |r| <= |s| && r == s[a..a + |r|] && SpaceIn(s, 0, a) && SpaceIn(s, a + |r|, |s|)
  }

  /**
    `s.trim()`: the infix left after removing white space at both ends. It is empty
    exactly when `s` is all white space, and otherwise starts and ends with a
    character that is not white space.
   */
  function Trim(s: string): (r: string)
    ensures exists a :: TrimmedFrom(s, a, r)
    ensures r == [] <==> AllSpace(s)
    ensures r != [] ==> !IsSpace(r[0]) && !IsSpace(r[|r| - 1])
  {
    var a := LeadingSpace(s);
    if a == |s| then
      assert TrimmedFrom(s, a, []);
      []
    else
      var b := TrailingSpace(s);
      assert a < |s| - b;
      var r := s[a..|s| - b];
      assert TrimmedFrom(s, a, r);
      r
  }

  /** `s.split('\n')`: the pieces between line feeds; never empty. */
  function Split(s: string): (ps: seq<string>)
    ensures |ps| >= 1
  {
    if s == [] then [""]
    else
      var rest := Split(s[1..]);
      if s[0] == '\n' then [""] + rest
      else [[s[0]] + rest[0]] + rest[1..]
  }

  /** The inverse of `Split`: `pieces.join('\n')`. */
  function JoinLines(ps: seq<string>): string
    requires |ps| >= 1
  {
    if |ps| == 1 then ps[0] else ps[0] + "\n" + JoinLines(ps[1..])
  }

  predicate NoLineFeed(s: string)
  {
    forall i | 0 <= i < |s| :: s[i] != '\n'
  }

  /** Splitting at line feeds and joining back with line feeds restores the text. */
  lemma {:induction false} SplitJoin(s: string)
    ensures JoinLines(Split(s)) == s
  {
    if s != [] {
      var rest := Split(s[1..]);
      SplitJoin(s[1..]);
      if s[0] == '\n' {
        assert ([""] + rest)[1..] == rest;
        assert s == "" + "\n" + s[1..];
      } else if |rest| == 1 {
        assert s == [s[0]] + s[1..];
      } else {
        var ps := [[s[0]] + rest[0]] + rest[1..];
        assert ps[1..] == rest[1..];
        assert JoinLines(rest) == rest[0] + "\n" + JoinLines(rest[1..]);
        assert s == [s[0]] + s[1..];
      }
    }
  }

  /** No piece of a split holds a line feed. */
  lemma {:induction false} SplitNoLineFeed(s: string)
    ensures forall k | 0 <= k < |Split(s)| :: NoLineFeed(Split(s)[k])
  {
    if s != [] {
      var rest := Split(s[1..]);
      SplitNoLineFeed(s[1..]);
      if s[0] != '\n' {
        var ps := [[s[0]] + rest[0]] + rest[1..];
        forall k | 0 <= k < |ps|
          ensures NoLineFeed(ps[k])
        {
          if k == 0 {
            assert NoLineFeed(rest[0]);
          } else {
            assert ps[k] == rest[k];
          }
        }
      }
    }
  }

  /** `.map(line => line.trim())` */
  function TrimEach(ps: seq<string>): (ts: seq<string>)
    ensures |ts| == |ps|
  {
    if ps == [] then [] else [Trim(ps[0])] + TrimEach(ps[1..])
  }

  /** `.filter(Boolean)`: drops the empty strings. */
  function DropEmpty(ps: seq<string>): seq<string>
  {
    if ps == [] then []
    else (if ps[0] == [] then [] else [ps[0]]) + DropEmpty(ps[1..])
  }

  /** The lines renderAiSummary works on. */
  function Lines(summary: string): seq<string>
  {
    DropEmpty(TrimEach(Split(summary)))
  }

  /** The pieces of `ps` that hold a character other than white space. */
  function CountNonBlank(ps: seq<string>): nat
  {
    if ps == [] then 0 else (if AllSpace(ps[0]) then 0 else 1) + CountNonBlank(ps[1..])
  }

  /** Reference for the filtered lines: the pieces that are not all white space, in order. */
  function NonBlank(ps: seq<string>): seq<string>
  {
    if ps == [] then [] else (if AllSpace(ps[0]) then [] else [ps[0]]) + NonBlank(ps[1..])
  }

  /** A line is non-empty, holds no line feed, and neither starts nor ends with white space. */
  predicate IsTrimmedLine(l: string)
  {
    l != [] && NoLineFeed(l) && !IsSpace(l[0]) && !IsSpace(l[|l| - 1])
  }

  lemma TrimmedPiece(s: string)
    requires NoLineFeed(s)
    ensures Trim(s) != [] ==> IsTrimmedLine(Trim(s))
  {
    var t := Trim(s);
    var a: nat :| TrimmedFrom(s, a, t);
    forall i | 0 <= i < |t| ensures t[i] != '\n' {
      assert t[i] == s[a + i];
    }
  }

  lemma AllTrimmedConcat(a: seq<string>, b: seq<string>)
    requires forall k | 0 <= k < |a| :: IsTrimmedLine(a[k])
    requires forall k | 0 <= k < |b| :: IsTrimmedLine(b[k])
    ensures forall k | 0 <= k < |a + b| :: IsTrimmedLine((a + b)[k])
  {
    forall k | 0 <= k < |a + b|
      ensures IsTrimmedLine((a + b)[k])
    {
      if k >= |a| { assert (a + b)[k] == b[k - |a|]; }
    }
  }

  lemma {:induction false} DropEmptyTrimEachCount(ps: seq<string>)
    ensures |DropEmpty(TrimEach(ps))| == CountNonBlank(ps)
  {
    if ps != [] {
      DropEmptyTrimEachCount(ps[1..]);
      assert TrimEach(ps)[1..] == TrimEach(ps[1..]);
    }
  }

  lemma {:induction false} DropEmptyTrimEachLines(ps: seq<string>)
    requires forall k | 0 <= k < |ps| :: NoLineFeed(ps[k])
    ensures forall k | 0 <= k < |DropEmpty(TrimEach(ps))| :: IsTrimmedLine(DropEmpty(TrimEach(ps))[k])
  {
    if ps != [] {
      DropEmptyTrimEachLines(ps[1..]);
      assert TrimEach(ps)[1..] == TrimEach(ps[1..]);
      var t := Trim(ps[0]);
      var head := if t == [] then [] else [t];
      var rest := DropEmpty(TrimEach(ps[1..]));
      assert DropEmpty(TrimEach(ps)) == head + rest;
      TrimmedPiece(ps[0]);
      AllTrimmedConcat(head, rest);
    }
  }

  lemma TrimEachConcat(a: seq<string>, b: seq<string>)
    ensures TrimEach(a + b) == TrimEach(a) + TrimEach(b)
  {
    if a != [] {
      assert (a + b)[1..] == a[1..] + b;
      TrimEachConcat(a[1..], b);
    } else {
      assert a + b == b;
    }
  }

  /** Trimming every piece and then dropping the empty results trims exactly the non-blank pieces. */
  lemma {:induction false} DropEmptyTrimEachNonBlank(ps: seq<string>)
    ensures DropEmpty(TrimEach(ps)) == TrimEach(NonBlank(ps))
  {
    if ps != [] {
      DropEmptyTrimEachNonBlank(ps[1..]);
      assert TrimEach(ps)[1..] == TrimEach(ps[1..]);
      var head := if AllSpace(ps[0]) then [] else [ps[0]];
      assert NonBlank(ps) == head + NonBlank(ps[1..]);
      TrimEachConcat(head, NonBlank(ps[1..]));
      if !AllSpace(ps[0]) {
        assert TrimEach(head) == [Trim(ps[0])];
      }
    }
  }

  /**
    The prepared lines: the pieces of the text between line feeds that are not all
    white space, in order, each trimmed, so non-empty and without white space at
    either end.
   */
  lemma LinesSpec(summary: string)
    ensures |Lines(summary)| == CountNonBlank(Split(summary))
    ensures forall k | 0 <= k < |Lines(summary)| :: IsTrimmedLine(Lines(summary)[k])
    ensures Lines(summary) == TrimEach(NonBlank(Split(summary)))
  {
    DropEmptyTrimEachNonBlank(Split(summary));
    SplitNoLineFeed(summary);
    DropEmptyTrimEachCount(Split(summary));
    DropEmptyTrimEachLines(Split(summary));
  }
}
