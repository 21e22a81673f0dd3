/**
  escapeHtml of components/RiskAssessment.tsx: five global `replace` passes, for
  `&`, `<`, `>`, `"` and `'`, in that order. Its partners are a one-pass,
  character-by-character reference and the decoder `Unescape`.
 */
module HtmlEscape {

  /** `s.replace(/c/g, rep)` for a single character `c`. */
  function ReplaceChar(s: string, c: char, rep: string): string
  {
    if s == [] then [] else (if s[0] == c then rep else [s[0]]) + ReplaceChar(s[1..], c, rep)
  }

  /** The five passes, in source order; `&` goes first. */
  function EscapeHtml(s: string): string
  {
    var s1 := ReplaceChar(s, '&', "&amp;");
    var s2 := ReplaceChar(s1, '<', "&lt;");
    var s3 := ReplaceChar(s2, '>', "&gt;");
    var s4 := ReplaceChar(s3, '"', "&quot;");
    ReplaceChar(s4, '\'', "&#039;")
  }

  /** The five characters escapeHtml rewrites. */
  predicate IsSpecial(c: char)
  {
    c == '&' || c == '<' || c == '>' || c == '"' || c == '\''
  }

  /** Reference: the entity of one character. */
  function EscapeChar(c: char): string
  {
    match c
    case '&' => "&amp;"
    case '<' => "&lt;"
    case '>' => "&gt;"
    case '"' => "&quot;"
    case '\'' => "&#039;"
    case _ => [c]
  }

  /** Reference: every character replaced by its entity in a single pass. */
  function EscapeEach(s: string): string
  {
    if s == [] then [] else EscapeChar(s[0]) + EscapeEach(s[1..])
  }

  /** `e` occurs in `r` at position `i`. */
  predicate OccursAt(r: string, i: nat, e: string)
  {
    i + |e| <= |r| && r[i..i + |e|] == e
  }

  /** One of the five entities starts at position `i` of `r`. */
  predicate EntityAt(r: string, i: nat)
  {
    OccursAt(r, i, "&amp;") || OccursAt(r, i, "&lt;") || OccursAt(r, i, "&gt;")
    || OccursAt(r, i, "&quot;") || OccursAt(r, i, "&#039;")
  }

  /** The decoder of the five entities; any other character stands for itself. */
  function Unescape(r: string): string
    decreases |r|
  {
    if r == [] then []
    else if OccursAt(r, 0, "&amp;") then "&" + Unescape(r[5..])
    else if OccursAt(r, 0, "&lt;") then "<" + Unescape(r[4..])
    else if OccursAt(r, 0, "&gt;") then ">" + Unescape(r[4..])
    else if OccursAt(r, 0, "&quot;") then "\"" + Unescape(r[6..])
    else if OccursAt(r, 0, "&#039;") then "'" + Unescape(r[6..])
    else [r[0]] + Unescape(r[1..])
  }

  lemma {:induction false} ReplaceCharConcat(a: string, b: string, c: char, rep: string)
    ensures ReplaceChar(a + b, c, rep) == ReplaceChar(a, c, rep) + ReplaceChar(b, c, rep)
  {
    if a == [] {
      assert a + b == b;
    } else {
      assert (a + b)[1..] == a[1..] + b;
      ReplaceCharConcat(a[1..], b, c, rep);
    }
  }

  lemma {:induction false} ReplaceCharAbsent(s: string, c: char, rep: string)
    requires c !in s
    ensures ReplaceChar(s, c, rep) == s
  {
    if s != [] {
      ReplaceCharAbsent(s[1..], c, rep);
      assert [s[0]] + s[1..] == s;
    }
  }

  lemma EscapeHtmlConcat(a: string, b: string)
    ensures EscapeHtml(a + b) == EscapeHtml(a) + EscapeHtml(b)
  {
    var a1, b1 := ReplaceChar(a, '&', "&amp;"), ReplaceChar(b, '&', "&amp;");
    ReplaceCharConcat(a, b, '&', "&amp;");
    var a2, b2 := ReplaceChar(a1, '<', "&lt;"), ReplaceChar(b1, '<', "&lt;");
    ReplaceCharConcat(a1, b1, '<', "&lt;");
    var a3, b3 := ReplaceChar(a2, '>', "&gt;"), ReplaceChar(b2, '>', "&gt;");
    ReplaceCharConcat(a2, b2, '>', "&gt;");
    var a4, b4 := ReplaceChar(a3, '"', "&quot;"), ReplaceChar(b3, '"', "&quot;");
    ReplaceCharConcat(a3, b3, '"', "&quot;");
    ReplaceCharConcat(a4, b4, '\'', "&#039;");
  }

  lemma ReplaceCharSingle(c: char, x: char, rep: string)
    ensures ReplaceChar([c], x, rep) == if c == x then rep else [c]
  {
    assert [c][1..] == [];
  }

  lemma PassesKeep(c: char, s: string)
    requires s == [c] && !IsSpecial(c)
    ensures EscapeHtml(s) == s
  {
    ReplaceCharSingle(c, '&', "&amp;");
    ReplaceCharSingle(c, '<', "&lt;");
    ReplaceCharSingle(c, '>', "&gt;");
    ReplaceCharSingle(c, '"', "&quot;");
    ReplaceCharSingle(c, '\'', "&#039;");
  }

  lemma EscapeHtmlAmp()
    ensures EscapeHtml("&") == "&amp;"
  {
    var e := "&amp;";
    assert '<' !in e && '>' !in e && '"' !in e && '\'' !in e;
    ReplaceCharSingle('&', '&', e);
    ReplaceCharAbsent(e, '<', "&lt;");
    ReplaceCharAbsent(e, '>', "&gt;");
    ReplaceCharAbsent(e, '"', "&quot;");
    ReplaceCharAbsent(e, '\'', "&#039;");
  }

  lemma EscapeHtmlLt()
    ensures EscapeHtml("<") == "&lt;"
  {
    var e := "&lt;";
    assert '>' !in e && '"' !in e && '\'' !in e;
    ReplaceCharSingle('<', '&', "&amp;");
    ReplaceCharSingle('<', '<', e);
    ReplaceCharAbsent(e, '>', "&gt;");
    ReplaceCharAbsent(e, '"', "&quot;");
    ReplaceCharAbsent(e, '\'', "&#039;");
  }

  lemma EscapeHtmlGt()
    ensures EscapeHtml(">") == "&gt;"
  {
    ReplaceCharSingle('>', '&', "&amp;");
    ReplaceCharSingle('>', '<', "&lt;");
    var e := "&gt;";
    assert '"' !in e && '\'' !in e;
    ReplaceCharSingle('>', '>', e);
    ReplaceCharAbsent(e, '"', "&quot;");
    ReplaceCharAbsent(e, '\'', "&#039;");
  }

  lemma EscapeHtmlQuot()
    ensures EscapeHtml("\"") == "&quot;"
  {
    ReplaceCharSingle('"', '&', "&amp;");
    ReplaceCharSingle('"', '<', "&lt;");
    ReplaceCharSingle('"', '>', "&gt;");
    var e := "&quot;";
    assert '\'' !in e;
    ReplaceCharSingle('"', '"', e);
    ReplaceCharAbsent(e, '\'', "&#039;");
  }

  lemma EscapeHtmlApos()
    ensures EscapeHtml("'") == "&#039;"
  {
    ReplaceCharSingle('\'', '&', "&amp;");
    ReplaceCharSingle('\'', '<', "&lt;");
    ReplaceCharSingle('\'', '>', "&gt;");
    ReplaceCharSingle('\'', '"', "&quot;");
    ReplaceCharSingle('\'', '\'', "&#039;");
  }

  /** Once a pass has produced an entity, the passes after it find nothing to replace. */
  lemma EscapeHtmlChar(c: char)
    ensures EscapeHtml([c]) == EscapeChar(c)
  {
    match c
    case '&' => EscapeHtmlAmp();
    case '<' => EscapeHtmlLt();
    case '>' => EscapeHtmlGt();
    case '"' => EscapeHtmlQuot();
    case '\'' => EscapeHtmlApos();
    case _ => PassesKeep(c, [c]);
  }

  /**
    The five sequential passes equal the one-pass character-wise escape: because
    `&` is replaced first, no entity inserted by a later pass is escaped again.
   */
  lemma {:induction false} EscapeHtmlIsCharwise(s: string)
    ensures EscapeHtml(s) == EscapeEach(s)
  {
    if s != [] {
      assert s == [s[0]] + s[1..];
      EscapeHtmlConcat([s[0]], s[1..]);
      EscapeHtmlChar(s[0]);
      EscapeHtmlIsCharwise(s[1..]);
    }
  }

  lemma OccursAtShift(a: string, b: string, i: nat, e: string)
    requires OccursAt(b, i, e)
    ensures OccursAt(a + b, |a| + i, e)
  {
    assert (a + b)[|a| + i..|a| + i + |e|] == b[i..i + |e|];
  }

  lemma OccursAtExtend(a: string, b: string, i: nat, e: string)
    requires OccursAt(a, i, e)
    ensures OccursAt(a + b, i, e)
  {
    assert (a + b)[i..i + |e|] == a[i..i + |e|];
  }

  /** No `<`, `>`, `"` or `'` occurs in `r`. */
  predicate NoRawSpecials(r: string)
  {
    forall i | 0 <= i < |r| :: r[i] != '<' && r[i] != '>' && r[i] != '"' && r[i] != '\''
  }

  /** Every `&` of `r` starts one of the five entities. */
  predicate AmpersandsStartEntities(r: string)
  {
    forall i | 0 <= i < |r| && r[i] == '&' :: EntityAt(r, i)
  }

  lemma EscapeCharShape(c: char)
    ensures NoRawSpecials(EscapeChar(c))
    ensures forall i | 0 < i < |EscapeChar(c)| :: EscapeChar(c)[i] != '&'
    ensures EscapeChar(c)[0] == '&' ==> EntityAt(EscapeChar(c), 0)
  {
    var e := EscapeChar(c);
    assert OccursAt(e, 0, e);
  }

  lemma {:induction false} EscapeEachSafe(s: string)
    ensures NoRawSpecials(EscapeEach(s))
    ensures AmpersandsStartEntities(EscapeEach(s))
  {
    if s != [] {
      var e, t := EscapeChar(s[0]), EscapeEach(s[1..]);
      EscapeEachSafe(s[1..]);
      EscapeCharShape(s[0]);
      var r := e + t;
      forall i | 0 <= i < |r|
        ensures r[i] != '<' && r[i] != '>' && r[i] != '"' && r[i] != '\''
        ensures r[i] == '&' ==> EntityAt(r, i)
      {
        if i < |e| {
          assert r[i] == e[i];
          if e[i] == '&' {
            assert i == 0;
            if OccursAt(e, 0, "&amp;") { OccursAtExtend(e, t, 0, "&amp;"); }
            else if OccursAt(e, 0, "&lt;") { OccursAtExtend(e, t, 0, "&lt;"); }
            else if OccursAt(e, 0, "&gt;") { OccursAtExtend(e, t, 0, "&gt;"); }
            else if OccursAt(e, 0, "&quot;") { OccursAtExtend(e, t, 0, "&quot;"); }
            else { OccursAtExtend(e, t, 0, "&#039;"); }
          }
        } else {
          var j := i - |e|;
          assert r[i] == t[j];
          if t[j] == '&' {
            assert EntityAt(t, j);
            if OccursAt(t, j, "&amp;") { OccursAtShift(e, t, j, "&amp;"); }
            else if OccursAt(t, j, "&lt;") { OccursAtShift(e, t, j, "&lt;"); }
            else if OccursAt(t, j, "&gt;") { OccursAtShift(e, t, j, "&gt;"); }
            else if OccursAt(t, j, "&quot;") { OccursAtShift(e, t, j, "&quot;"); }
            else { OccursAtShift(e, t, j, "&#039;"); }
          }
        }
      }
    }
  }

  /** A string without any of the five characters is left unchanged. */
  lemma {:induction false} EscapeEachIdentity(s: string)
    requires forall i | 0 <= i < |s| :: !IsSpecial(s[i])
    ensures EscapeEach(s) == s
  {
    if s != [] {
      EscapeEachIdentity(s[1..]);
      assert [s[0]] + s[1..] == s;
    }
  }

  lemma UnescapeEntity(c: char, t: string)
    ensures Unescape(EscapeChar(c) + t) == [c] + Unescape(t)
  {
    var r := EscapeChar(c) + t;
    match c
    case '&' =>
      assert OccursAt(r, 0, "&amp;");
      assert r[5..] == t;
    case '<' =>
      assert !OccursAt(r, 0, "&amp;") by { assert r[1] == 'l'; }
      assert OccursAt(r, 0, "&lt;");
      assert r[4..] == t;
    case '>' =>
      assert !OccursAt(r, 0, "&amp;") by { assert r[1] == 'g'; }
      assert !OccursAt(r, 0, "&lt;") by { assert r[1] == 'g'; }
      assert OccursAt(r, 0, "&gt;");
      assert r[4..] == t;
    case '"' =>
      assert !OccursAt(r, 0, "&amp;") by { assert r[1] == 'q'; }
      assert !OccursAt(r, 0, "&lt;") by { assert r[1] == 'q'; }
      assert !OccursAt(r, 0, "&gt;") by { assert r[1] == 'q'; }
      assert OccursAt(r, 0, "&quot;");
      assert r[6..] == t;
    case '\'' =>
      assert !OccursAt(r, 0, "&amp;") by { assert r[1] == '#'; }
      assert !OccursAt(r, 0, "&lt;") by { assert r[1] == '#'; }
      assert !OccursAt(r, 0, "&gt;") by { assert r[1] == '#'; }
      assert !OccursAt(r, 0, "&quot;") by { assert r[1] == '#'; }
      assert OccursAt(r, 0, "&#039;");
      assert r[6..] == t;
    case _ =>
      assert r[0] == c;
      assert !OccursAt(r, 0, "&amp;") && !OccursAt(r, 0, "&lt;") && !OccursAt(r, 0, "&gt;")
        && !OccursAt(r, 0, "&quot;") && !OccursAt(r, 0, "&#039;");
      assert r[1..] == t;
  }

  /** Decoding undoes the escape. */
  lemma {:induction false} UnescapeEscapeEach(s: string)
    ensures Unescape(EscapeEach(s)) == s
  {
    if s != [] {
      UnescapeEntity(s[0], EscapeEach(s[1..]));
      UnescapeEscapeEach(s[1..]);
      assert [s[0]] + s[1..] == s;
    }
  }

  /**
    What escapeHtml promises: no `<`, `>`, `"` or `'` in the output, every `&` of
    the output starts an entity, strings free of the five characters are returned
    unchanged, and decoding the entities recovers the input (so no entity is
    escaped twice and distinct inputs escape differently).
   */
  lemma EscapeHtmlCorrect(s: string)
    ensures NoRawSpecials(EscapeHtml(s))
    ensures AmpersandsStartEntities(EscapeHtml(s))
    ensures (forall i | 0 <= i < |s| :: !IsSpecial(s[i])) ==> EscapeHtml(s) == s
    ensures Unescape(EscapeHtml(s)) == s
  {
    EscapeHtmlIsCharwise(s);
    EscapeEachSafe(s);
    if forall i | 0 <= i < |s| :: !IsSpecial(s[i]) {
      EscapeEachIdentity(s);
    }
    UnescapeEscapeEach(s);
  }
}
