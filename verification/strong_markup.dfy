/**
  The bold markup of renderAiSummary: the global lazy replacement of
  `**text**` by `<strong>text</strong>`, where the text is one or more
  characters that are not line terminators. Its partner is `Unbold`, which
  turns both tags back into `**`.
 */
module StrongMarkup {
  import opened Options
  import opened TextLines
  import opened HtmlEscape

  const OpenTag := "<strong>"
  const CloseTag := "</strong>"

  /**
    `s` starts with `**` and a closing `**` begins at position `k`: `s[2..k]` is
    non-empty and free of line terminators.
   */
  predicate ClosesAt(s: string, k: nat)
  {
    3 <= k && k + 2 <= |s| && s[k] == '*' && s[k + 1] == '*'
    && forall m | 2 <= m < k :: !IsLineTerminator(s[m])
  }

  /** The lazy search for the closing `**`, starting at position `j`. */
  function CloseFrom(s: string, j: nat): (r: Option<nat>)
    requires 3 <= j <= |s|
    requires forall m | 2 <= m < j - 1 :: !IsLineTerminator(s[m])
    ensures r.Some? ==> j <= r.value && ClosesAt(s, r.value)
    ensures r.Some? ==> forall k | j <= k < r.value :: !ClosesAt(s, k)
    ensures r.None? ==> forall k | j <= k :: !ClosesAt(s, k)
    decreases |s| - j
  {
    if IsLineTerminator(s[j - 1]) then None
    else if j + 2 <= |s| && s[j] == '*' && s[j + 1] == '*' then Some(j)
    else if j + 2 < |s| then CloseFrom(s, j + 1)
    else None
  }

  /** `s` starts with a complete `**text**` match. */
  predicate StartsBold(s: string)
  {
    |s| >= 3 && s[0] == '*' && s[1] == '*' && CloseFrom(s, 3).Some?
  }

  // The global replacement `s.replace(/\*\*(.+?)\*\*/g, '<strong>$1</strong>')`:
  // scanning left to right, each shortest `**text**` becomes `<strong>text</strong>`.
  function Bold(s: string): string
    decreases |s|
  {
    if s == [] then []
    else if StartsBold(s) then
      var j := CloseFrom(s, 3).value;
      OpenTag + s[2..j] + CloseTag + Bold(s[j + 2..])
    else [s[0]] + Bold(s[1..])
  }

  /** Turns every `<strong>` and `</strong>` back into `**`. */
  function Unbold(r: string): string
    decreases |r|
  {
    if r == [] then []
    else if OccursAt(r, 0, OpenTag) then "**" + Unbold(r[|OpenTag|..])
    else if OccursAt(r, 0, CloseTag) then "**" + Unbold(r[|CloseTag|..])
    else [r[0]] + Unbold(r[1..])
  }

  predicate NoLt(s: string)
  {
    forall i | 0 <= i < |s| :: s[i] != '<'
  }

  predicate NoAngles(s: string)
  {
    forall i | 0 <= i < |s| :: s[i] != '<' && s[i] != '>'
  }

  lemma {:induction false} UnboldPlain(x: string, y: string)
    requires NoLt(x)
    ensures Unbold(x + y) == x + Unbold(y)
  {
    if x != [] {
      var r := x + y;
      assert r[0] == x[0];
      assert !OccursAt(r, 0, OpenTag);
      assert !OccursAt(r, 0, CloseTag);
      assert r[1..] == x[1..] + y;
      UnboldPlain(x[1..], y);
      calc {
        Unbold(r);
        [x[0]] + Unbold(x[1..] + y);
        [x[0]] + (x[1..] + Unbold(y));
        { assert x == [x[0]] + x[1..]; }
        x + Unbold(y);
      }
    } else {
      assert x + y == y;
    }
  }

  lemma UnboldCloseTag(t: string)
    ensures Unbold(CloseTag + t) == "**" + Unbold(t)
  {
    var r := CloseTag + t;
    assert r[1] == '/';
    assert !OccursAt(r, 0, OpenTag);
    assert OccursAt(r, 0, CloseTag) by { assert r[..|CloseTag|] == CloseTag; }
    assert r[|CloseTag|..] == t;
  }

  lemma UnboldOpenTag(t: string)
    ensures Unbold(OpenTag + t) == "**" + Unbold(t)
  {
    var r := OpenTag + t;
    assert OccursAt(r, 0, OpenTag) by { assert r[..|OpenTag|] == OpenTag; }
    assert r[|OpenTag|..] == t;
  }

  lemma UnboldStrong(inner: string, rest: string)
    requires NoLt(inner)
    ensures Unbold(OpenTag + inner + CloseTag + rest) == "**" + inner + "**" + Unbold(rest)
  {
    assert OpenTag + inner + CloseTag + rest == OpenTag + (inner + (CloseTag + rest));
    UnboldOpenTag(inner + (CloseTag + rest));
    UnboldPlain(inner, CloseTag + rest);
    UnboldCloseTag(rest);
  }

  /** A match splits the text into the opening stars, the bold text, the closing stars and the rest. */
  lemma MatchSplit(s: string)
    requires StartsBold(s)
    ensures var j := CloseFrom(s, 3).value;
      s == "**" + s[2..j] + "**" + s[j + 2..]
  {
    var j := CloseFrom(s, 3).value;
    assert s[..2] == "**" && s[j..j + 2] == "**";
    assert s == s[..2] + s[2..j] + s[j..j + 2] + s[j + 2..];
  }

  lemma UnboldBoldMatch(s: string)
    requires NoLt(s) && StartsBold(s)
    requires Unbold(Bold(s[CloseFrom(s, 3).value + 2..])) == s[CloseFrom(s, 3).value + 2..]
    ensures Unbold(Bold(s)) == s
  {
    var j := CloseFrom(s, 3).value;
    var inner, tail := s[2..j], s[j + 2..];
    assert NoLt(inner) by {
      forall i | 0 <= i < |inner| ensures inner[i] != '<' { assert inner[i] == s[i + 2]; }
    }
    MatchSplit(s);
    calc {
      Unbold(Bold(s));
      Unbold(OpenTag + inner + CloseTag + Bold(tail));
      { UnboldStrong(inner, Bold(tail)); }
      "**" + inner + "**" + Unbold(Bold(tail));
      "**" + inner + "**" + tail;
      s;
    }
  }

  lemma UnboldBoldSkip(s: string)
    requires NoLt(s) && s != [] && !StartsBold(s)
    requires Unbold(Bold(s[1..])) == s[1..]
    ensures Unbold(Bold(s)) == s
  {
    assert Bold(s) == [s[0]] + Bold(s[1..]);
    UnboldPlain([s[0]], Bold(s[1..]));
    assert s == [s[0]] + s[1..];
  }

  /** Turning the tags back into `**` restores the input, so no text is lost or reordered. */
  lemma {:induction false} UnboldBold(s: string)
    requires NoLt(s)
    ensures Unbold(Bold(s)) == s
    decreases |s|
  {
    if s != [] {
      if StartsBold(s) {
        UnboldBold(s[CloseFrom(s, 3).value + 2..]);
        UnboldBoldMatch(s);
      } else {
        UnboldBold(s[1..]);
        UnboldBoldSkip(s);
      }
    }
  }

  /** `e` ends just before position `k` of `r`. */
  predicate EndsAt(r: string, k: nat, e: string)
  {
    |e| <= k <= |r| && r[k - |e|..k] == e
  }

  /** If position `i` of `r` holds `<`, a strong tag starts there. */
  predicate LtOpensAt(r: string, i: nat)
    requires i < |r|
  {
    r[i] == '<' ==> OccursAt(r, i, OpenTag) || OccursAt(r, i, CloseTag)
  }

  /** If position `i` of `r` holds `>`, a strong tag ends there. */
  predicate GtClosesAt(r: string, i: nat)
    requires i < |r|
  {
    r[i] == '>' ==> EndsAt(r, i + 1, OpenTag) || EndsAt(r, i + 1, CloseTag)
  }

  /** Every `<` of `r` opens a strong tag. */
  predicate LtOpensTag(r: string)
  {
    forall i: nat | i < |r| :: LtOpensAt(r, i)
  }

  /** Every `>` of `r` closes a strong tag. */
  predicate GtClosesTag(r: string)
  {
    forall i: nat | i < |r| :: GtClosesAt(r, i)
  }

  /** The only markup in `r` is `<strong>` and `</strong>`. */
  predicate OnlyStrongTags(r: string)
  {
    LtOpensTag(r) && GtClosesTag(r)
  }

  lemma EndsAtShift(a: string, b: string, k: nat, e: string)
    requires EndsAt(b, k, e)
    ensures EndsAt(a + b, |a| + k, e)
  {
    assert (a + b)[|a| + k - |e|..|a| + k] == b[k - |e|..k];
  }

  lemma EndsAtExtend(a: string, b: string, k: nat, e: string)
    requires EndsAt(a, k, e)
    ensures EndsAt(a + b, k, e)
  {
    assert (a + b)[k - |e|..k] == a[k - |e|..k];
  }

  /** A position of the left part keeps its tag after the concatenation. */
  lemma TagInLeft(a: string, b: string, i: nat)
    requires i < |a| && LtOpensAt(a, i) && GtClosesAt(a, i)
    ensures LtOpensAt(a + b, i) && GtClosesAt(a + b, i)
  {
    assert (a + b)[i] == a[i];
    if a[i] == '<' {
      if OccursAt(a, i, OpenTag) { OccursAtExtend(a, b, i, OpenTag); } else { OccursAtExtend(a, b, i, CloseTag); }
    } else if a[i] == '>' {
      if EndsAt(a, i + 1, OpenTag) { EndsAtExtend(a, b, i + 1, OpenTag); } else { EndsAtExtend(a, b, i + 1, CloseTag); }
    }
  }

  /** A position of the right part keeps its tag after the concatenation. */
  lemma TagInRight(a: string, b: string, j: nat)
    requires j < |b| && LtOpensAt(b, j) && GtClosesAt(b, j)
    ensures LtOpensAt(a + b, |a| + j) && GtClosesAt(a + b, |a| + j)
  {
    assert (a + b)[|a| + j] == b[j];
    if b[j] == '<' {
      if OccursAt(b, j, OpenTag) { OccursAtShift(a, b, j, OpenTag); } else { OccursAtShift(a, b, j, CloseTag); }
    } else if b[j] == '>' {
      if EndsAt(b, j + 1, OpenTag) { EndsAtShift(a, b, j + 1, OpenTag); } else { EndsAtShift(a, b, j + 1, CloseTag); }
    }
  }

  lemma OnlyStrongTagsConcat(a: string, b: string)
    requires OnlyStrongTags(a) && OnlyStrongTags(b)
    ensures OnlyStrongTags(a + b)
  {
    var r := a + b;
    forall i: nat | i < |r|
      ensures LtOpensAt(r, i) && GtClosesAt(r, i)
    {
      if i < |a| {
        TagInLeft(a, b, i);
      } else {
        TagInRight(a, b, i - |a|);
      }
    }
  }

  lemma OpenTagIsStrongTag()
    ensures OnlyStrongTags(OpenTag)
  {
    var o := OpenTag;
    assert o == ['<', 's', 't', 'r', 'o', 'n', 'g', '>'];
    assert o[0..8] == o;
    forall i: nat | i < |o| ensures LtOpensAt(o, i) && GtClosesAt(o, i) {
      if i == 0 {
        assert OccursAt(o, 0, OpenTag);
      } else if i == 7 {
        assert EndsAt(o, 8, OpenTag);
      }
    }
  }

  lemma CloseTagIsStrongTag()
    ensures OnlyStrongTags(CloseTag)
  {
    var c := CloseTag;
    assert c == ['<', '/', 's', 't', 'r', 'o', 'n', 'g', '>'];
    assert c[0..9] == c;
    forall i: nat | i < |c| ensures LtOpensAt(c, i) && GtClosesAt(c, i) {
      if i == 0 {
        assert OccursAt(c, 0, CloseTag);
      } else if i == 8 {
        assert EndsAt(c, 9, CloseTag);
      }
    }
  }

  /** Text without angle brackets trivially holds no markup. */
  lemma NoAnglesOnlyStrongTags(t: string)
    requires NoAngles(t)
    ensures OnlyStrongTags(t)
  {
    forall i: nat | i < |t| ensures LtOpensAt(t, i) && GtClosesAt(t, i) {
      assert t[i] != '<' && t[i] != '>';
    }
  }

  /** The markup of a matched `**...**` pair followed by already safe output. */
  lemma StrongPairTags(inner: string, rest: string)
    requires NoAngles(inner) && OnlyStrongTags(rest)
    ensures OnlyStrongTags(OpenTag + inner + CloseTag + rest)
  {
    OpenTagIsStrongTag();
    CloseTagIsStrongTag();
    NoAnglesOnlyStrongTags(inner);
    OnlyStrongTagsConcat(OpenTag, inner);
    OnlyStrongTagsConcat(OpenTag + inner, CloseTag);
    OnlyStrongTagsConcat(OpenTag + inner + CloseTag, rest);
  }

  /** A slice of text without angle brackets has none either. */
  lemma NoAnglesSlice(s: string, lo: nat, hi: nat)
    requires NoAngles(s) && lo <= hi <= |s|
    ensures NoAngles(s[lo..hi])
  {
    assert forall i | 0 <= i < hi - lo :: s[lo..hi][i] == s[lo + i];
  }

  /** A leading `**text**` match keeps the output safe when the rest's output is. */
  lemma BoldMatchTags(s: string)
    requires NoAngles(s) && StartsBold(s)
    requires OnlyStrongTags(Bold(s[CloseFrom(s, 3).value + 2..]))
    ensures OnlyStrongTags(Bold(s))
  {
    var j := CloseFrom(s, 3).value;
    NoAnglesSlice(s, 2, j);
    StrongPairTags(s[2..j], Bold(s[j + 2..]));
  }

  /** A character copied unchanged keeps the output safe when the rest's output is. */
  lemma BoldSkipTags(s: string)
    requires NoAngles(s) && s != [] && !StartsBold(s)
    requires OnlyStrongTags(Bold(s[1..]))
    ensures OnlyStrongTags(Bold(s))
  {
    NoAnglesOnlyStrongTags([s[0]]);
    OnlyStrongTagsConcat([s[0]], Bold(s[1..]));
  }

  /** On text without angle brackets, the only markup Bold produces is `<strong>` and `</strong>`. */
  lemma {:induction false} BoldOnlyStrongTags(s: string)
    requires NoAngles(s)
    ensures OnlyStrongTags(Bold(s))
    decreases |s|
  {
    if s != [] {
      if StartsBold(s) {
        var j := CloseFrom(s, 3).value;
        NoAnglesSlice(s, j + 2, |s|);
        assert s[j + 2..|s|] == s[j + 2..];
        BoldOnlyStrongTags(s[j + 2..]);
        BoldMatchTags(s);
      } else {
        NoAnglesSlice(s, 1, |s|);
        assert s[1..|s|] == s[1..];
        BoldOnlyStrongTags(s[1..]);
        BoldSkipTags(s);
      }
    }
  }

  /**
    A `**text**` pair whose text is non-empty, holds no `*` and no line terminator
    becomes `<strong>text</strong>`, and the replacement continues after it.
   */
  lemma BoldStrongPair(x: string, y: string)
    requires x != []
    requires forall i | 0 <= i < |x| :: x[i] != '*' && !IsLineTerminator(x[i])
    ensures Bold("**" + x + "**" + y) == OpenTag + x + CloseTag + Bold(y)
  {
    var s := "**" + x + "**" + y;
    var j := |x| + 2;
    assert forall m | 2 <= m < j :: s[m] == x[m - 2];
    assert s[j] == '*' && s[j + 1] == '*';
    assert ClosesAt(s, j);
    var r := CloseFrom(s, 3);
    assert r.Some?;
    assert r.value == j;
    assert s[2..j] == x;
    assert s[j + 2..] == y;
  }

  /** Without a `**` pair Bold changes nothing. */
  lemma {:induction false} BoldWithoutStars(s: string)
    requires forall i | 0 <= i < |s| :: s[i] != '*'
    ensures Bold(s) == s
    decreases |s|
  {
    if s != [] {
      BoldWithoutStars(s[1..]);
      assert s == [s[0]] + s[1..];
    }
  }

  /** A prefix without `*` passes through Bold unchanged. */
  lemma {:induction false} BoldPrefix(p: string, y: string)
    requires forall i | 0 <= i < |p| :: p[i] != '*'
    ensures Bold(p + y) == p + Bold(y)
  {
    if p != [] {
      assert (p + y)[0] == p[0];
      assert !StartsBold(p + y);
      assert Bold(p + y) == [p[0]] + Bold((p + y)[1..]);
      assert (p + y)[1..] == p[1..] + y;
      BoldPrefix(p[1..], y);
      assert p == [p[0]] + p[1..];
    } else {
      assert p + y == y;
    }
  }

  /** The first character of Bold's output is the input's first character or the `<` of a tag. */
  lemma BoldFirst(s: string)
    requires s != []
    ensures Bold(s) != [] && (Bold(s)[0] == s[0] || Bold(s)[0] == '<')
  {
  }
}
