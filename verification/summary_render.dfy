/**
  renderAiSummary of components/RiskAssessment.tsx: the AI summary is split into
  trimmed, non-empty lines; a line starting with digits, a dot and white space
  becomes an item of a numbered list, a line starting with `- ` an item of a
  bullet list, any other line a paragraph. Every line is HTML-escaped and gets
  its `**bold**` markup before the list marker is stripped. Switching list kind
  closes the open list; a paragraph and the end of the text close whichever is
  open.

  The output is modelled as the sequence of pushed fragments (`Piece`); the HTML
  string is their concatenation. It has two partners: `Parse`, a recogniser of
  the well-nested fragment sequences that gives back the blocks, and `Groups`,
  the reference grouping of the blocks into maximal lists, rendered by
  `EmitGroups`.
 */
module SummaryRender {
  import opened Options
  import opened TextLines
  import opened HtmlEscape
  import opened StrongMarkup

  // ---------------------------------------------------------------------------
  // List markers

  /** `\d`: an ASCII digit. */
  predicate IsDigit(c: char)
  {
    '0' <= c <= '9'
  }

  /** The length of the longest all-digit prefix. */
  function DigitRun(s: string): (n: nat)
    ensures n <= |s|
    ensures forall i | 0 <= i < n :: IsDigit(s[i])
    ensures n < |s| ==> !IsDigit(s[n])
  {
    if s == [] || !IsDigit(s[0]) then 0 else 1 + DigitRun(s[1..])
  }

  /** `/^\d+\.\s+/` matches at the start of `s`. */
  predicate IsOrderedMarker(s: string)
  {
    var n := DigitRun(s);
    1 <= n && n + 1 < |s| && s[n] == '.' && IsSpace(s[n + 1])
  }

  /** The length of the greedy match of `/^\d+\.\s+/`. */
  function OrderedMarkerLength(s: string): (m: nat)
    requires IsOrderedMarker(s)
    ensures DigitRun(s) + 2 <= m <= |s|
    ensures SpaceIn(s, DigitRun(s) + 1, m)
    ensures m < |s| ==> !IsSpace(s[m])
  {
    var n := DigitRun(s);
    var k := LeadingSpace(s[n + 1..]);
    assert forall i | n + 1 <= i < n + 1 + k :: s[i] == s[n + 1..][i - n - 1];
    n + 1 + k
  }

  /** `s.replace(/^\d+\.\s+/, '')` */
  function StripOrderedMarker(s: string): string
  {
    if IsOrderedMarker(s) then s[OrderedMarkerLength(s)..] else s
  }

  /** `s.startsWith('- ')` */
  predicate IsBulletMarker(s: string)
  {
    |s| >= 2 && s[0] == '-' && s[1] == ' '
  }

  /** `s.replace(/^- /, '')` */
  function StripBulletMarker(s: string): string
  {
    if IsBulletMarker(s) then s[2..] else s
  }

  // ---------------------------------------------------------------------------
  // Lines

  datatype Block =
    | OrderedItem(text: string)
    | BulletItem(text: string)
    | Paragraph(text: string)

  /** What one line becomes: the escaped and bolded line, classified on the raw line. */
  function LineBlock(line: string): Block
  {
    var bolded := Bold(EscapeHtml(line));
    if IsOrderedMarker(line) then OrderedItem(StripOrderedMarker(bolded))
    else if IsBulletMarker(line) then BulletItem(StripBulletMarker(bolded))
    else Paragraph(bolded)
  }

  function Blocks(lines: seq<string>): (bs: seq<Block>)
    ensures |bs| == |lines|
  {
    if lines == [] then [] else [LineBlock(lines[0])] + Blocks(lines[1..])
  }

  // ---------------------------------------------------------------------------
  // Rendering

  datatype Piece =
    | OpenUl
    | CloseUl
    | OpenOl
    | CloseOl
    | ListItem(text: string)
    | Para(text: string)
  {
    function Html(): string
    {
      match this
      case OpenUl => "<ul class=\"list-disc ml-5 space-y-1\">"
      case CloseUl => "</ul>"
      case OpenOl => "<ol class=\"list-decimal ml-5 space-y-1\">"
      case CloseOl => "</ol>"
      case ListItem(t) => "<li>" + t + "</li>"
      case Para(t) => "<p class=\"font-semibold mb-1\">" + t + "</p>"
    }
  }

  /** The fragments pushed so far and the two flags `inUl` and `inOl`. */
  datatype RenderState = RenderState(html: seq<Piece>, inUl: bool, inOl: bool)

  const Start := RenderState([], false, false)

  /** `closeLists`: closes the open bullet list, then the open numbered list. */
  function CloseLists(st: RenderState): (r: RenderState)
    ensures !r.inUl && !r.inOl
    ensures st.html <= r.html
  {
    var a := if st.inUl then RenderState(st.html + [CloseUl], false, st.inOl) else st;
    if a.inOl then RenderState(a.html + [CloseOl], a.inUl, false) else a
  }

  /** The body of `lines.forEach` once the line is classified. At most one list is open afterwards. */
  function Step(st: RenderState, b: Block): (r: RenderState)
    ensures !(r.inUl && r.inOl)
    ensures st.html <= r.html
  {
    match b
    case OrderedItem(t) =>
      var a := if st.inUl then RenderState(st.html + [CloseUl], false, st.inOl) else st;
      var b := if !a.inOl then RenderState(a.html + [OpenOl], a.inUl, true) else a;
      RenderState(b.html + [ListItem(t)], b.inUl, b.inOl)
    case BulletItem(t) =>
      var a := if st.inOl then RenderState(st.html + [CloseOl], st.inUl, false) else st;
      var b := if !a.inUl then RenderState(a.html + [OpenUl], true, a.inOl) else a;
      RenderState(b.html + [ListItem(t)], b.inUl, b.inOl)
    case Paragraph(t) =>
      var a := CloseLists(st);
      RenderState(a.html + [Para(t)], a.inUl, a.inOl)
  }

  /** `lines.forEach(...)`, each line already classified by LineBlock. */
  function RenderFrom(st: RenderState, bs: seq<Block>): RenderState
    decreases |bs|
  {
    if bs == [] then st else RenderFrom(Step(st, bs[0]), bs[1..])
  }

  /** The fragments renderAiSummary pushes for `summary`. */
  function RenderPieces(summary: string): seq<Piece>
  {
    CloseLists(RenderFrom(Start, Blocks(Lines(summary)))).html
  }

  /** `html.join('')` */
  function Join(ps: seq<Piece>): string
  {
    if ps == [] then [] else ps[0].Html() + Join(ps[1..])
  }

  /** renderAiSummary: the HTML string. */
  function RenderAiSummary(summary: string): string
  {
    Join(RenderPieces(summary))
  }

  // ---------------------------------------------------------------------------
  // The partner: a recogniser of well-nested fragment sequences

  datatype ListMode = NoList | InBullets | InNumbers

  datatype Scanned = Scanned(blocks: seq<Block>, mode: ListMode)

  /** What one fragment means in a given list context; None if it is out of place. */
  function Transition(p: Piece, m: ListMode): Option<Scanned>
  {
    match p
    case OpenUl => if m == NoList then Some(Scanned([], InBullets)) else None
    case OpenOl => if m == NoList then Some(Scanned([], InNumbers)) else None
    case CloseUl => if m == InBullets then Some(Scanned([], NoList)) else None
    case CloseOl => if m == InNumbers then Some(Scanned([], NoList)) else None
    case ListItem(t) =>
      if m == InBullets then Some(Scanned([BulletItem(t)], m))
      else if m == InNumbers then Some(Scanned([OrderedItem(t)], m))
      else None
    case Para(t) => if m == NoList then Some(Scanned([Paragraph(t)], m)) else None
  }

  function Prepend(bs: seq<Block>, r: Option<Scanned>): Option<Scanned>
  {
    match r
    case None => None
    case Some(x) => Some(Scanned(bs + x.blocks, x.mode))
  }

  function Scan(ps: seq<Piece>, m: ListMode): Option<Scanned>
  {
    if ps == [] then Some(Scanned([], m))
    else match Transition(ps[0], m)
      case None => None
      case Some(x) => Prepend(x.blocks, Scan(ps[1..], x.mode))
  }

  /**
    The blocks a fragment sequence stands for, if every list is opened before its
    items, lists are never nested or interleaved, paragraphs stand outside lists
    and every list is closed at the end.
   */
  function Parse(ps: seq<Piece>): Option<seq<Block>>
  {
    match Scan(ps, NoList)
    case Some(x) => if x.mode == NoList then Some(x.blocks) else None
    case None => None
  }

  function Then(r: Option<Scanned>, b: seq<Piece>): Option<Scanned>
  {
    match r
    case None => None
    case Some(x) => Prepend(x.blocks, Scan(b, x.mode))
  }

  lemma PrependThen(bs: seq<Block>, r: Option<Scanned>, b: seq<Piece>)
    ensures Prepend(bs, Then(r, b)) == Then(Prepend(bs, r), b)
  {
    match r
    case None =>
    case Some(x) =>
      match Scan(b, x.mode)
      case None =>
      case Some(y) => assert bs + (x.blocks + y.blocks) == (bs + x.blocks) + y.blocks;
  }

  lemma {:induction false} ScanConcat(a: seq<Piece>, b: seq<Piece>, m: ListMode)
    ensures Scan(a + b, m) == Then(Scan(a, m), b)
  {
    if a == [] {
      assert a + b == b;
      match Scan(b, m)
      case None =>
      case Some(y) => assert [] + y.blocks == y.blocks;
    } else {
      assert (a + b)[0] == a[0];
      assert (a + b)[1..] == a[1..] + b;
      match Transition(a[0], m)
      case None =>
      case Some(x) =>
        ScanConcat(a[1..], b, x.mode);
        PrependThen(x.blocks, Scan(a[1..], x.mode), b);
    }
  }

  function ModeOf(st: RenderState): ListMode
  {
    if st.inUl then InBullets else if st.inOl then InNumbers else NoList
  }

  /** The fragments of `st` stand for `bs`, and the open list is the one the flags say. */
  predicate Represents(st: RenderState, bs: seq<Block>)
  {
    !(st.inUl && st.inOl) && Scan(st.html, NoList) == Some(Scanned(bs, ModeOf(st)))
  }

  lemma ScanCons(p: Piece, rest: seq<Piece>, m: ListMode)
    ensures Scan([p] + rest, m) == Then(Transition(p, m), rest)
  {
    assert ([p] + rest)[0] == p && ([p] + rest)[1..] == rest;
  }

  lemma ScanOne(p: Piece, m: ListMode)
    ensures Scan([p], m) == Transition(p, m)
  {
    ScanCons(p, [], m);
    assert [p] + [] == [p];
    match Transition(p, m)
    case None =>
    case Some(x) => assert x.blocks + [] == x.blocks;
  }

  /** The fragments one block adds, scanned in the list context before it, stand for that block. */
  predicate Adds(st: RenderState, b: Block, delta: seq<Piece>)
  {
    Step(st, b).html == st.html + delta && Scan(delta, ModeOf(st)) == Some(Scanned([b], ModeOf(Step(st, b))))
  }

  lemma StepOrdered(st: RenderState, t: string)
    requires !(st.inUl && st.inOl)
    ensures exists delta :: Adds(st, OrderedItem(t), delta)
  {
    var item := [ListItem(t)];
    ScanOne(ListItem(t), InNumbers);
    assert Scan(item, InNumbers) == Some(Scanned([OrderedItem(t)], InNumbers));
    ScanCons(OpenOl, item, NoList);
    assert [] + [OrderedItem(t)] == [OrderedItem(t)];
    assert Scan([OpenOl] + item, NoList) == Some(Scanned([OrderedItem(t)], InNumbers));
    ScanCons(CloseUl, [OpenOl] + item, InBullets);
    if st.inUl {
      assert Adds(st, OrderedItem(t), [CloseUl] + ([OpenOl] + item));
    } else if st.inOl {
      assert Adds(st, OrderedItem(t), item);
    } else {
      assert Adds(st, OrderedItem(t), [OpenOl] + item);
    }
  }

  lemma StepBullet(st: RenderState, t: string)
    requires !(st.inUl && st.inOl)
    ensures exists delta :: Adds(st, BulletItem(t), delta)
  {
    var item := [ListItem(t)];
    ScanOne(ListItem(t), InBullets);
    assert Scan(item, InBullets) == Some(Scanned([BulletItem(t)], InBullets));
    ScanCons(OpenUl, item, NoList);
    assert [] + [BulletItem(t)] == [BulletItem(t)];
    assert Scan([OpenUl] + item, NoList) == Some(Scanned([BulletItem(t)], InBullets));
    ScanCons(CloseOl, [OpenUl] + item, InNumbers);
    if st.inOl {
      assert Adds(st, BulletItem(t), [CloseOl] + ([OpenUl] + item));
    } else if st.inUl {
      assert Adds(st, BulletItem(t), item);
    } else {
      assert Adds(st, BulletItem(t), [OpenUl] + item);
    }
  }

  lemma StepParagraph(st: RenderState, t: string)
    requires !(st.inUl && st.inOl)
    ensures exists delta :: Adds(st, Paragraph(t), delta)
  {
    var para := [Para(t)];
    ScanOne(Para(t), NoList);
    assert Scan(para, NoList) == Some(Scanned([Paragraph(t)], NoList));
    assert [] + [Paragraph(t)] == [Paragraph(t)];
    ScanCons(CloseUl, para, InBullets);
    ScanCons(CloseOl, para, InNumbers);
    if st.inUl {
      assert Adds(st, Paragraph(t), [CloseUl] + para);
    } else if st.inOl {
      assert Adds(st, Paragraph(t), [CloseOl] + para);
    } else {
      assert Adds(st, Paragraph(t), para);
    }
  }

  lemma StepRepresents(st: RenderState, b: Block, bs: seq<Block>)
    requires Represents(st, bs)
    ensures Represents(Step(st, b), bs + [b])
  {
    match b {
      case OrderedItem(t) => StepOrdered(st, t);
      case BulletItem(t) => StepBullet(st, t);
      case Paragraph(t) => StepParagraph(st, t);
    }
    var delta :| Adds(st, b, delta);
    ScanConcat(st.html, delta, NoList);
  }

  lemma {:induction false} RenderFromRepresents(st: RenderState, todo: seq<Block>, bs: seq<Block>)
    requires Represents(st, bs)
    ensures Represents(RenderFrom(st, todo), bs + todo)
    decreases |todo|
  {
    if todo == [] {
      assert bs + [] == bs;
    } else {
      StepRepresents(st, todo[0], bs);
      RenderFromRepresents(Step(st, todo[0]), todo[1..], bs + [todo[0]]);
      assert bs + [todo[0]] + todo[1..] == bs + todo;
    }
  }

  lemma CloseListsParses(st: RenderState, bs: seq<Block>)
    requires Represents(st, bs)
    ensures Parse(CloseLists(st).html) == Some(bs)
  {
    var delta := if st.inUl then [CloseUl] else if st.inOl then [CloseOl] else [];
    assert CloseLists(st).html == st.html + delta;
    ScanConcat(st.html, delta, NoList);
    ScanOne(CloseUl, InBullets);
    ScanOne(CloseOl, InNumbers);
    assert Scan(delta, ModeOf(st)) == Some(Scanned([], NoList));
    assert bs + [] == bs;
  }

  /**
    The fragments renderAiSummary pushes are well nested, and they stand for
    exactly one block per prepared line, in order, each as LineBlock classifies it.
   */
  lemma RenderPiecesParse(summary: string)
    ensures Parse(RenderPieces(summary)) == Some(Blocks(Lines(summary)))
  {
    var bs := Blocks(Lines(summary));
    assert Represents(Start, []);
    RenderFromRepresents(Start, bs, []);
    assert [] + bs == bs;
    CloseListsParses(RenderFrom(Start, bs), bs);
  }

  /** The joined HTML is empty exactly when there are no fragments. */
  lemma JoinEmpty(ps: seq<Piece>)
    ensures Join(ps) == [] <==> ps == []
  {
    if ps != [] {
      assert |ps[0].Html()| > 0;
    }
  }

  lemma ParseEmpty(ps: seq<Piece>, bs: seq<Block>)
    requires Parse(ps) == Some(bs) && bs != []
    ensures ps != []
  {
  }

  /** renderAiSummary returns the empty string exactly when no line of the summary holds anything but white space. */
  lemma RenderAiSummaryEmpty(summary: string)
    ensures RenderAiSummary(summary) == [] <==> Lines(summary) == []
  {
    var lines := Lines(summary);
    var ps := RenderPieces(summary);
    JoinEmpty(ps);
    if lines == [] {
      assert RenderFrom(Start, Blocks(lines)) == Start;
    } else {
      RenderPiecesParse(summary);
      ParseEmpty(ps, Blocks(lines));
    }
  }

  // ---------------------------------------------------------------------------
  // The lists: consecutive items of one kind share one list

  datatype ListKind = Numbered | Bulleted

  predicate IsItemOf(b: Block, k: ListKind)
  {
    match k
    case Numbered => b.OrderedItem?
    case Bulleted => b.BulletItem?
  }

  function ItemOf(k: ListKind, t: string): (b: Block)
    ensures IsItemOf(b, k) && b.text == t
  {
    match k
    case Numbered => OrderedItem(t)
    case Bulleted => BulletItem(t)
  }

  function KindOf(b: Block): (k: ListKind)
    requires !b.Paragraph?
    ensures IsItemOf(b, k)
  {
    if b.OrderedItem? then Numbered else Bulleted
  }

  /** The length of the longest prefix made of items of kind `k`. */
  function ItemRun(bs: seq<Block>, k: ListKind): (n: nat)
    ensures n <= |bs|
    ensures forall i | 0 <= i < n :: IsItemOf(bs[i], k)
    ensures n < |bs| ==> !IsItemOf(bs[n], k)
  {
    if bs == [] || !IsItemOf(bs[0], k) then 0 else 1 + ItemRun(bs[1..], k)
  }

  function Texts(bs: seq<Block>): (ts: seq<string>)
    ensures |ts| == |bs|
    ensures forall i | 0 <= i < |bs| :: ts[i] == bs[i].text
  {
    seq(|bs|, i requires 0 <= i < |bs| => bs[i].text)
  }

  /** A whole list with the texts of its items, or a paragraph. */
  datatype Group = ListGroup(kind: ListKind, items: seq<string>) | ParaGroup(text: string)

  /** The reference grouping: every maximal run of items of one kind is one list. */
  function Groups(bs: seq<Block>): seq<Group>
    decreases |bs|
  {
    if bs == [] then []
    else if bs[0].Paragraph? then [ParaGroup(bs[0].text)] + Groups(bs[1..])
    else
      var k := KindOf(bs[0]);
      var n := ItemRun(bs, k);
      [ListGroup(k, Texts(bs[..n]))] + Groups(bs[n..])
  }

  /** The blocks a group stands for. */
  function GroupBlocks(g: Group): seq<Block>
  {
    match g
    case ListGroup(k, ts) => seq(|ts|, i requires 0 <= i < |ts| => ItemOf(k, ts[i]))
    case ParaGroup(t) => [Paragraph(t)]
  }

  function Flatten(gs: seq<Group>): seq<Block>
  {
    if gs == [] then [] else GroupBlocks(gs[0]) + Flatten(gs[1..])
  }

  /** No list is empty, and a list is never followed directly by another list of its kind. */
  predicate Maximal(gs: seq<Group>)
  {
    && (forall i | 0 <= i < |gs| :: gs[i].ListGroup? ==> gs[i].items != [])
    && (forall i | 1 <= i < |gs| :: gs[i - 1].ListGroup? && gs[i].ListGroup? ==> gs[i - 1].kind != gs[i].kind)
  }

  function OpenList(k: ListKind): Piece
  {
    match k
    case Numbered => OpenOl
    case Bulleted => OpenUl
  }

  function CloseList(k: ListKind): Piece
  {
    match k
    case Numbered => CloseOl
    case Bulleted => CloseUl
  }

  function ItemPieces(ts: seq<string>): (ps: seq<Piece>)
    ensures |ps| == |ts|
    ensures forall i | 0 <= i < |ts| :: ps[i] == ListItem(ts[i])
  {
    seq(|ts|, i requires 0 <= i < |ts| => ListItem(ts[i]))
  }

  /** A list opens, holds its items and closes; a paragraph is one fragment. */
  function GroupPieces(g: Group): seq<Piece>
  {
    match g
    case ListGroup(k, ts) => [OpenList(k)] + ItemPieces(ts) + [CloseList(k)]
    case ParaGroup(t) => [Para(t)]
  }

  /** The reference rendering of grouped blocks. */
  function EmitGroups(gs: seq<Group>): seq<Piece>
  {
    if gs == [] then [] else GroupPieces(gs[0]) + EmitGroups(gs[1..])
  }

  lemma {:induction false} FlattenCons(g: Group, gs: seq<Group>)
    ensures Flatten([g] + gs) == GroupBlocks(g) + Flatten(gs)
  {
    assert ([g] + gs)[0] == g && ([g] + gs)[1..] == gs;
  }

  lemma {:induction false} EmitCons(g: Group, gs: seq<Group>)
    ensures EmitGroups([g] + gs) == GroupPieces(g) + EmitGroups(gs)
  {
    assert ([g] + gs)[0] == g && ([g] + gs)[1..] == gs;
  }

  /** A run of items of kind `k` is exactly the blocks of its list group. */
  lemma {:induction false} RunBlocks(bs: seq<Block>, k: ListKind, n: nat)
    requires n <= |bs| && forall i | 0 <= i < n :: IsItemOf(bs[i], k)
    ensures GroupBlocks(ListGroup(k, Texts(bs[..n]))) == bs[..n]
  {
    var ts := Texts(bs[..n]);
    forall i | 0 <= i < n ensures ItemOf(k, ts[i]) == bs[i] {
      assert IsItemOf(bs[i], k);
    }
  }

  lemma {:induction false} MaximalCons(g: Group, gs: seq<Group>)
    requires Maximal(gs)
    requires g.ListGroup? ==> g.items != []
    requires gs != [] && g.ListGroup? && gs[0].ListGroup? ==> g.kind != gs[0].kind
    ensures Maximal([g] + gs)
  {
    var r := [g] + gs;
    assert forall i | 1 <= i < |r| :: r[i] == gs[i - 1];
  }

  lemma {:induction false} MaximalTail(gs: seq<Group>)
    requires Maximal(gs) && gs != []
    ensures Maximal(gs[1..])
    ensures gs[0].ListGroup? ==> gs[0].items != []
    ensures |gs| > 1 && gs[0].ListGroup? && gs[1].ListGroup? ==> gs[0].kind != gs[1].kind
  {
    var r := gs[1..];
    assert forall i | 0 <= i < |r| :: r[i] == gs[i + 1];
  }

  /** What `GroupsSpec` states about one grouping. */
  predicate GroupsFaithful(bs: seq<Block>)
  {
    && Flatten(Groups(bs)) == bs
    && Maximal(Groups(bs))
    && (bs != [] ==> Groups(bs) != [] && (Groups(bs)[0].ListGroup? ==> IsItemOf(bs[0], Groups(bs)[0].kind)))
  }

  lemma {:induction false} ParagraphGroupFaithful(bs: seq<Block>)
    requires bs != [] && bs[0].Paragraph? && GroupsFaithful(bs[1..])
    ensures GroupsFaithful(bs)
  {
    var head, rest := ParaGroup(bs[0].text), bs[1..];
    GroupsCons(bs);
    FlattenCons(head, Groups(rest));
    MaximalCons(head, Groups(rest));
    assert bs == [bs[0]] + rest;
  }

  lemma {:induction false} ListGroupFlatten(bs: seq<Block>, n: nat)
    requires bs != [] && !bs[0].Paragraph? && n == ItemRun(bs, KindOf(bs[0]))
    requires Flatten(Groups(bs[n..])) == bs[n..]
    ensures Flatten(Groups(bs)) == bs
  {
    var k := KindOf(bs[0]);
    var head, rest := ListGroup(k, Texts(bs[..n])), bs[n..];
    calc {
      Flatten(Groups(bs));
      == { GroupsCons(bs); }
      Flatten([head] + Groups(rest));
      == { FlattenCons(head, Groups(rest)); }
      GroupBlocks(head) + Flatten(Groups(rest));
      == { RunBlocks(bs, k, n); }
      bs[..n] + rest;
      == { assert bs == bs[..n] + rest; }
      bs;
    }
  }

  lemma {:induction false} ListGroupMaximal(bs: seq<Block>, n: nat)
    requires bs != [] && !bs[0].Paragraph? && n == ItemRun(bs, KindOf(bs[0]))
    requires Maximal(Groups(bs[n..]))
    requires n < |bs| ==> Groups(bs[n..]) != [] && (Groups(bs[n..])[0].ListGroup? ==> IsItemOf(bs[n], Groups(bs[n..])[0].kind))
    ensures Maximal(Groups(bs))
  {
    var k := KindOf(bs[0]);
    var head, rest := ListGroup(k, Texts(bs[..n])), bs[n..];
    GroupsCons(bs);
    assert |head.items| == n > 0;
    MaximalCons(head, Groups(rest));
  }

  lemma {:induction false} ListGroupFaithful(bs: seq<Block>)
    requires bs != [] && !bs[0].Paragraph?
    requires GroupsFaithful(bs[ItemRun(bs, KindOf(bs[0]))..])
    ensures GroupsFaithful(bs)
  {
    var n := ItemRun(bs, KindOf(bs[0]));
    if n < |bs| { assert bs[n..][0] == bs[n]; }
    ListGroupFlatten(bs, n);
    ListGroupMaximal(bs, n);
    GroupsCons(bs);
  }

  /** The reference grouping loses no block, keeps their order, and its lists are maximal. */
  lemma {:induction false} GroupsSpec(bs: seq<Block>)
    ensures Flatten(Groups(bs)) == bs
    ensures Maximal(Groups(bs))
    ensures bs != [] ==> Groups(bs) != [] && (Groups(bs)[0].ListGroup? ==> IsItemOf(bs[0], Groups(bs)[0].kind))
    decreases |bs|
  {
    if bs != [] {
      if bs[0].Paragraph? {
        GroupsSpec(bs[1..]);
        ParagraphGroupFaithful(bs);
      } else {
        GroupsSpec(bs[ItemRun(bs, KindOf(bs[0]))..]);
        ListGroupFaithful(bs);
      }
    }
  }

  /** A non-empty list followed by a maximal grouping not continuing it is exactly one item run. */
  lemma {:induction false} ListHeadRun(k: ListKind, ts: seq<string>, rest: seq<Group>)
    requires ts != [] && Maximal(rest)
    requires rest != [] && rest[0].ListGroup? ==> rest[0].kind != k
    ensures var items := GroupBlocks(ListGroup(k, ts)); var bs := items + Flatten(rest);
      && !bs[0].Paragraph? && KindOf(bs[0]) == k && ItemRun(bs, k) == |ts|
      && bs[..|ts|] == items && Texts(items) == ts && bs[|ts|..] == Flatten(rest)
  {
    var items := GroupBlocks(ListGroup(k, ts));
    var bs := items + Flatten(rest);
    var n := |ts|;
    assert bs[0] == items[0];
    if n < |bs| {
      FirstBlock(rest);
      assert bs[n] == Flatten(rest)[0];
    }
    ItemRunExact(bs, k, n);
    assert bs[..n] == items;
    assert bs[n..] == Flatten(rest);
  }

  /** The only maximal grouping of its blocks is the reference grouping. */
  lemma {:induction false} GroupsUnique(gs: seq<Group>)
    requires Maximal(gs)
    ensures Groups(Flatten(gs)) == gs
  {
    if gs != [] {
      var rest := gs[1..];
      MaximalTail(gs);
      GroupsUnique(rest);
      FlattenCons(gs[0], rest);
      assert gs == [gs[0]] + rest;
      var bs := Flatten(gs);
      GroupsCons(bs);
      match gs[0]
      case ParaGroup(t) =>
        assert bs[1..] == Flatten(rest);
      case ListGroup(k, ts) =>
        ListHeadRun(k, ts, rest);
    }
  }

  /** The first block of a non-empty maximal grouping comes from its first group. */
  lemma {:induction false} FirstBlock(gs: seq<Group>)
    requires Maximal(gs) && Flatten(gs) != []
    ensures gs != [] && Flatten(gs)[0] == GroupBlocks(gs[0])[0]
  {
    if gs != [] {
      FlattenCons(gs[0], gs[1..]);
      assert gs == [gs[0]] + gs[1..];
      assert GroupBlocks(gs[0]) != [];
    }
  }

  lemma {:induction false} ItemRunExact(bs: seq<Block>, k: ListKind, n: nat)
    requires n <= |bs| && forall i | 0 <= i < n :: IsItemOf(bs[i], k)
    requires n < |bs| ==> !IsItemOf(bs[n], k)
    ensures ItemRun(bs, k) == n
  {
  }

  function Closed(h: seq<Piece>): RenderState
  {
    RenderState(h, false, false)
  }

  function InList(h: seq<Piece>, k: ListKind): RenderState
  {
    RenderState(h, k == Bulleted, k == Numbered)
  }

  /** An item of the open list adds its `<li>` and keeps the list open. */
  lemma {:induction false} StepStays(g: seq<Piece>, k: ListKind, b: Block)
    requires IsItemOf(b, k)
    ensures Step(InList(g, k), b) == InList(g + [ListItem(b.text)], k)
  {
  }

  /** The first item outside any list opens its list. */
  lemma {:induction false} StepOpens(h: seq<Piece>, b: Block)
    requires !b.Paragraph?
    ensures Step(Closed(h), b) == Step(InList(h + [OpenList(KindOf(b))], KindOf(b)), b)
  {
  }

  /** Any other block closes the open list first. */
  lemma {:induction false} StepLeaves(g: seq<Piece>, k: ListKind, b: Block)
    requires !IsItemOf(b, k)
    ensures Step(InList(g, k), b) == Step(Closed(g + [CloseList(k)]), b)
  {
  }

  lemma {:induction false} RenderFromCons(st: RenderState, bs: seq<Block>)
    requires bs != []
    ensures RenderFrom(st, bs) == RenderFrom(Step(st, bs[0]), bs[1..])
  {
  }

  lemma {:induction false} RunPiecesCons(bs: seq<Block>, n: nat)
    requires 0 < n <= |bs|
    ensures ItemPieces(Texts(bs[..n])) == [ListItem(bs[0].text)] + ItemPieces(Texts(bs[1..][..n - 1]))
  {
  }

  /** Inside an open list, a run of its items only adds `<li>` fragments. */
  lemma {:induction false} ItemRunRender(g: seq<Piece>, k: ListKind, bs: seq<Block>, n: nat)
    requires n <= |bs| && forall i | 0 <= i < n :: IsItemOf(bs[i], k)
    ensures RenderFrom(InList(g, k), bs) == RenderFrom(InList(g + ItemPieces(Texts(bs[..n])), k), bs[n..])
    decreases n
  {
    if n == 0 {
      assert g + ItemPieces(Texts(bs[..0])) == g;
    } else {
      var g1 := g + [ListItem(bs[0].text)];
      StepStays(g, k, bs[0]);
      RenderFromCons(InList(g, k), bs);
      ItemRunRender(g1, k, bs[1..], n - 1);
      RunPiecesCons(bs, n);
      assert g1 + ItemPieces(Texts(bs[1..][..n - 1])) == g + ItemPieces(Texts(bs[..n]));
      assert bs[1..][n - 1..] == bs[n..];
    }
  }

  /** A block that is not an item of the open list closes it first. */
  lemma {:induction false} LeaveList(g: seq<Piece>, k: ListKind, bs: seq<Block>)
    requires bs == [] || !IsItemOf(bs[0], k)
    ensures CloseLists(RenderFrom(InList(g, k), bs)) == CloseLists(RenderFrom(Closed(g + [CloseList(k)]), bs))
  {
    if bs != [] {
      StepLeaves(g, k, bs[0]);
      RenderFromCons(InList(g, k), bs);
      RenderFromCons(Closed(g + [CloseList(k)]), bs);
    }
  }

  /** A paragraph line outside any list adds its paragraph and leaves no list open. */
  lemma {:induction false} ParagraphRender(h: seq<Piece>, bs: seq<Block>)
    requires bs != [] && bs[0].Paragraph?
    ensures RenderFrom(Closed(h), bs) == RenderFrom(Closed(h + [Para(bs[0].text)]), bs[1..])
  {
    assert Step(Closed(h), bs[0]) == Closed(h + [Para(bs[0].text)]);
  }

  /** A maximal run of items outside any list adds one whole list and leaves no list open. */
  lemma {:induction false} ListRender(h: seq<Piece>, bs: seq<Block>)
    requires bs != [] && !bs[0].Paragraph?
    ensures var k := KindOf(bs[0]); var n := ItemRun(bs, k);
      CloseLists(RenderFrom(Closed(h), bs))
      == CloseLists(RenderFrom(Closed(h + GroupPieces(ListGroup(k, Texts(bs[..n])))), bs[n..]))
  {
    var k := KindOf(bs[0]);
    var n := ItemRun(bs, k);
    var g := h + [OpenList(k)];
    StepOpens(h, bs[0]);
    RenderFromCons(Closed(h), bs);
    RenderFromCons(InList(g, k), bs);
    ItemRunRender(g, k, bs, n);
    var g2 := g + ItemPieces(Texts(bs[..n]));
    LeaveList(g2, k, bs[n..]);
    ListPieces(h, k, Texts(bs[..n]));
  }

  lemma {:induction false} ListPieces(h: seq<Piece>, k: ListKind, ts: seq<string>)
    ensures h + [OpenList(k)] + ItemPieces(ts) + [CloseList(k)] == h + GroupPieces(ListGroup(k, ts))
  {
  }

  lemma {:induction false} Assoc(a: seq<Piece>, b: seq<Piece>, c: seq<Piece>)
    ensures a + b + c == a + (b + c)
  {
  }

  lemma {:induction false} GroupsCons(bs: seq<Block>)
    requires bs != []
    ensures bs[0].Paragraph? ==> Groups(bs) == [ParaGroup(bs[0].text)] + Groups(bs[1..])
    ensures !bs[0].Paragraph? ==>
      var k := KindOf(bs[0]); var n := ItemRun(bs, k);
      Groups(bs) == [ListGroup(k, Texts(bs[..n]))] + Groups(bs[n..])
  {
  }

  lemma {:induction false} RenderGroups(h: seq<Piece>, bs: seq<Block>)
    ensures CloseLists(RenderFrom(Closed(h), bs)).html == h + EmitGroups(Groups(bs))
    decreases |bs|
  {
    if bs == [] {
      assert h + [] == h;
    } else if bs[0].Paragraph? {
      var p := Para(bs[0].text);
      ParagraphRender(h, bs);
      GroupsCons(bs);
      RenderGroups(h + [p], bs[1..]);
      EmitCons(ParaGroup(bs[0].text), Groups(bs[1..]));
      Assoc(h, [p], EmitGroups(Groups(bs[1..])));
    } else {
      var k := KindOf(bs[0]);
      var n := ItemRun(bs, k);
      var grp := ListGroup(k, Texts(bs[..n]));
      ListRender(h, bs);
      GroupsCons(bs);
      RenderGroups(h + GroupPieces(grp), bs[n..]);
      EmitCons(grp, Groups(bs[n..]));
      Assoc(h, GroupPieces(grp), EmitGroups(Groups(bs[n..])));
    }
  }

  /**
    The fragments renderAiSummary pushes are the reference rendering of the grouped
    lines: every maximal run of numbered lines is one `<ol>`, every maximal run of
    bullet lines one `<ul>`, and every other line a paragraph. The grouping keeps
    every block in order and no list is empty or continued by a list of its kind.
   */
  lemma {:induction false} RenderPiecesGrouped(summary: string)
    ensures var bs := Blocks(Lines(summary));
      && RenderPieces(summary) == EmitGroups(Groups(bs))
      && Flatten(Groups(bs)) == bs
      && Maximal(Groups(bs))
  {
    var bs := Blocks(Lines(summary));
    assert Start == Closed([]);
    RenderGroups([], bs);
    assert [] + EmitGroups(Groups(bs)) == EmitGroups(Groups(bs));
    GroupsSpec(bs);
  }

  // ---------------------------------------------------------------------------
  // The text of one line

  /** The raw line without its list marker. */
  function ItemBody(line: string): string
  {
    if IsOrderedMarker(line) then line[OrderedMarkerLength(line)..]
    else if IsBulletMarker(line) then line[2..]
    else line
  }

  lemma DigitRunOf(s: string, n: nat)
    requires n < |s| && !IsDigit(s[n])
    requires forall i | 0 <= i < n :: IsDigit(s[i])
    ensures DigitRun(s) == n
  {
    if DigitRun(s) < n { assert !IsDigit(s[DigitRun(s)]); }
  }

  lemma {:induction false} LeadingSpaceOf(s: string, k: nat)
    requires SpaceIn(s, 0, k)
    requires k < |s| ==> !IsSpace(s[k])
    ensures LeadingSpace(s) == k
  {
    if k > 0 {
      assert IsSpace(s[0]);
      assert forall i | 0 <= i < k - 1 :: s[1..][i] == s[i + 1];
      LeadingSpaceOf(s[1..], k - 1);
    }
  }

  /** A marker, followed by text that does not start with white space, is stripped exactly. */
  lemma StripOrderedPrefix(p: string, z: string)
    requires IsOrderedMarker(p) && OrderedMarkerLength(p) == |p|
    requires z == [] || !IsSpace(z[0])
    ensures StripOrderedMarker(p + z) == z
  {
    var s := p + z;
    var n := DigitRun(p);
    var k := |p| - n - 1;
    assert s[..|p|] == p;
    DigitRunOf(s, n);
    var t := s[n + 1..];
    assert t == p[n + 1..|p|] + z;
    assert forall i | 0 <= i < k :: t[i] == p[n + 1 + i];
    assert k < |t| ==> t[k] == z[0];
    LeadingSpaceOf(t, k);
    assert s[|p|..] == z;
  }

  /** The first character of an escaped, bolded non-empty text is its own first character, `&` or `<`. */
  lemma RenderedFirst(x: string)
    requires x != []
    ensures Bold(EscapeHtml(x)) != []
    ensures var c := Bold(EscapeHtml(x))[0]; c == x[0] || c == '&' || c == '<'
  {
    EscapeHtmlIsCharwise(x);
    var e := EscapeHtml(x);
    assert e == EscapeChar(x[0]) + EscapeEach(x[1..]);
    assert e[0] == EscapeChar(x[0])[0];
    BoldFirst(e);
  }

  /** Escaping and bolding leave a prefix made of digits, dots, dashes and white space alone. */
  lemma RenderPrefix(p: string, x: string)
    requires MarkerChars(p)
    ensures Bold(EscapeHtml(p + x)) == p + Bold(EscapeHtml(x))
  {
    EscapeHtmlConcat(p, x);
    EscapeHtmlCorrect(p);
    BoldPrefix(p, EscapeHtml(x));
  }

  predicate MarkerChars(p: string)
  {
    forall i | 0 <= i < |p| :: IsDigit(p[i]) || p[i] == '.' || p[i] == '-' || IsSpace(p[i])
  }

  /** The matched marker on its own is a complete marker. */
  lemma MarkerPrefix(line: string)
    requires IsOrderedMarker(line)
    ensures var p := line[..OrderedMarkerLength(line)];
      IsOrderedMarker(p) && OrderedMarkerLength(p) == |p| && MarkerChars(p)
  {
    var n := DigitRun(line);
    var m := OrderedMarkerLength(line);
    var p := line[..m];
    forall i | 0 <= i < |p| ensures IsDigit(p[i]) || p[i] == '.' || p[i] == '-' || IsSpace(p[i]) {
      if n + 1 <= i { assert p[i] == line[i]; }
    }
    DigitRunOf(p, n);
    var q := p[n + 1..];
    assert forall i | 0 <= i < m - n - 1 :: q[i] == line[n + 1 + i];
    LeadingSpaceOf(q, m - n - 1);
  }

  lemma OrderedLineText(line: string)
    requires IsOrderedMarker(line)
    ensures StripOrderedMarker(Bold(EscapeHtml(line))) == Bold(EscapeHtml(ItemBody(line)))
  {
    var m := OrderedMarkerLength(line);
    var p, x := line[..m], line[m..];
    assert line == p + x;
    MarkerPrefix(line);
    RenderPrefix(p, x);
    if x != [] { RenderedFirst(x); }
    StripOrderedPrefix(p, Bold(EscapeHtml(x)));
  }

  lemma BulletLineText(line: string)
    requires IsBulletMarker(line)
    ensures StripBulletMarker(Bold(EscapeHtml(line))) == Bold(EscapeHtml(ItemBody(line)))
  {
    assert !IsDigit(line[0]);
    var p, x := line[..2], line[2..];
    assert line == p + x;
    assert MarkerChars(p);
    RenderPrefix(p, x);
    assert (p + Bold(EscapeHtml(x)))[2..] == Bold(EscapeHtml(x));
  }

  /**
    What one line becomes: a numbered item exactly when it starts with digits, a
    dot and white space; a bullet item exactly when it otherwise starts with `- `;
    else a paragraph. Stripping the marker after escaping and bolding removes the
    same characters as stripping it from the raw line, the only markup in the text
    is `<strong>`/`</strong>`, and undoing the bold and the escaping gives back the
    line without its marker.
   */
  lemma LineBlockSpec(line: string)
    ensures LineBlock(line).OrderedItem? <==> IsOrderedMarker(line)
    ensures LineBlock(line).BulletItem? <==> !IsOrderedMarker(line) && IsBulletMarker(line)
    ensures LineBlock(line).text == Bold(EscapeHtml(ItemBody(line)))
    ensures OnlyStrongTags(LineBlock(line).text)
    ensures Unescape(Unbold(LineBlock(line).text)) == ItemBody(line)
  {
    if IsOrderedMarker(line) {
      OrderedLineText(line);
    } else if IsBulletMarker(line) {
      BulletLineText(line);
    }
    var e := EscapeHtml(ItemBody(line));
    EscapeHtmlCorrect(ItemBody(line));
    BoldOnlyStrongTags(e);
    UnboldBold(e);
  }
}
