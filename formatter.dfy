// The markdown-subset formatter `formatResponse` of the response panel.
//
// After the bold pre-pass the text is split into lines and each line is
// classified, on its trimmed form, as an ordered item (`^\d+\.\s`), an unordered
// item (`^[-*]\s`), a text line or a blank line. One pass over the lines opens
// and closes `<ol>` and `<ul>` lists as the kind changes and closes whatever list
// is still open at the end.
//
// The output is described first as a sequence of blocks, produced by a fold over
// the lines whose list state has three values (no list, in an ordered list, in
// an unordered list); `Render` maps every block to the exact markup the source
// appends. `FormatResponse` is the source's loop, with its two booleans, proved
// to produce the rendering of that block sequence.

module Formatter {
  import opened Types
  import opened JsString
  import opened Bold

  /** The structural pieces of the output, one per fragment the source appends. */
  datatype Block =
    | OlOpen | OlItem(text: string) | OlClose
    | UlOpen | UlItem(text: string) | UlClose
    | Para(text: string) | Spacer

  // ---------------------------------------------------------------------------
  // Line classification

  /** What a line is, with the text the formatter keeps from it. */
  datatype LineKind = OrderedLine(item: string) | UnorderedLine(item: string) | TextLine(text: string) | BlankLine

  /** The number of ASCII digits `t` starts with. */
  function LeadingDigits(t: string): (n: nat)
    ensures n <= |t|
    ensures forall i :: 0 <= i < n ==> IsDigit(t[i])
    ensures n < |t| ==> !IsDigit(t[n])
  {
    if t != [] && IsDigit(t[0]) then 1 + LeadingDigits(t[1..]) else 0
  }

  /** `^\d+\.\s` matches `t` with `k` digits: `k` digits, a dot and one whitespace character. */
  predicate OrderedMarkerAt(t: string, k: int) {
    1 <= k && k + 2 <= |t| && (forall i :: 0 <= i < k ==> IsDigit(t[i])) && t[k] == '.' && IsWhitespace(t[k + 1])
  }

  /** The length of the match of `^\d+\.\s` on `t`, if it matches. */
  function OrderedMarker(t: string): (r: Option<nat>)
    ensures r.Some? ==> 3 <= r.value <= |t| && OrderedMarkerAt(t, r.value - 2)
  {
    var n := LeadingDigits(t);
    if 0 < n && n + 2 <= |t| && t[n] == '.' && IsWhitespace(t[n + 1]) then Some(n + 2) else None
  }

  /** Conversely, whenever the pattern matches with `k` digits, `OrderedMarker` finds that match. */
  lemma OrderedMarkerFinds(t: string, k: int)
    requires OrderedMarkerAt(t, k)
    ensures OrderedMarker(t) == Some(k + 2)
  {
  }

  /** `^[-*]\s` matches `t`: a dash or a star followed by one whitespace character. */
  predicate UnorderedMarker(t: string) {
    |t| >= 2 && (t[0] == '-' || t[0] == '*') && IsWhitespace(t[1])
  }

  /**
   * The kind of a line, decided on its trimmed form in the source's order:
   * ordered marker, then unordered marker, then text or blank. List items keep
   * the trimmed line without its marker; a text line is kept untrimmed.
   */
  function Classify(line: string): LineKind {
    var t := Trim(line);
    match OrderedMarker(t)
    case Some(m) => OrderedLine(t[m..])
    case None =>
      if UnorderedMarker(t) then UnorderedLine(t[2..])
      else if t == [] then BlankLine
      else TextLine(line)
  }

  /**
   * What the classification means: an ordered item exactly when the trimmed line
   * starts with digits, a dot and one whitespace character, keeping what follows;
   * otherwise an unordered item exactly when it starts with `-` or `*` and one
   * whitespace character, keeping what follows; otherwise a blank line exactly when
   * the line is all whitespace, and else a text line keeping the untrimmed line.
   */
  lemma ClassifyMeaning(line: string)
    ensures var t, r := Trim(line), Classify(line);
      && (r.OrderedLine? <==> exists k :: OrderedMarkerAt(t, k))
      && (forall k :: OrderedMarkerAt(t, k) ==> r == OrderedLine(t[k + 2..]))
      && ((forall k :: !OrderedMarkerAt(t, k)) && UnorderedMarker(t) <==> r.UnorderedLine?)
      && (r.UnorderedLine? ==> r.item == t[2..])
      && (r == BlankLine <==> AllWhitespace(line))
      && (r.TextLine? <==> (forall k :: !OrderedMarkerAt(t, k)) && !UnorderedMarker(t) && !AllWhitespace(line))
      && (r.TextLine? ==> r.text == line)
  {
    var t := Trim(line);
    forall k | OrderedMarkerAt(t, k) ensures OrderedMarker(t) == Some(k + 2) {
      OrderedMarkerFinds(t, k);
    }
    if OrderedMarker(t).Some? {
      assert OrderedMarkerAt(t, OrderedMarker(t).value - 2);
    }
  }

  /** The one item, paragraph or spacer a line contributes. */
  function LineBlock(kind: LineKind): Block {
    match kind
    case OrderedLine(item) => OlItem(item)
    case UnorderedLine(item) => UlItem(item)
    case TextLine(text) => Para(text)
    case BlankLine => Spacer
  }

  // ---------------------------------------------------------------------------
  // The block sequence

  /** Which list, if any, is open. */
  datatype ListState = NoList | InOrdered | InUnordered

  /** The closer of the open list, if any. */
  function Closing(st: ListState): seq<Block> {
    match st
    case NoList => []
    case InOrdered => [OlClose]
    case InUnordered => [UlClose]
  }

  /** The list state after a line and the blocks emitted so far. */
  datatype Progress = Progress(state: ListState, blocks: seq<Block>)

  /** The list state after a line depends only on that line's kind. */
  function StateAfter(kind: LineKind): ListState {
    match kind
    case OrderedLine(_) => InOrdered
    case UnorderedLine(_) => InUnordered
    case _ => NoList
  }

  /**
   * The closers and openers a line emits before its own block: an ordered
   * item closes an unordered list and opens an ordered list unless one is
   * open, and symmetrically for an unordered item; any other line closes the
   * open list. None of them is an item, paragraph or spacer.
   */
  function Markers(st: ListState, kind: LineKind): (r: seq<Block>)
    ensures forall i :: 0 <= i < |r| ==> !IsContent(r[i])
  {
    match kind
    case OrderedLine(_) =>
      (if st == InUnordered then [UlClose] else []) + (if st == InOrdered then [] else [OlOpen])
    case UnorderedLine(_) =>
      (if st == InOrdered then [OlClose] else []) + (if st == InUnordered then [] else [UlOpen])
    case _ => Closing(st)
  }

  /** One line of the pass: its markers, then its item, paragraph or spacer. */
  function Step(st: ListState, kind: LineKind): Progress {
    Progress(StateAfter(kind), Markers(st, kind) + [LineBlock(kind)])
  }

  /** The kinds of the lines, in order. */
  function Kinds(lines: seq<string>): (r: seq<LineKind>)
    ensures |r| == |lines|
    ensures forall i :: 0 <= i < |lines| ==> r[i] == Classify(lines[i])
  {
    if lines == [] then [] else [Classify(lines[0])] + Kinds(lines[1..])
  }

  /** The pass over the line kinds, from the first line to the last. */
  function Run(kinds: seq<LineKind>): Progress
    decreases |kinds|
  {
    if kinds == [] then Progress(NoList, [])
    else
      var before := Run(kinds[..|kinds| - 1]);
      var step := Step(before.state, kinds[|kinds| - 1]);
      Progress(step.state, before.blocks + step.blocks)
  }

  /** The pass followed by closing any list still open. */
  function Blocks(lines: seq<string>): seq<Block> {
    var p := Run(Kinds(lines));
    p.blocks + Closing(p.state)
  }

  /** The block sequence `formatResponse` renders for `text`. */
  function Document(text: string): seq<Block> {
    Blocks(Split(Embolden(text)))
  }

  // ---------------------------------------------------------------------------
  // Rendering

  const OlOpenTag := "<ol class=\"list-decimal list-inside space-y-2 my-4 pl-4\">"
  const OlCloseTag := "</ol>"
  const UlOpenTag := "<ul class=\"space-y-3 my-4\">"
  const UlCloseTag := "</ul>"
  const UlItemHead :=
    "\n                <li class=\"flex items-start\">"
    + "\n                    <svg class=\"w-5 h-5 mr-3 mt-1 flex-shrink-0 text-teal-500 dark:text-teal-400\" xmlns=\"http://www.w3.org/2000/svg\" fill=\"none\" viewBox=\"0 0 24 24\" stroke=\"currentColor\" stroke-width=\"2\">"
    + "\n                        <path stroke-linecap=\"round\" stroke-linejoin=\"round\" d=\"M9 12l2 2 4-4m6 2a9 9 0 11-18 0 9 9 0 0118 0z\" />"
    + "\n                    </svg>"
    + "\n                    <span>"
  const UlItemTail := "</span>\n                </li>"
  const ParaHead := "<p class=\"leading-relaxed\">"
  const ParaTail := "</p>"
  const SpacerTag := "<p>&nbsp;</p>"

  /** The markup appended for one block; texts are inserted without any escaping. */
  function Render(b: Block): string {
    match b
    case OlOpen => OlOpenTag
    case OlItem(text) => "<li>" + text + "</li>"
    case OlClose => OlCloseTag
    case UlOpen => UlOpenTag
    case UlItem(text) => UlItemHead + text + UlItemTail
    case UlClose => UlCloseTag
    case Para(text) => ParaHead + text + ParaTail
    case Spacer => SpacerTag
  }

  /** The pieces `f` gives for the blocks of `doc`, one after another. */
  function Flatten(doc: seq<Block>, f: Block -> string): string
    decreases |doc|
  {
    if doc == [] then "" else Flatten(doc[..|doc| - 1], f) + f(doc[|doc| - 1])
  }

  /** Flattening distributes over concatenation, whatever the pieces. */
  lemma {:induction false} FlattenAppend(a: seq<Block>, b: seq<Block>, f: Block -> string)
    ensures Flatten(a + b, f) == Flatten(a, f) + Flatten(b, f)
    decreases |b|
  {
    if b != [] {
      var n := |b| - 1;
      assert (a + b)[..|a + b| - 1] == a + b[..n] && (a + b)[|a + b| - 1] == b[n];
      FlattenAppend(a, b[..n], f);
    } else {
      assert a + b == a;
    }
  }

  /** The markup of a block sequence: the blocks rendered one after another. */
  function RenderAll(doc: seq<Block>): string {
    Flatten(doc, Render)
  }

  /** Rendering distributes over concatenation. */
  lemma RenderAppend(a: seq<Block>, b: seq<Block>)
    ensures RenderAll(a + b) == RenderAll(a) + RenderAll(b)
  {
    FlattenAppend(a, b, Render);
  }

  // ---------------------------------------------------------------------------
  // Well-formedness, checked by an independent validator

  /**
   * The state after reading block `b` in state `st`, or None when `b` may not
   * appear there: an opener only outside any list, an item or a closer only
   * inside its own list, a paragraph or spacer only outside any list.
   */
  function Accept(st: ListState, b: Block): Option<ListState> {
    match b
    case OlOpen => if st == NoList then Some(InOrdered) else None
    case OlItem(_) => if st == InOrdered then Some(InOrdered) else None
    case OlClose => if st == InOrdered then Some(NoList) else None
    case UlOpen => if st == NoList then Some(InUnordered) else None
    case UlItem(_) => if st == InUnordered then Some(InUnordered) else None
    case UlClose => if st == InUnordered then Some(NoList) else None
    case Para(_) => if st == NoList then Some(NoList) else None
    case Spacer => if st == NoList then Some(NoList) else None
  }

  /** Reads `doc` from state `st`; the final state, or None at the first misplaced block. */
  function Walk(st: ListState, doc: seq<Block>): Option<ListState>
    decreases |doc|
  {
    if doc == [] then Some(st)
    else
      match Accept(st, doc[0])
      case None => None
      case Some(next) => Walk(next, doc[1..])
  }

  /** A document is well formed when it reads from no open list back to no open list. */
  predicate WellFormed(doc: seq<Block>) {
    Walk(NoList, doc) == Some(NoList)
  }

  lemma {:induction false} WalkAppend(st: ListState, a: seq<Block>, b: seq<Block>)
    ensures Walk(st, a + b) == (match Walk(st, a) case None => None case Some(mid) => Walk(mid, b))
    decreases |a|
  {
    if a == [] {
      assert a + b == b;
    } else {
      assert (a + b)[0] == a[0] && (a + b)[1..] == a[1..] + b;
      match Accept(st, a[0])
      case None =>
      case Some(next) => WalkAppend(next, a[1..], b);
    }
  }

  /** The blocks of one line read from the state before it to the state after it. */
  lemma StepWalks(st: ListState, kind: LineKind)
    ensures Walk(st, Step(st, kind).blocks) == Some(Step(st, kind).state)
  {
    var blocks := Step(st, kind).blocks;
    var n := |blocks|;
    assert 1 <= n <= 3;
    var s1 := Accept(st, blocks[0]).value;
    assert Walk(st, blocks) == Walk(s1, blocks[1..]);
    if n == 1 {
      assert blocks[1..] == [];
    } else {
      var s2 := Accept(s1, blocks[1]).value;
      assert Walk(s1, blocks[1..]) == Walk(s2, blocks[2..]);
      if n == 2 {
        assert blocks[2..] == [];
      } else {
        var s3 := Accept(s2, blocks[2]).value;
        assert Walk(s2, blocks[2..]) == Walk(s3, blocks[3..]);
        assert blocks[3..] == [];
      }
    }
  }

  /** After any prefix of the lines the emitted blocks read to the pass's current list state. */
  lemma {:induction false} RunWalks(kinds: seq<LineKind>)
    ensures Walk(NoList, Run(kinds).blocks) == Some(Run(kinds).state)
    decreases |kinds|
  {
    if kinds != [] {
      var before := Run(kinds[..|kinds| - 1]);
      RunWalks(kinds[..|kinds| - 1]);
      var kind := kinds[|kinds| - 1];
      var step := Step(before.state, kind);
      WalkAppend(NoList, before.blocks, step.blocks);
      StepWalks(before.state, kind);
    }
  }

  /** Closing the open list, if any, reads back to no open list. */
  lemma ClosingWalks(st: ListState)
    ensures Walk(st, Closing(st)) == Some(NoList)
  {
    var c := Closing(st);
    if c != [] {
      assert c[1..] == [];
    }
  }

  /** The pass followed by the final closer is well formed. */
  lemma BlocksWellFormed(lines: seq<string>)
    ensures WellFormed(Blocks(lines))
  {
    var p := Run(Kinds(lines));
    RunWalks(Kinds(lines));
    WalkAppend(NoList, p.blocks, Closing(p.state));
    ClosingWalks(p.state);
  }

  /** Every formatted document is well formed: no list is left open at the end. */
  lemma DocumentWellFormed(text: string)
    ensures WellFormed(Document(text))
  {
    BlocksWellFormed(Split(Embolden(text)));
  }

  /** 1 when `st` is inside an ordered list. */
  function OlDepth(st: ListState): nat {
    if st == InOrdered then 1 else 0
  }

  /** 1 when `st` is inside an unordered list. */
  function UlDepth(st: ListState): nat {
    if st == InUnordered then 1 else 0
  }

  /** One accepted block changes the depth of each kind of list by its opener minus its closer. */
  lemma AcceptCounts(st: ListState, b: Block, next: ListState)
    requires Accept(st, b) == Some(next)
    ensures (if b == OlOpen then 1 else 0) + OlDepth(st) == (if b == OlClose then 1 else 0) + OlDepth(next)
    ensures (if b == UlOpen then 1 else 0) + UlDepth(st) == (if b == UlClose then 1 else 0) + UlDepth(next)
  {
  }

  /** Along a walk, openers minus closers of each list kind follow the list state. */
  lemma {:induction false} WalkCounts(st: ListState, doc: seq<Block>, last: ListState)
    requires Walk(st, doc) == Some(last)
    ensures multiset(doc)[OlOpen] + OlDepth(st) == multiset(doc)[OlClose] + OlDepth(last)
    ensures multiset(doc)[UlOpen] + UlDepth(st) == multiset(doc)[UlClose] + UlDepth(last)
    decreases |doc|
  {
    if doc != [] {
      var next := Accept(st, doc[0]).value;
      AcceptCounts(st, doc[0], next);
      WalkCounts(next, doc[1..], last);
      assert multiset(doc) == multiset{doc[0]} + multiset(doc[1..]) by {
        assert doc == [doc[0]] + doc[1..];
      }
    }
  }

  /** A walk that succeeds also succeeds on every prefix. */
  lemma {:induction false} WalkPrefix(st: ListState, doc: seq<Block>, k: nat)
    requires k <= |doc| && Walk(st, doc).Some?
    ensures Walk(st, doc[..k]).Some?
    decreases k
  {
    if k > 0 {
      var next := Accept(st, doc[0]).value;
      assert doc[..k][1..] == doc[1..][..k - 1];
      WalkPrefix(next, doc[1..], k - 1);
    }
  }

  /**
   * The output is balanced: as many `<ol>` openers as `</ol>` closers and as
   * many `<ul>` openers as `</ul>` closers.
   */
  lemma DocumentBalanced(text: string)
    ensures multiset(Document(text))[OlOpen] == multiset(Document(text))[OlClose]
    ensures multiset(Document(text))[UlOpen] == multiset(Document(text))[UlClose]
  {
    DocumentWellFormed(text);
    WalkCounts(NoList, Document(text), NoList);
  }

  /** In every prefix of a well-formed document at most one list is open. */
  lemma WellFormedPrefix(doc: seq<Block>, k: nat)
    requires WellFormed(doc) && k <= |doc|
    ensures var p := multiset(doc[..k]);
      p[OlClose] <= p[OlOpen] && p[UlClose] <= p[UlOpen]
      && p[OlOpen] + p[UlOpen] <= p[OlClose] + p[UlClose] + 1
  {
    WalkPrefix(NoList, doc, k);
    var st := Walk(NoList, doc[..k]).value;
    WalkCounts(NoList, doc[..k], st);
  }

  /**
   * At every point of the output at most one list is open: in each prefix the
   * openers of a kind are at least its closers, and the openers of both kinds
   * together exceed the closers of both kinds by at most one.
   */
  lemma AtMostOneListOpen(text: string, k: nat)
    requires k <= |Document(text)|
    ensures var p := multiset(Document(text)[..k]);
      p[OlClose] <= p[OlOpen] && p[UlClose] <= p[UlOpen]
      && p[OlOpen] + p[UlOpen] <= p[OlClose] + p[UlClose] + 1
  {
    DocumentWellFormed(text);
    WellFormedPrefix(Document(text), k);
  }

  // ---------------------------------------------------------------------------
  // One item, paragraph or spacer per line, in order

  predicate IsContent(b: Block) {
    b.OlItem? || b.UlItem? || b.Para? || b.Spacer?
  }

  /** The items, paragraphs and spacers of `doc`, in order: everything but openers and closers. */
  function Contents(doc: seq<Block>): seq<Block>
    decreases |doc|
  {
    if doc == [] then []
    else if IsContent(doc[|doc| - 1]) then Contents(doc[..|doc| - 1]) + [doc[|doc| - 1]]
    else Contents(doc[..|doc| - 1])
  }

  lemma {:induction false} ContentsAppend(a: seq<Block>, b: seq<Block>)
    ensures Contents(a + b) == Contents(a) + Contents(b)
    decreases |b|
  {
    if b == [] {
      assert a + b == a;
    } else {
      var n := |b| - 1;
      assert (a + b)[..|a + b| - 1] == a + b[..n] && (a + b)[|a + b| - 1] == b[n];
      ContentsAppend(a, b[..n]);
    }
  }

  /** Openers and closers alone hold no content. */
  lemma {:induction false} MarkersOnly(ms: seq<Block>)
    requires forall i :: 0 <= i < |ms| ==> !IsContent(ms[i])
    ensures Contents(ms) == []
    decreases |ms|
  {
    if ms != [] {
      MarkersOnly(ms[..|ms| - 1]);
    }
  }

  /** The blocks of one line hold exactly one item, paragraph or spacer: the line's own. */
  lemma StepContents(st: ListState, kind: LineKind)
    ensures Contents(Step(st, kind).blocks) == [LineBlock(kind)]
  {
    var markers := Markers(st, kind);
    MarkersOnly(markers);
    ContentsAppend(markers, [LineBlock(kind)]);
    assert [LineBlock(kind)][..0] == [];
  }

  /** The item, paragraph or spacer of each line, in line order. */
  function LineBlocks(kinds: seq<LineKind>): (r: seq<Block>)
    ensures |r| == |kinds|
    ensures forall i :: 0 <= i < |kinds| ==> r[i] == LineBlock(kinds[i])
    decreases |kinds|
  {
    if kinds == [] then [] else LineBlocks(kinds[..|kinds| - 1]) + [LineBlock(kinds[|kinds| - 1])]
  }

  /** The pass emits, besides openers and closers, exactly one block per line, in line order. */
  lemma {:induction false} RunContents(kinds: seq<LineKind>)
    ensures Contents(Run(kinds).blocks) == LineBlocks(kinds)
    decreases |kinds|
  {
    if kinds != [] {
      var init := kinds[..|kinds| - 1];
      var before := Run(init);
      RunContents(init);
      var step := Step(before.state, kinds[|kinds| - 1]);
      ContentsAppend(before.blocks, step.blocks);
      StepContents(before.state, kinds[|kinds| - 1]);
    }
  }

  /** The pass and the final closer hold exactly one item, paragraph or spacer per line kind, in order. */
  lemma PassContents(kinds: seq<LineKind>)
    ensures Contents(Run(kinds).blocks + Closing(Run(kinds).state)) == LineBlocks(kinds)
  {
    var p := Run(kinds);
    RunContents(kinds);
    ContentsAppend(p.blocks, Closing(p.state));
    MarkersOnly(Closing(p.state));
    assert LineBlocks(kinds) + [] == LineBlocks(kinds);
  }

  /** Every line contributes exactly one item, paragraph or spacer, in line order. */
  lemma BlocksFollowLines(lines: seq<string>)
    ensures Contents(Blocks(lines)) == LineBlocks(Kinds(lines))
  {
    PassContents(Kinds(lines));
  }

  /**
   * Every input line contributes exactly one item, paragraph or spacer, in input
   * order: the i-th content block of the document comes from the i-th line of the
   * input, emboldened on its own.
   */
  lemma DocumentFollowsLines(text: string)
    ensures |Contents(Document(text))| == |Split(text)|
    ensures forall i :: 0 <= i < |Split(text)| ==>
      Contents(Document(text))[i] == LineBlock(Classify(Embolden(Split(text)[i])))
  {
    var lines := Split(text);
    var bolded := Split(Embolden(text));
    LinesAfterEmbolden(text);
    BlocksFollowLines(bolded);
    var contents := Contents(Document(text));
    assert contents == LineBlocks(Kinds(bolded));
    forall i | 0 <= i < |lines|
      ensures contents[i] == LineBlock(Classify(Embolden(lines[i])))
    {
      assert bolded[i] == Embolden(lines[i]);
    }
  }

  // ---------------------------------------------------------------------------
  // Runs of list items

  /** After a non-empty prefix the open list is the one the last line belongs to. */
  lemma RunState(kinds: seq<LineKind>)
    requires kinds != []
    ensures Run(kinds).state == StateAfter(kinds[|kinds| - 1])
  {
  }

  /** A run of consecutive ordered items shares one `<ol>` opener: a later item emits only its `<li>`. */
  lemma OrderedRunSharesOpener(kinds: seq<LineKind>, i: nat)
    requires 0 < i < |kinds|
    requires kinds[i - 1].OrderedLine? && kinds[i].OrderedLine?
    ensures Run(kinds[..i + 1]).blocks == Run(kinds[..i]).blocks + [OlItem(kinds[i].item)]
  {
    assert kinds[..i + 1][..i] == kinds[..i];
    RunState(kinds[..i]);
  }

  /** A run of consecutive unordered items shares one `<ul>` opener. */
  lemma UnorderedRunSharesOpener(kinds: seq<LineKind>, i: nat)
    requires 0 < i < |kinds|
    requires kinds[i - 1].UnorderedLine? && kinds[i].UnorderedLine?
    ensures Run(kinds[..i + 1]).blocks == Run(kinds[..i]).blocks + [UlItem(kinds[i].item)]
  {
    assert kinds[..i + 1][..i] == kinds[..i];
    RunState(kinds[..i]);
  }

  /** The first item of an ordered run closes an unordered list just before it and opens `<ol>`. */
  lemma OrderedRunOpens(kinds: seq<LineKind>, i: nat)
    requires i < |kinds| && kinds[i].OrderedLine?
    requires i == 0 || !kinds[i - 1].OrderedLine?
    ensures Run(kinds[..i + 1]).blocks ==
      Run(kinds[..i]).blocks
      + (if i > 0 && kinds[i - 1].UnorderedLine? then [UlClose] else [])
      + [OlOpen, OlItem(kinds[i].item)]
  {
    assert kinds[..i + 1][..i] == kinds[..i];
    if i > 0 { RunState(kinds[..i]); }
  }

  /** The first item of an unordered run closes an ordered list just before it and opens `<ul>`. */
  lemma UnorderedRunOpens(kinds: seq<LineKind>, i: nat)
    requires i < |kinds| && kinds[i].UnorderedLine?
    requires i == 0 || !kinds[i - 1].UnorderedLine?
    ensures Run(kinds[..i + 1]).blocks ==
      Run(kinds[..i]).blocks
      + (if i > 0 && kinds[i - 1].OrderedLine? then [OlClose] else [])
      + [UlOpen, UlItem(kinds[i].item)]
  {
    assert kinds[..i + 1][..i] == kinds[..i];
    if i > 0 { RunState(kinds[..i]); }
  }

  /** A text or blank line closes the list just before it and emits its paragraph or spacer. */
  lemma PlainLineClosesList(kinds: seq<LineKind>, i: nat)
    requires i < |kinds|
    requires kinds[i].TextLine? || kinds[i] == BlankLine
    ensures Run(kinds[..i + 1]).blocks ==
      Run(kinds[..i]).blocks
      + (if i > 0 && kinds[i - 1].OrderedLine? then [OlClose]
         else if i > 0 && kinds[i - 1].UnorderedLine? then [UlClose] else [])
      + [LineBlock(kinds[i])]
  {
    assert kinds[..i + 1][..i] == kinds[..i];
    if i > 0 { RunState(kinds[..i]); }
  }

  // ---------------------------------------------------------------------------
  // Line shapes

  /** `d.` followed by one whitespace character and `x`, after trimming, is an ordered item `x`. */
  lemma OrderedLineShape(line: string, digits: string, w: char, x: string)
    requires digits != [] && forall i :: 0 <= i < |digits| ==> IsDigit(digits[i])
    requires IsWhitespace(w)
    requires Trim(line) == digits + ['.', w] + x
    ensures Classify(line) == OrderedLine(x)
  {
    var t := Trim(line);
    assert OrderedMarkerAt(t, |digits|);
    OrderedMarkerFinds(t, |digits|);
    assert t[|digits| + 2..] == x;
  }

  /** `-` or `*`, one whitespace character and `x`, after trimming, is an unordered item `x`. */
  lemma UnorderedLineShape(line: string, marker: char, w: char, x: string)
    requires marker == '-' || marker == '*'
    requires IsWhitespace(w)
    requires Trim(line) == [marker, w] + x
    ensures Classify(line) == UnorderedLine(x)
  {
    var t := Trim(line);
    assert !IsDigit(t[0]);
    assert LeadingDigits(t) == 0;
  }

  // ---------------------------------------------------------------------------
  // The source's loop

  /** The list state the two booleans of the source stand for. */
  function StateOf(inOl: bool, inUl: bool): ListState {
    if inOl then InOrdered else if inUl then InUnordered else NoList
  }

  /** Appending one block's markup extends the rendering by that block. */
  lemma RenderSnoc(doc: seq<Block>, b: Block)
    ensures RenderAll(doc + [b]) == RenderAll(doc) + Render(b)
  {
    assert (doc + [b])[..|doc|] == doc && (doc + [b])[|doc|] == b;
  }

  /**
   * The branch of the source's loop for an ordered item: it closes an open
   * unordered list, opens an ordered list unless one is open, and appends the item.
   */
  method OrderedItem(item: string, inOl: bool, inUl: bool) returns (out: string, inOl': bool, inUl': bool)
    requires !(inOl && inUl)
    ensures inOl' && !inUl'
    ensures out == RenderAll(Step(StateOf(inOl, inUl), OrderedLine(item)).blocks)
  {
    out, inOl', inUl' := "", inOl, inUl;
    ghost var emitted: seq<Block> := [];
    if inUl' {
      RenderSnoc(emitted, UlClose);
      out, emitted := out + UlCloseTag, emitted + [UlClose];
      inUl' := false;
    }
    if !inOl' {
      RenderSnoc(emitted, OlOpen);
      out, emitted := out + OlOpenTag, emitted + [OlOpen];
      inOl' := true;
    }
    RenderSnoc(emitted, OlItem(item));
    out, emitted := out + ("<li>" + item + "</li>"), emitted + [OlItem(item)];
    assert emitted == Step(StateOf(inOl, inUl), OrderedLine(item)).blocks;
  }

  /**
   * The branch of the source's loop for an unordered item: it closes an open
   * ordered list, opens an unordered list unless one is open, and appends the item.
   */
  method UnorderedItem(item: string, inOl: bool, inUl: bool) returns (out: string, inOl': bool, inUl': bool)
    requires !(inOl && inUl)
    ensures !inOl' && inUl'
    ensures out == RenderAll(Step(StateOf(inOl, inUl), UnorderedLine(item)).blocks)
  {
    out, inOl', inUl' := "", inOl, inUl;
    ghost var emitted: seq<Block> := [];
    if inOl' {
      RenderSnoc(emitted, OlClose);
      out, emitted := out + OlCloseTag, emitted + [OlClose];
      inOl' := false;
    }
    if !inUl' {
      RenderSnoc(emitted, UlOpen);
      out, emitted := out + UlOpenTag, emitted + [UlOpen];
      inUl' := true;
    }
    RenderSnoc(emitted, UlItem(item));
    out, emitted := out + (UlItemHead + item + UlItemTail), emitted + [UlItem(item)];
    assert emitted == Step(StateOf(inOl, inUl), UnorderedLine(item)).blocks;
  }

  /**
   * The body of the source's loop for one classified line: a list item goes
   * to its branch; any other line closes the open list, as the loop does,
   * and appends its paragraph or spacer. The two flags are never both set.
   */
  method FormatLine(kind: LineKind, inOl: bool, inUl: bool) returns (out: string, inOl': bool, inUl': bool)
    requires !(inOl && inUl)
    ensures !(inOl' && inUl')
    ensures StateOf(inOl', inUl') == Step(StateOf(inOl, inUl), kind).state
    ensures out == RenderAll(Step(StateOf(inOl, inUl), kind).blocks)
  {
    match kind {
      case OrderedLine(item) =>
        out, inOl', inUl' := OrderedItem(item, inOl, inUl);
      case UnorderedLine(item) =>
        out, inOl', inUl' := UnorderedItem(item, inOl, inUl);
      case TextLine(line) =>
        var closers := CloseLists(inOl, inUl);
        RenderSnoc(Closing(StateOf(inOl, inUl)), Para(line));
        out, inOl', inUl' := closers + (ParaHead + line + ParaTail), false, false;
      case BlankLine =>
        var closers := CloseLists(inOl, inUl);
        RenderSnoc(Closing(StateOf(inOl, inUl)), Spacer);
        out, inOl', inUl' := closers + SpacerTag, false, false;
    }
  }

  /** One more line advances the pass by one `Step` and its markup. */
  lemma RunRenders(kinds: seq<LineKind>, i: nat)
    requires i < |kinds|
    ensures Run(kinds[..i + 1]).state == Step(Run(kinds[..i]).state, kinds[i]).state
    ensures RenderAll(Run(kinds[..i + 1]).blocks)
         == RenderAll(Run(kinds[..i]).blocks) + RenderAll(Step(Run(kinds[..i]).state, kinds[i]).blocks)
  {
    assert kinds[..i + 1][..i] == kinds[..i];
    var before := Run(kinds[..i]);
    RenderAppend(before.blocks, Step(before.state, kinds[i]).blocks);
  }

  /** The rendering of a whole pass is the pass's markup and then its closers. */
  lemma BlocksRender(lines: seq<string>)
    ensures RenderAll(Blocks(lines))
         == RenderAll(Run(Kinds(lines)).blocks) + RenderAll(Closing(Run(Kinds(lines)).state))
  {
    var p := Run(Kinds(lines));
    RenderAppend(p.blocks, Closing(p.state));
  }

  /** The closers for the open list, if any, as the source appends them inside and after its loop. */
  method CloseLists(inOl: bool, inUl: bool) returns (tail: string)
    requires !(inOl && inUl)
    ensures tail == RenderAll(Closing(StateOf(inOl, inUl)))
  {
    tail := "";
    if inUl {
      RenderSnoc([], UlClose);
      tail := tail + UlCloseTag;
    }
    if inOl {
      RenderSnoc([], OlClose);
      tail := tail + OlCloseTag;
    }
  }

  /**
   * The loop of `formatResponse` over the lines of the emboldened text,
   * followed by the closers for a list still open at the end.
   */
  method FormatLines(lines: seq<string>) returns (html: string)
    ensures html == RenderAll(Blocks(lines))
  {
    ghost var kinds := Kinds(lines);
    html := "";
    var inUl, inOl := false, false;
    for i := 0 to |lines|
      invariant !(inUl && inOl)
      invariant StateOf(inOl, inUl) == Run(kinds[..i]).state
      invariant html == RenderAll(Run(kinds[..i]).blocks)
    {
      var kind := Classify(lines[i]);
      var out;
      out, inOl, inUl := FormatLine(kind, inOl, inUl);
      RunRenders(kinds, i);
      html := html + out;
    }
    assert kinds[..|lines|] == kinds;
    var tail := CloseLists(inOl, inUl);
    BlocksRender(lines);
    html := html + tail;
  }

  /**
   * `formatResponse`: bold spans first, then the text is split on line
   * feeds and rendered line by line.
   */
  method FormatResponse(text: string) returns (html: string)
    ensures html == RenderAll(Document(text))
  {
    var bolded := Embolden(text);
    var lines := Split(bolded);
    html := FormatLines(lines);
  }
}
