/**
Properties of the rendered documents that span the parser, the inline formatter and the two converters.
 */
module RenderTheorems {
  import opened Trimming
  import opened PyText
  import opened MarkdownBlocks
  import opened BlockRoundTrip
  import opened InlineRuns
  import opened InlineTheorems
  import opened Tables
  import opened Rendering

  // ----- headings and titles

  /** The heading lines of a document, in order. */
  function Headings(blocks: seq<Block>): seq<string>
    requires AllRenderable(blocks)
  {
    if blocks == [] then []
    else (if blocks[0].kind == Heading then [blocks[0].lines[0]] else []) + Headings(blocks[1..])
  }

  /** Parsed heading blocks match the heading pattern, so that no heading is ever skipped. */
  ghost predicate HeadingsMatch(blocks: seq<Block>) {
    && AllRenderable(blocks)
    && forall k :: 0 <= k < |blocks| && blocks[k].kind == Heading ==> IsHeading(blocks[k].lines[0])
  }

  lemma ParsedHeadingsMatch(ls: seq<string>)
    ensures HeadingsMatch(Parse(ls))
  {
    hide Parse, IsHeading;
    ParseWellFormed(ls);
    ParsedRenderable(ls);
    var blocks := Parse(ls);
    forall k | 0 <= k < |blocks| && blocks[k].kind == Heading
      ensures IsHeading(blocks[k].lines[0])
    {
      assert WellFormed(blocks[k]);
    }
  }

  predicate IsHead(item: Item) {
    item.Title? || item.HeadingItem?
  }

  function HeadItems(items: seq<Item>): seq<Item> {
    if items == [] then [] else (if IsHead(items[0]) then [items[0]] else []) + HeadItems(items[1..])
  }

  lemma {:induction false} HeadItemsAppend(a: seq<Item>, b: seq<Item>)
    ensures HeadItems(a + b) == HeadItems(a) + HeadItems(b)
  {
    if a == [] {
      assert a + b == b;
    } else {
      assert (a + b)[1..] == a[1..] + b;
      HeadItemsAppend(a[1..], b);
    }
  }

  lemma {:induction false} NoHeads(items: seq<Item>)
    requires forall k :: 0 <= k < |items| ==> !IsHead(items[k])
    ensures HeadItems(items) == []
  {
    if items != [] {
      NoHeads(items[1..]);
    }
  }

  function ShownLevel(line: string): nat {
    if Level(line) > 3 then 3 else Level(line)
  }

  /** The `k`-th heading becomes the title exactly if it is the first of level 1; else a heading of level up to 3. */
  function ExpectedHead(hs: seq<string>, k: nat, titleDone: bool): Item
    requires k < |hs|
  {
    if Level(hs[k]) == 1 && !titleDone && forall j :: 0 <= j < k ==> Level(hs[j]) != 1
    then Title(HeadingText(hs[k]))
    else HeadingItem(ShownLevel(hs[k]), HeadingText(hs[k]))
  }

  lemma {:induction false} BlockHeads(b: Block, titleDone: bool)
    requires Renderable(b) && (b.kind == Heading ==> IsHeading(b.lines[0]))
    ensures b.kind != Heading ==> HeadItems(SimpleBlock(b, titleDone)) == [] && HeadItems(DeepBlock(b)) == []
    ensures b.kind == Heading ==> HeadItems(SimpleBlock(b, titleDone)) == SimpleBlock(b, titleDone)
    ensures b.kind == Heading ==> SimpleBlock(b, titleDone) == [ExpectedHead([b.lines[0]], 0, titleDone)]
  {
    hide IsHeading, HeadingText, Runs, JoinSpace, TableGrid, StripAll, Hashes;
    if b.kind != Heading {
      NoHeads(SimpleBlock(b, titleDone));
      NoHeads(DeepBlock(b));
    } else {
      var item := ExpectedHead([b.lines[0]], 0, titleDone);
      assert SimpleBlock(b, titleDone) == [item];
      assert HeadItems([item]) == [item] + HeadItems([]);
    }
  }

  lemma ExpectedShift(h: string, hs: seq<string>, k: nat, titleDone: bool)
    requires k < |hs|
    ensures ExpectedHead([h] + hs, k + 1, titleDone) == ExpectedHead(hs, k, titleDone || Level(h) == 1)
  {
    hide Hashes;
    var all := [h] + hs;
    assert all[k + 1] == hs[k] && all[0] == h;
    assert Level(h) == 1 ==> exists j :: 0 <= j < k + 1 && Level(all[j]) == 1;
    if forall j :: 0 <= j < k ==> Level(hs[j]) != 1 {
      assert forall j :: 0 < j < k + 1 ==> all[j] == hs[j - 1];
    } else {
      var j :| 0 <= j < k && Level(hs[j]) == 1;
      assert all[j + 1] == hs[j];
    }
  }

  /**
  Titles: the simple converter shows every heading once, in order; exactly the first level-1 heading
  becomes the title and every other one a heading of its level, at most 3.
   */
  lemma {:induction false} SimpleHeads(blocks: seq<Block>, titleDone: bool)
    requires HeadingsMatch(blocks)
    ensures AsExpected(HeadItems(SimpleItems(blocks, titleDone)), Headings(blocks), titleDone)
  {
    hide *;
    HeadsUnfold(blocks, titleDone);
    if blocks != [] {
      var b, rest := blocks[0], blocks[1..];
      var done := TitleDone(b, titleDone);
      SimpleHeads(rest, done);
      HeadItemsAppend(SimpleBlock(b, titleDone), SimpleItems(rest, done));
      BlockHeads(b, titleDone);
      if b.kind == Heading {
        DoneAfterHeading(b, titleDone);
        ExpectedCons(b.lines[0], Headings(rest), HeadItems(SimpleItems(rest, done)), titleDone);
      } else {
        DoneAfterOther(b, titleDone);
      }
    }
  }

  lemma HeadsUnfold(blocks: seq<Block>, titleDone: bool)
    requires HeadingsMatch(blocks)
    ensures AllRenderable(blocks)
    ensures blocks == [] ==> AsExpected(HeadItems(SimpleItems(blocks, titleDone)), Headings(blocks), titleDone)
    ensures blocks != [] ==>
              && Renderable(blocks[0]) && HeadingsMatch(blocks[1..]) && AllRenderable(blocks[1..])
              && (blocks[0].kind == Heading ==> blocks[0].lines != [] && IsHeading(blocks[0].lines[0]))
              && SimpleItems(blocks, titleDone)
                 == SimpleBlock(blocks[0], titleDone) + SimpleItems(blocks[1..], TitleDone(blocks[0], titleDone))
              && Headings(blocks)
                 == (if blocks[0].kind == Heading then [blocks[0].lines[0]] else []) + Headings(blocks[1..])
  {
    hide SimpleBlock, IsHeading, TitleDone;
    if blocks != [] {
      assert Renderable(blocks[0]);
      assert forall k :: 0 <= k < |blocks| - 1 ==> blocks[1..][k] == blocks[k + 1];
    }
  }

  lemma DoneAfterHeading(b: Block, titleDone: bool)
    requires Renderable(b) && b.kind == Heading && IsHeading(b.lines[0])
    ensures TitleDone(b, titleDone) == (titleDone || Level(b.lines[0]) == 1)
  {
  }

  lemma DoneAfterOther(b: Block, titleDone: bool)
    requires Renderable(b) && b.kind != Heading
    ensures TitleDone(b, titleDone) == titleDone
    ensures forall items: seq<Item> :: [] + items == items
    ensures forall hs: seq<string> :: [] + hs == hs
  {
  }

  /** Heads shown for the headings `hs`. */
  ghost predicate AsExpected(heads: seq<Item>, hs: seq<string>, titleDone: bool) {
    && |heads| == |hs|
    && forall k :: 0 <= k < |hs| ==> heads[k] == ExpectedHead(hs, k, titleDone)
  }

  lemma ExpectedCons(h: string, hs: seq<string>, heads: seq<Item>, titleDone: bool)
    requires AsExpected(heads, hs, titleDone || Level(h) == 1)
    ensures AsExpected([ExpectedHead([h], 0, titleDone)] + heads, [h] + hs, titleDone)
  {
    hide ExpectedHead, Hashes;
    FirstExpected(h, hs, titleDone);
    forall k | 0 <= k < |hs|
      ensures ExpectedHead([h] + hs, k + 1, titleDone) == heads[k]
    {
      ExpectedShift(h, hs, k, titleDone);
    }
  }

  lemma FirstExpected(h: string, hs: seq<string>, titleDone: bool)
    ensures ExpectedHead([h] + hs, 0, titleDone) == ExpectedHead([h], 0, titleDone)
  {
  }

  // ----- the table of contents

  /** The texts shown with style Heading 2. */
  function SecondLevelTexts(items: seq<Item>): seq<string> {
    if items == [] then []
    else (if items[0].HeadingItem? && items[0].level == 2 then [items[0].text] else []) + SecondLevelTexts(items[1..])
  }

  function TocOf(texts: seq<string>): seq<Item> {
    if texts == [] then [] else [TocEntry(Runs(texts[0]))] + TocOf(texts[1..])
  }

  lemma {:induction false} SecondLevelAppend(a: seq<Item>, b: seq<Item>)
    ensures SecondLevelTexts(a + b) == SecondLevelTexts(a) + SecondLevelTexts(b)
  {
    if a == [] {
      assert a + b == b;
    } else {
      assert (a + b)[1..] == a[1..] + b;
      SecondLevelAppend(a[1..], b);
    }
  }

  lemma {:induction false} NoSecondLevel(items: seq<Item>)
    requires forall k :: 0 <= k < |items| ==> !items[k].HeadingItem?
    ensures SecondLevelTexts(items) == []
  {
    if items != [] {
      NoSecondLevel(items[1..]);
    }
  }

  lemma {:induction false} TocOfBlock(b: Block)
    requires Renderable(b)
    ensures |SecondLevelTexts(DeepBlock(b))| <= 1
    ensures TocOf(SecondLevelTexts(DeepBlock(b))) == TocBlock(b)
  {
    hide IsHeading, HeadingText, Runs, JoinSpace, TableGrid, StripAll, Hashes;
    if b.kind != Heading {
      NoSecondLevel(DeepBlock(b));
    } else if IsHeading(b.lines[0]) {
      var item := DeepBlock(b)[0];
      assert DeepBlock(b) == [item];
      assert SecondLevelTexts([item]) == (if item.level == 2 then [item.text] else []) + SecondLevelTexts([]);
    }
  }

  lemma {:induction false} TocOfAppend(a: seq<string>, b: seq<string>)
    ensures TocOf(a + b) == TocOf(a) + TocOf(b)
  {
    if a == [] {
      assert a + b == b;
    } else {
      hide Runs;
      assert (a + b)[1..] == a[1..] + b;
      TocOfAppend(a[1..], b);
    }
  }

  /**
  The table of contents, written before the body and from the blocks, lists exactly the texts that the
  body later shows with style Heading 2, in the same order.
   */
  lemma {:induction false} TocAgrees(blocks: seq<Block>)
    requires AllRenderable(blocks)
    ensures TocEntries(blocks) == TocOf(SecondLevelTexts(DeepItems(blocks)))
  {
    if blocks != [] {
      hide DeepBlock, TocBlock, TocOf, SecondLevelTexts, Runs;
      var b, rest := blocks[0], blocks[1..];
      TocAgrees(rest);
      TocOfBlock(b);
      SecondLevelAppend(DeepBlock(b), DeepItems(rest));
      TocOfAppend(SecondLevelTexts(DeepBlock(b)), SecondLevelTexts(DeepItems(rest)));
    }
  }

  // ----- no newline reaches the inline formatter

  predicate OneLine(s: string) {
    '\n' !in s
  }

  lemma {:induction false} JoinOneLine(lines: seq<string>)
    requires forall k :: 0 <= k < |lines| ==> OneLine(lines[k])
    ensures OneLine(JoinSpace(lines))
  {
    if |lines| > 1 {
      JoinOneLine(lines[1..]);
    }
  }

  lemma StripOneLine(s: string)
    requires OneLine(s)
    ensures OneLine(Strip(s)) && OneLine(LStrip(s))
  {
    var left, right := TrimSplits(IsSpace, s);
    var _ := TrimStartSplits(IsSpace, s);
    assert forall k :: 0 <= k < |Strip(s)| ==> Strip(s)[k] == s[|left| + k];
  }

  lemma PipesOneLine(s: string)
    requires OneLine(s)
    ensures OneLine(StripPipes(s))
  {
    var left, right := TrimSplits(IsBar, s);
    assert forall k :: 0 <= k < |StripPipes(s)| ==> StripPipes(s)[k] == s[|left| + k];
  }

  lemma {:induction false} SplitOneLine(s: string)
    requires OneLine(s)
    ensures forall k :: 0 <= k < |SplitPipes(s)| ==> OneLine(SplitPipes(s)[k])
    decreases |s|
  {
    var n := PipeIndex(s);
    if n < |s| {
      SplitOneLine(s[n + 1..]);
    }
  }

  lemma NormalizeOneLine(line: string)
    requires OneLine(line)
    ensures forall k :: 0 <= k < |Normalize(line)| ==> OneLine(Normalize(line)[k])
  {
    hide Strip, StripPipes, SplitPipes;
    StripOneLine(line);
    PipesOneLine(Strip(line));
    var cells := SplitPipes(StripPipes(Strip(line)));
    SplitOneLine(StripPipes(Strip(line)));
    forall k | 0 <= k < |cells|
      ensures OneLine(Strip(cells[k]))
    {
      StripOneLine(cells[k]);
    }
  }

  ghost predicate GridOnLines(grid: seq<seq<string>>) {
    forall r, c :: 0 <= r < |grid| && 0 <= c < |grid[r]| ==> OneLine(grid[r][c])
  }

  lemma {:induction false} GridOneLine(lines: seq<string>, inline: bool)
    requires 2 <= |lines| && forall k :: 0 <= k < |lines| ==> OneLine(lines[k])
    ensures GridOnLines(TableGrid(lines, inline))
  {
    hide Normalize, Columns;
    forall r | 0 <= r < |lines|
      ensures forall c :: 0 <= c < |Normalize(lines[r])| ==> OneLine(Normalize(lines[r])[c])
    {
      NormalizeOneLine(lines[r]);
    }
  }

  /** All the texts of a block that a converter hands to the inline formatter are on one line. */
  ghost predicate InlineTextsOneLine(b: Block)
    requires Renderable(b)
  {
    match b.kind
    case Heading => OneLine(HeadingText(b.lines[0]))
    case Paragraph => OneLine(JoinSpace(b.lines)) && OneLine(JoinSpace(StripAll(b.lines)))
    case BulletList => forall k :: 0 <= k < |b.lines| ==> OneLine(ListText(b.lines[k], false))
    case NumberList => forall k :: 0 <= k < |b.lines| ==> OneLine(ListText(b.lines[k], true))
    case Table => GridOnLines(TableGrid(b.lines, false)) && GridOnLines(TableGrid(b.lines, true))
    case Code => true
  }

  lemma ListTextOneLine(line: string, numbered: bool)
    requires OneLine(line)
    ensures OneLine(ListText(line, numbered))
  {
    hide LStrip;
    if numbered && IsNumbered(line) {
      StripOneLine(line[Digits(line) + 1..]);
    } else if !numbered && IsBullet(line) {
      StripOneLine(line[1..]);
    }
  }

  lemma BlockOneLine(b: Block)
    requires Renderable(b) && SingleLines(b.lines)
    ensures InlineTextsOneLine(b)
  {
    hide TableGrid, Normalize, Hashes, Strip, LStrip, ListText, JoinSpace;
    var ls := b.lines;
    assert forall k :: 0 <= k < |ls| ==> SingleLine(ls[k]);
    forall k | 0 <= k < |ls|
      ensures OneLine(ls[k]) && OneLine(Strip(ls[k]))
      ensures OneLine(ListText(ls[k], true)) && OneLine(ListText(ls[k], false))
    {
      StripOneLine(ls[k]);
      ListTextOneLine(ls[k], true);
      ListTextOneLine(ls[k], false);
    }
    JoinOneLine(ls);
    JoinOneLine(StripAll(ls));
    match b.kind
    case Heading => StripOneLine(ls[0][Hashes(ls[0])..]);
    case Table =>
      GridOneLine(ls, false);
      GridOneLine(ls, true);
    case _ =>
  }

  /**
  Whatever the document, the texts that reach the inline formatter are single lines, so that the text
  accounting of the formatter applies to all of them.
   */
  lemma {:induction false} InlineTextsAreLines(text: string)
    ensures var blocks := Parse(SplitLines(text));
            AllRenderable(blocks) && forall k :: 0 <= k < |blocks| ==> InlineTextsOneLine(blocks[k])
  {
    hide Parse, InlineTextsOneLine;
    var blocks := Parse(SplitLines(text));
    ParsedRenderable(SplitLines(text));
    ParseSingle(SplitLines(text));
    forall k | 0 <= k < |blocks|
      ensures InlineTextsOneLine(blocks[k])
    {
      BlockOneLine(blocks[k]);
    }
  }

  /**
  A text of the block that a converter hands to the inline formatter: a paragraph, an item of a list, a cell
  of a table in the explainer, or the entry of a heading in the contents.
   */
  ghost predicate IsInlineText(b: Block, t: string)
    requires Renderable(b)
  {
    match b.kind
    case Heading => t == HeadingText(b.lines[0])
    case Paragraph => t == JoinSpace(b.lines) || t == JoinSpace(StripAll(b.lines))
    case BulletList => exists k :: 0 <= k < |b.lines| && t == ListText(b.lines[k], false)
    case NumberList => exists k :: 0 <= k < |b.lines| && t == ListText(b.lines[k], true)
    case Table =>
      var grid := TableGrid(b.lines, true);
      exists r, c :: 0 <= r < |grid| && 0 <= c < |grid[r]| && t == grid[r][c]
    case Code => false
  }

  lemma InlineTextOneLine(b: Block, t: string)
    requires Renderable(b) && InlineTextsOneLine(b) && IsInlineText(b, t)
    ensures OneLine(t)
  {
    hide TableGrid, HeadingText, ListText, JoinSpace, StripAll, OneLine;
  }

  /**
  In no text of any document that goes through the inline formatter do more than four characters vanish,
  apart from markers of spans.
   */
  lemma {:induction false} InlineLoss(text: string, k: nat, t: string)
    requires var blocks := Parse(SplitLines(text));
             k < |blocks| && Renderable(blocks[k]) && IsInlineText(blocks[k], t)
    ensures |RunText(Runs(t))| + MarkerLength(Tokens(t)) <= |t| <= |RunText(Runs(t))| + MarkerLength(Tokens(t)) + 4
  {
    hide Parse, Runs, Tokens, IsInlineText, InlineTextsOneLine;
    InlineTextsAreLines(text);
    InlineTextOneLine(Parse(SplitLines(text))[k], t);
    Accounting(t);
  }

  // ----- the two converters agree on paragraphs

  /** The lines of a parsed paragraph are stripped already, so the converters show the same text. */
  lemma {:induction false} ParagraphsAgree(ls: seq<string>, k: nat)
    requires k < |Parse(ls)| && Parse(ls)[k].kind == Paragraph
    ensures Renderable(Parse(ls)[k])
    ensures forall titleDone :: SimpleBlock(Parse(ls)[k], titleDone) == DeepBlock(Parse(ls)[k])
  {
    hide Parse, Runs, Continues;
    ParseWellFormed(ls);
    assert WellFormed(Parse(ls)[k]);
    StripAllTrimmed(Parse(ls)[k].lines);
  }
}
