/**
What the two converters write into a document: `build_docx` of scripts/markdown_to_docx.py and `build`
of scripts/create_deep_tech_explainer_docx.py. A document is the sequence of items added to it; fonts,
spacing and page set-up are not modelled.
 */
module Rendering {
  import opened PyText
  import opened MarkdownBlocks
  import opened BlockRoundTrip
  import opened InlineRuns
  import opened Tables

  datatype Item =
    | Title(title: string)
    | Cover(title: string, subtitle: string)
    | TocTitle
    | TocEntry(runs: seq<TextRun>)
    | PageBreak
    | HeadingItem(level: nat, text: string)
    | ParagraphItem(runs: seq<TextRun>)
    | ListItem(numbered: bool, runs: seq<TextRun>)
    | CodeItem(text: string)
    | TableItem(cells: seq<seq<seq<TextRun>>>)
    | Spacer

  // ----- texts taken from block lines

  /** The two groups of the heading pattern, the second stripped. */
  function Level(line: string): nat { Hashes(line) }

  function HeadingText(line: string): string { Strip(line[Hashes(line)..]) }

  /** A list line without its marker; a line that is no list line is left alone. */
  function ListText(line: string, numbered: bool): string {
    if numbered then
      if IsNumbered(line) then LStrip(line[Digits(line) + 1..]) else line
    else
      if IsBullet(line) then LStrip(line[1..]) else line
  }

  /** `" ".join(lines)` */
  function JoinSpace(lines: seq<string>): string {
    if lines == [] then "" else if |lines| == 1 then lines[0] else lines[0] + " " + JoinSpace(lines[1..])
  }

  function ShownCode(line: string): string {
    if line == "" then " " else line
  }

  // ----- items per block; specification

  function ListItems(lines: seq<string>, numbered: bool): (items: seq<Item>)
    ensures |items| == |lines|
  {
    seq(|lines|, k requires 0 <= k < |lines| => ListItem(numbered, Runs(ListText(lines[k], numbered))))
  }

  function CodeItems(lines: seq<string>): (items: seq<Item>)
    ensures |items| == |lines|
  {
    seq(|lines|, k requires 0 <= k < |lines| => CodeItem(ShownCode(lines[k])))
  }

  function CellRuns(cell: string, inline: bool): seq<TextRun> {
    if inline then Runs(cell) else [TextRun(cell, Normal)]
  }

  function RowRuns(row: seq<string>, inline: bool): (r: seq<seq<TextRun>>)
    ensures |r| == |row|
  {
    seq(|row|, k requires 0 <= k < |row| => CellRuns(row[k], inline))
  }

  function GridRuns(grid: seq<seq<string>>, inline: bool): (r: seq<seq<seq<TextRun>>>)
    ensures |r| == |grid|
  {
    seq(|grid|, k requires 0 <= k < |grid| => RowRuns(grid[k], inline))
  }

  /** The simple converter cuts rows to the header, the explainer does not. */
  function TableGrid(lines: seq<string>, inline: bool): seq<seq<string>>
    requires 2 <= |lines|
  {
    if inline then WideGrid(lines) else Grid(lines)
  }

  function TableItems(lines: seq<string>, inline: bool): seq<Item>
    requires 2 <= |lines|
  {
    [TableItem(GridRuns(TableGrid(lines, inline), inline)), Spacer]
  }

  /** Blocks as the parser makes them: one heading line, at least two table lines. */
  predicate Renderable(b: Block) {
    (b.kind == Heading ==> b.lines != []) && (b.kind == Table ==> 2 <= |b.lines|)
  }

  ghost predicate AllRenderable(blocks: seq<Block>) {
    forall k :: 0 <= k < |blocks| ==> Renderable(blocks[k])
  }

  /** Everything but headings and paragraphs, which the converters treat differently. */
  function OtherItems(b: Block, inline: bool): seq<Item>
    requires Renderable(b)
  {
    match b.kind
    case BulletList => ListItems(b.lines, false)
    case NumberList => ListItems(b.lines, true)
    case Code => CodeItems(b.lines)
    case Table => TableItems(b.lines, inline)
    case _ => []
  }

  // ----- the simple converter

  function SimpleHeading(line: string, titleDone: bool): seq<Item> {
    if !IsHeading(line) then []
    else if Level(line) == 1 && !titleDone then [Title(HeadingText(line))]
    else [HeadingItem(if Level(line) > 3 then 3 else Level(line), HeadingText(line))]
  }

  function TitleDone(b: Block, titleDone: bool): bool
    requires Renderable(b)
  {
    titleDone || (b.kind == Heading && IsHeading(b.lines[0]) && Level(b.lines[0]) == 1)
  }

  function SimpleBlock(b: Block, titleDone: bool): seq<Item>
    requires Renderable(b)
  {
    match b.kind
    case Heading => SimpleHeading(b.lines[0], titleDone)
    case Paragraph => [ParagraphItem(Runs(JoinSpace(StripAll(b.lines))))]
    case _ => OtherItems(b, false)
  }

  function SimpleItems(blocks: seq<Block>, titleDone: bool): seq<Item>
    requires AllRenderable(blocks)
  {
    if blocks == [] then []
    else SimpleBlock(blocks[0], titleDone) + SimpleItems(blocks[1..], TitleDone(blocks[0], titleDone))
  }

  // ----- the explainer

  function DeepHeading(line: string): seq<Item> {
    if IsHeading(line) then [HeadingItem(if Level(line) < 3 then Level(line) else 3, HeadingText(line))] else []
  }

  function DeepBlock(b: Block): seq<Item>
    requires Renderable(b)
  {
    match b.kind
    case Heading => DeepHeading(b.lines[0])
    case Paragraph => [ParagraphItem(Runs(JoinSpace(b.lines)))]
    case _ => OtherItems(b, true)
  }

  function DeepItems(blocks: seq<Block>): seq<Item>
    requires AllRenderable(blocks)
  {
    if blocks == [] then [] else DeepBlock(blocks[0]) + DeepItems(blocks[1..])
  }

  function TocBlock(b: Block): seq<Item>
    requires Renderable(b)
  {
    if b.kind == Heading && IsHeading(b.lines[0]) && Level(b.lines[0]) == 2
    then [TocEntry(Runs(HeadingText(b.lines[0])))] else []
  }

  function TocEntries(blocks: seq<Block>): seq<Item>
    requires AllRenderable(blocks)
  {
    if blocks == [] then [] else TocBlock(blocks[0]) + TocEntries(blocks[1..])
  }

  /** `build` accepts documents that open with a heading and a paragraph. */
  predicate Opens(blocks: seq<Block>) {
    2 <= |blocks| && blocks[0].kind == Heading && blocks[1].kind == Paragraph
  }

  function Explainer(blocks: seq<Block>): seq<Item>
    requires Opens(blocks) && AllRenderable(blocks)
  {
    [Cover(HeadingText(blocks[0].lines[0]), JoinSpace(blocks[1].lines)), PageBreak, TocTitle]
    + TocEntries(blocks[2..]) + [PageBreak] + DeepItems(blocks[2..])
  }

  // ----- the programs

  lemma {:induction false} SimpleItemsSnoc(blocks: seq<Block>, b: Block, titleDone: bool)
    requires AllRenderable(blocks + [b])
    ensures AllRenderable(blocks) && Renderable(b)
    ensures SimpleItems(blocks + [b], titleDone)
         == SimpleItems(blocks, titleDone) + SimpleBlock(b, AnyTitle(blocks, titleDone))
    ensures AnyTitle(blocks + [b], titleDone) == TitleDone(b, AnyTitle(blocks, titleDone))
  {
    hide SimpleBlock, TitleDone;
    assert (blocks + [b])[|blocks|] == b;
    assert forall k :: 0 <= k < |blocks| ==> (blocks + [b])[k] == blocks[k];
    if blocks == [] {
      assert [b][1..] == [];
      assert SimpleItems([b], titleDone) == SimpleBlock(b, titleDone) + [];
    } else {
      assert (blocks + [b])[1..] == blocks[1..] + [b];
      SimpleItemsSnoc(blocks[1..], b, TitleDone(blocks[0], titleDone));
    }
  }

  /** The value of `title_done` after the given blocks. */
  function AnyTitle(blocks: seq<Block>, titleDone: bool): bool
    requires AllRenderable(blocks)
  {
    if blocks == [] then titleDone else AnyTitle(blocks[1..], TitleDone(blocks[0], titleDone))
  }

  lemma {:induction false} DeepItemsSnoc(blocks: seq<Block>, b: Block)
    requires AllRenderable(blocks + [b])
    ensures AllRenderable(blocks) && Renderable(b)
    ensures DeepItems(blocks + [b]) == DeepItems(blocks) + DeepBlock(b)
    ensures TocEntries(blocks + [b]) == TocEntries(blocks) + TocBlock(b)
  {
    hide DeepBlock, TocBlock;
    assert (blocks + [b])[|blocks|] == b;
    assert forall k :: 0 <= k < |blocks| ==> (blocks + [b])[k] == blocks[k];
    if blocks == [] {
      assert [b][1..] == [];
      assert DeepItems([b]) == DeepBlock(b) + [];
    } else {
      assert (blocks + [b])[1..] == blocks[1..] + [b];
      DeepItemsSnoc(blocks[1..], b);
    }
  }

  lemma ParsedRenderable(ls: seq<string>)
    ensures AllRenderable(Parse(ls))
  {
    hide Parse;
    ParseWellFormed(ls);
    assert forall b: Block :: WellFormed(b) ==> Renderable(b);
  }

  lemma TakeSnoc(blocks: seq<Block>, i: nat)
    requires i < |blocks| && AllRenderable(blocks)
    ensures blocks[..i + 1] == blocks[..i] + [blocks[i]]
    ensures AllRenderable(blocks[..i]) && AllRenderable(blocks[..i + 1]) && Renderable(blocks[i])
  {
  }

  /** The cells of one table row. */
  method RenderRow(row: seq<string>, inline: bool) returns (cells: seq<seq<TextRun>>)
    ensures cells == RowRuns(row, inline)
  {
    hide Runs;
    cells := [];
    for j := 0 to |row|
      invariant cells == RowRuns(row, inline)[..j]
    {
      var runs := [TextRun(row[j], Normal)];
      if inline {
        runs := AddInlineRuns(row[j]);
      }
      cells := cells + [runs];
    }
  }

  class Document {
    var items: seq<Item>

    constructor ()
      ensures items == []
    {
      items := [];
    }

    method Add(item: Item)
      modifies this
      ensures items == old(items) + [item]
    {
      items := items + [item];
    }

    /** `render_heading` */
    method RenderHeading(line: string, titleDone: bool) returns (done: bool)
      modifies this
      ensures items == old(items) + SimpleHeading(line, titleDone)
      ensures done == (titleDone || (IsHeading(line) && Level(line) == 1))
    {
      if !IsHeading(line) {
        return titleDone;
      }
      var level := Level(line);
      var text := HeadingText(line);
      if level == 1 && !titleDone {
        Add(Title(text));
        return true;
      }
      if level > 3 {
        level := 3;
      }
      Add(HeadingItem(level, text));
      return titleDone;
    }

    /** `render_list` */
    method RenderList(lines: seq<string>, numbered: bool)
      modifies this
      ensures items == old(items) + ListItems(lines, numbered)
    {
      hide Runs, ListText;
      for i := 0 to |lines|
        invariant items == old(items) + ListItems(lines, numbered)[..i]
      {
        var runs := AddInlineRuns(ListText(lines[i], numbered));
        assert ListItems(lines, numbered)[i] == ListItem(numbered, runs);
        Add(ListItem(numbered, runs));
      }
    }

    /** `render_code` */
    method RenderCode(lines: seq<string>)
      modifies this
      ensures items == old(items) + CodeItems(lines)
    {
      for i := 0 to |lines|
        invariant items == old(items) + CodeItems(lines)[..i]
      {
        Add(CodeItem(if lines[i] != "" then lines[i] else " "));
      }
    }

    /** `render_table`: plain cells in the simple converter, inline markup in the explainer. */
    method RenderTable(lines: seq<string>, inline: bool)
      requires 2 <= |lines|
      modifies this
      ensures items == old(items) + TableItems(lines, inline)
    {
      hide RowRuns, Grid, WideGrid;
      var grid: seq<seq<string>>;
      if inline {
        grid := RenderWideGrid(lines);
      } else {
        grid := RenderGrid(lines);
      }
      var cells: seq<seq<seq<TextRun>>> := [];
      for i := 0 to |grid|
        invariant cells == GridRuns(grid, inline)[..i] && items == old(items)
      {
        var row := RenderRow(grid[i], inline);
        cells := cells + [row];
      }
      assert cells == GridRuns(TableGrid(lines, inline), inline);
      Add(TableItem(cells));
      Add(Spacer);
      assert items == old(items) + ([TableItem(cells)] + [Spacer]);
    }

    method RenderOther(b: Block, inline: bool)
      requires Renderable(b)
      modifies this
      ensures items == old(items) + OtherItems(b, inline)
    {
      if b.kind == BulletList {
        RenderList(b.lines, false);
      } else if b.kind == NumberList {
        RenderList(b.lines, true);
      } else if b.kind == Code {
        RenderCode(b.lines);
      } else if b.kind == Table {
        RenderTable(b.lines, inline);
      }
    }

    /** One pass of the dispatch loop of `build_docx`. */
    method RenderSimple(b: Block, titleDone: bool) returns (done: bool)
      requires Renderable(b)
      modifies this
      ensures items == old(items) + SimpleBlock(b, titleDone)
      ensures done == TitleDone(b, titleDone)
    {
      done := titleDone;
      if b.kind == Heading {
        done := RenderHeading(b.lines[0], titleDone);
      } else if b.kind == Paragraph {
        var runs := AddInlineRuns(JoinSpace(StripAll(b.lines)));
        Add(ParagraphItem(runs));
      } else {
        RenderOther(b, false);
      }
    }

    /** `build_docx`: never fails, whatever the text. */
    method BuildDocx(text: string)
      modifies this
      ensures AllRenderable(Parse(SplitLines(text)))
      ensures items == old(items) + SimpleItems(Parse(SplitLines(text)), false)
    {
      var blocks, _ := ParseBlocks(text);
      ParsedRenderable(SplitLines(text));
      var titleDone := false;
      hide SimpleItems, SimpleBlock, Parse, TitleDone, AnyTitle;
      SimpleNothing();
      for i := 0 to |blocks|
        invariant AllRenderable(blocks[..i])
        invariant items == old(items) + SimpleItems(blocks[..i], false)
        invariant titleDone == AnyTitle(blocks[..i], false)
      {
        TakeSnoc(blocks, i);
        SimpleItemsSnoc(blocks[..i], blocks[i], false);
        titleDone := RenderSimple(blocks[i], titleDone);
      }
      assert blocks[..|blocks|] == blocks;
    }

    /** One pass of `render_blocks`. */
    method RenderDeep(b: Block)
      requires Renderable(b)
      modifies this
      ensures items == old(items) + DeepBlock(b)
    {
      if b.kind == Heading {
        if IsHeading(b.lines[0]) {
          var level := Level(b.lines[0]);
          Add(HeadingItem(if 3 < level then 3 else level, HeadingText(b.lines[0])));
        }
      } else if b.kind == Paragraph {
        var runs := AddInlineRuns(JoinSpace(b.lines));
        Add(ParagraphItem(runs));
      } else {
        RenderOther(b, true);
      }
    }

    /** `render_blocks` */
    method RenderBlocks(blocks: seq<Block>)
      requires AllRenderable(blocks)
      modifies this
      ensures items == old(items) + DeepItems(blocks)
    {
      hide *;
      DeepNothing();
      assert blocks[..0] == [];
      for i := 0 to |blocks|
        invariant AllRenderable(blocks[..i])
        invariant items == old(items) + DeepItems(blocks[..i])
      {
        TakeSnoc(blocks, i);
        DeepItemsSnoc(blocks[..i], blocks[i]);
        RenderDeep(blocks[i]);
      }
      assert blocks[..|blocks|] == blocks;
    }

    /** `add_toc` */
    method AddToc(blocks: seq<Block>)
      requires AllRenderable(blocks)
      modifies this
      ensures items == old(items) + [TocTitle] + TocEntries(blocks) + [PageBreak]
    {
      hide TocEntries;
      DeepNothing();
      Add(TocTitle);
      for i := 0 to |blocks|
        invariant AllRenderable(blocks[..i])
        invariant items == old(items) + [TocTitle] + TocEntries(blocks[..i])
      {
        TakeSnoc(blocks, i);
        DeepItemsSnoc(blocks[..i], blocks[i]);
        var b := blocks[i];
        if b.kind != Heading {
          continue;
        }
        if !IsHeading(b.lines[0]) || Level(b.lines[0]) != 2 {
          continue;
        }
        var runs := AddInlineRuns(HeadingText(b.lines[0]));
        Add(TocEntry(runs));
      }
      assert blocks[..|blocks|] == blocks;
      Add(PageBreak);
    }

    /** `build`: refuses a text unless it opens with a heading and a paragraph; the inner assertion never fails. */
    method Build(text: string) returns (ok: bool)
      modifies this
      ensures AllRenderable(Parse(SplitLines(text)))
      ensures ok == Opens(Parse(SplitLines(text)))
      ensures items == if ok then old(items) + Explainer(Parse(SplitLines(text))) else old(items)
    {
      hide Parse, Explainer, HeadingText;
      var blocks, _ := ParseBlocks(text);
      ParsedRenderable(SplitLines(text));
      if |blocks| < 2 || blocks[0].kind != Heading || blocks[1].kind != Paragraph {
        return false;
      }
      FirstIsHeading(SplitLines(text));
      assert IsHeading(blocks[0].lines[0]);
      BuildParsed(blocks);
      return true;
    }

    method BuildParsed(blocks: seq<Block>)
      requires Opens(blocks) && AllRenderable(blocks)
      modifies this
      ensures items == old(items) + Explainer(blocks)
    {
      hide *;
      RenderableParts(blocks);
      ExplainerIs(blocks);
      var title := HeadingText(blocks[0].lines[0]);
      var subtitle := JoinSpace(blocks[1].lines);
      Add(Cover(title, subtitle));
      Add(PageBreak);
      AddToc(blocks[2..]);
      RenderBlocks(blocks[2..]);
    }
  }

  lemma FirstIsHeading(ls: seq<string>)
    requires Opens(Parse(ls))
    ensures Parse(ls)[0].lines != [] && IsHeading(Parse(ls)[0].lines[0])
  {
    hide Parse, IsHeading;
    ParseWellFormed(ls);
    assert WellFormed(Parse(ls)[0]);
  }

  lemma RenderableParts(blocks: seq<Block>)
    requires Opens(blocks) && AllRenderable(blocks)
    ensures 2 <= |blocks|
    ensures Renderable(blocks[0]) && blocks[0].lines != [] && AllRenderable(blocks[2..])
  {
    assert Renderable(blocks[0]);
  }

  lemma ExplainerIs(blocks: seq<Block>)
    requires Opens(blocks) && AllRenderable(blocks)
    ensures blocks[0].lines != [] && AllRenderable(blocks[2..])
    ensures Explainer(blocks)
         == [Cover(HeadingText(blocks[0].lines[0]), JoinSpace(blocks[1].lines))] + [PageBreak]
            + ([TocTitle] + TocEntries(blocks[2..]) + [PageBreak]) + DeepItems(blocks[2..])
  {
    hide TocEntries, DeepItems, HeadingText, JoinSpace;
    RenderableParts(blocks);
  }

  lemma SimpleNothing()
    ensures SimpleItems([], false) == [] && AnyTitle([], false) == false
  {
  }

  lemma DeepNothing()
    ensures AllRenderable([]) && DeepItems([]) == [] && TocEntries([]) == []
  {
  }
}
