/**
What a document shows of its file: every item spelled out in terms of the characters of the lines it comes from,
for both converters.
 */
module RenderShows {
  import opened Trimming
  import opened PyText
  import opened MarkdownBlocks
  import opened BlockTheorems
  import opened BlockRoundTrip
  import opened BlockKinds
  import opened InlineRuns
  import opened Tables
  import opened Rendering
  import opened RenderTheorems

  // ----- lines joined into one text

  /** Where the `k`-th line starts when every line takes its length and one gap. */
  ghost function Offset(lines: seq<string>, k: nat): nat
    requires k <= |lines|
  {
    if k == 0 then 0 else Offset(lines, k - 1) + |lines[k - 1]| + 1
  }

  /** `part` stands in `t` from position `at` on. */
  ghost predicate StandsAt(t: string, at: nat, part: string) {
    at + |part| <= |t| && t[at..at + |part|] == part
  }

  /** Every line stands whole and in order in `t`, one space between two of them, and nothing else is in `t`. */
  ghost predicate HoldsLines(t: string, lines: seq<string>) {
    && (lines == [] ==> t == "")
    && (lines != [] ==> |t| + 1 == Offset(lines, |lines|))
    && (forall k: nat :: k < |lines| ==> StandsAt(t, Offset(lines, k), lines[k]))
    && forall k: nat :: 0 < k < |lines| ==> StandsAt(t, Offset(lines, k) - 1, " ")
  }

  lemma {:induction false} OffsetTail(lines: seq<string>, k: nat)
    requires 0 < k <= |lines|
    ensures Offset(lines, k) == |lines[0]| + 1 + Offset(lines[1..], k - 1)
  {
    if k > 1 {
      OffsetTail(lines, k - 1);
      assert lines[1..][k - 2] == lines[k - 1];
    }
  }

  lemma {:induction false} OffsetGrows(lines: seq<string>, k: nat)
    requires 0 < k <= |lines|
    ensures Offset(lines, k) > 0
  {
  }

  lemma StandsLater(front: string, t: string, at: nat, part: string)
    requires StandsAt(t, at, part)
    ensures StandsAt(front + t, |front| + at, part)
  {
    assert (front + t)[|front| + at..|front| + at + |part|] == t[at..at + |part|];
  }

  /** Putting one line in front moves the others back by its length and one. */
  lemma HoldsCons(lines: seq<string>, t: string, k: nat)
    requires 0 < k < |lines| && HoldsLines(t, lines[1..])
    ensures StandsAt(lines[0] + " " + t, Offset(lines, k), lines[k])
    ensures k > 1 ==> StandsAt(lines[0] + " " + t, Offset(lines, k) - 1, " ")
  {
    hide StandsAt, Offset;
    var tail := lines[1..];
    OffsetTail(lines, k);
    assert tail[k - 1] == lines[k];
    StandsLater(lines[0] + " ", t, Offset(tail, k - 1), tail[k - 1]);
    if k > 1 {
      OffsetGrows(tail, k - 1);
      StandsLater(lines[0] + " ", t, Offset(tail, k - 1) - 1, " ");
    }
  }

  lemma {:induction false} JoinHolds(lines: seq<string>)
    ensures HoldsLines(JoinSpace(lines), lines)
  {
    hide StandsAt;
    if |lines| == 1 {
      StandsWhole(lines[0]);
    } else if lines != [] {
      var t := JoinSpace(lines[1..]);
      JoinHolds(lines[1..]);
      OffsetTail(lines, |lines|);
      StandsFirst(lines[0], t);
      forall k: nat | 0 < k < |lines|
        ensures StandsAt(lines[0] + " " + t, Offset(lines, k), lines[k])
        ensures StandsAt(lines[0] + " " + t, Offset(lines, k) - 1, " ")
      {
        HoldsCons(lines, t, k);
        if k == 1 { FirstGap(lines); }
      }
    }
  }

  lemma FirstGap(lines: seq<string>)
    requires 1 <= |lines|
    ensures Offset(lines, 1) == |lines[0]| + 1
  {
    assert Offset(lines, 0) == 0;
  }

  lemma StandsWhole(line: string)
    ensures StandsAt(line, 0, line)
  {
  }

  lemma StandsFirst(line: string, t: string)
    ensures StandsAt(line + " " + t, 0, line) && StandsAt(line + " " + t, |line|, " ")
    ensures line + " " + t == (line + " ") + t
  {
  }

  // ----- list lines and headings

  /** `line` is a mark, white space and a nonempty trimmed text. */
  ghost predicate Reads(line: string, mark: string, text: string) {
    && text != "" && Trimmed(text)
    && exists pad: string :: pad != "" && All(IsSpace, pad) && line == mark + pad + text
  }

  lemma ReadsAfter(line: string, n: nat)
    requires n < |line| && IsSpace(line[n]) && !IsSpace(line[|line| - 1])
    ensures Reads(line, line[..n], LStrip(line[n..]))
    ensures Strip(line[n..]) == LStrip(line[n..])
  {
    var rest := line[n..];
    var pad := TrimStartSplits(IsSpace, rest);
    var text := LStrip(rest);
    assert line == line[..n] + pad + text;
    assert rest[0] == line[n] && rest[|rest| - 1] == line[|line| - 1];
    assert rest == pad + text;
    assert text != "" && pad != "";
    assert text[|text| - 1] == line[|line| - 1];
    assert TrimEnd(IsSpace, text) == text;
  }

  ghost predicate ShowsBullet(line: string, item: Item) {
    exists c: char, t: string :: c in {'-', '*', '+'} && Reads(line, [c], t) && item == ListItem(false, Runs(t))
  }

  ghost predicate ShowsNumber(line: string, item: Item) {
    exists d: string, t: string ::
      d != "" && All(IsDigit, d) && Reads(line, d + ".", t) && item == ListItem(true, Runs(t))
  }

  lemma BulletShown(line: string)
    requires Trimmed(line) && BulletForm(line)
    ensures ShowsBullet(line, ListItem(false, Runs(ListText(line, false))))
  {
    hide Runs, IsSpace, LStrip, BulletForm, Reads;
    BulletIs(line);
    ReadsAfter(line, 1);
    assert line[..1] == [line[0]];
  }

  lemma NumberShown(line: string)
    requires Trimmed(line) && NumberForm(line)
    ensures ShowsNumber(line, ListItem(true, Runs(ListText(line, true))))
  {
    hide Runs, IsSpace, LStrip, NumberForm, Reads, IsDigit;
    NumberIs(line);
    var n := Digits(line);
    ReadsAfter(line, n + 1);
    assert line[..n + 1] == line[..n] + ".";
    assert All(IsDigit, line[..n]);
  }

  /** The title, or a heading of at most the third level. */
  ghost predicate IsHeadingItem(item: Item, n: nat, t: string, titleLeft: bool) {
    if n == 1 && titleLeft then item == Title(t) else item == HeadingItem(if n >= 3 then 3 else n, t)
  }

  /** How a heading is shown, by its number of hashes. */
  ghost predicate ShowsHeading(line: string, items: seq<Item>, titleLeft: bool) {
    && |items| == 1
    && exists n: nat, t: string :: 1 <= n <= 6 && Reads(line, Marks(n), t) && IsHeadingItem(items[0], n, t, titleLeft)
  }

  lemma HeadingParts(line: string)
    requires Trimmed(line) && HeadingForm(line)
    ensures IsHeading(line) && 1 <= Level(line) <= 6
    ensures Reads(line, Marks(Level(line)), HeadingText(line))
  {
    hide IsSpace, LStrip, HeadingForm, Reads, Strip;
    HeadingIs(line);
    ReadsAfter(line, Hashes(line));
    assert line[..Hashes(line)] == Marks(Hashes(line));
  }

  lemma HeadingShown(line: string, titleDone: bool)
    requires Trimmed(line) && HeadingForm(line)
    ensures ShowsHeading(line, SimpleHeading(line, titleDone), !titleDone)
    ensures ShowsHeading(line, DeepHeading(line), false)
  {
    HeadingParts(line);
    hide Reads, HeadingForm, HeadingText, IsHeading, Level, Marks;
    var n: nat, t := Level(line), HeadingText(line);
    assert IsHeadingItem(SimpleHeading(line, titleDone)[0], n, t, !titleDone);
    assert IsHeadingItem(DeepHeading(line)[0], n, t, false);
  }

  /** A heading of one hash. */
  ghost predicate TopHeading(line: string) {
    exists p: char, t: string :: line == ['#', p] + t && IsSpace(p)
  }

  lemma TopIs(line: string)
    ensures TopHeading(line) <==> IsHeading(line) && Level(line) == 1
  {
    hide IsSpace;
    if IsHeading(line) && Level(line) == 1 {
      assert line == ['#', line[1]] + line[2..];
    }
    if TopHeading(line) {
      var p: char, t: string :| line == ['#', p] + t && IsSpace(p);
      HashNoSpace(p);
      assert line[1..] == [p] + t;
      assert Hashes([p] + t) == 0;
    }
  }

  lemma HashNoSpace(p: char)
    requires IsSpace(p)
    ensures p != '#'
  {
  }

  // ----- code and tables

  ghost predicate ShowsCode(line: string, item: Item) {
    item == CodeItem(if line == "" then " " else line)
  }

  /** The cells of a row as they stand between its bars. */
  ghost function Bars(cells: seq<string>): string
    requires cells != []
  {
    if |cells| == 1 then cells[0] else cells[0] + "|" + Bars(cells[1..])
  }

  /** `line` is `cells` with single bars between them and any number of bars and white space around them. */
  ghost predicate IsRowOf(line: string, cells: seq<string>) {
    && cells != []
    && (forall k :: 0 <= k < |cells| ==> '|' !in cells[k])
    && Bare(IsBar, Bars(cells))
    && exists l: string, r: string :: Strip(line) == l + Bars(cells) + r && All(IsBar, l) && All(IsBar, r)
  }

  lemma {:induction false} SplitIs(s: string)
    ensures Bars(SplitPipes(s)) == s
    ensures forall k :: 0 <= k < |SplitPipes(s)| ==> '|' !in SplitPipes(s)[k]
    decreases |s|
  {
    var n := PipeIndex(s);
    if n < |s| {
      var rest := s[n + 1..];
      SplitIs(rest);
      assert SplitPipes(s)[1..] == SplitPipes(rest);
      assert s == s[..n] + "|" + rest;
    }
  }

  /** `normalize_table_line`: the cells of the row, each trimmed. */
  lemma NormalizeIs(line: string) returns (cells: seq<string>)
    ensures IsRowOf(line, cells)
    ensures Normalize(line) == StripAll(cells)
  {
    hide Strip, SplitPipes, Bars, IsBar;
    cells := SplitPipes(StripPipes(Strip(line)));
    SplitIs(StripPipes(Strip(line)));
    var l, r := TrimSplits(IsBar, Strip(line));
  }

  /** A cell that the row may lack. */
  ghost function CellOf(cells: seq<string>, c: nat): string {
    if c < |cells| then Strip(cells[c]) else ""
  }

  /** One row of a table as shown, from its line: `width` cells in all. */
  ghost predicate ShowsRow(line: string, shown: seq<seq<TextRun>>, width: nat, deep: bool) {
    exists cells: seq<string> ::
      && IsRowOf(line, cells)
      && |shown| == width
      && forall c: nat :: c < width ==>
           shown[c] == if deep then Runs(CellOf(cells, c)) else [TextRun(CellOf(cells, c), Normal)]
  }

  /** The number of cells of a line. */
  ghost predicate HasCells(line: string, n: nat) {
    exists cells: seq<string> :: IsRowOf(line, cells) && |cells| == n
  }

  /**
  A table as shown: the header with its own cells, and a row for every line but the second, as wide as the
  header in the simple converter and as the widest row in the explainer.
   */
  ghost predicate ShowsTable(lines: seq<string>, items: seq<Item>, deep: bool) {
    && 2 <= |lines| && |items| == 2 && items[0].TableItem? && items[1] == Spacer
    && exists head: nat, width: nat ::
         && HasCells(lines[0], head)
         && (if deep then WidestOf(lines, width) else width == head)
         && ShowsGrid(lines, items[0].cells, head, width, deep)
  }

  /** The header has `head` cells and every other row `width`. */
  ghost predicate ShowsGrid(lines: seq<string>, grid: seq<seq<seq<TextRun>>>, head: nat, width: nat, deep: bool)
    requires 2 <= |lines|
  {
    && |grid| == |lines| - 1
    && ShowsRow(lines[0], grid[0], head, deep)
    && forall k: nat :: 1 <= k < |grid| ==> ShowsRow(lines[k + 1], grid[k], width, deep)
  }

  /** No line but the second has more cells, and one has as many. */
  ghost predicate WidestOf(lines: seq<string>, width: nat) {
    && (exists k: nat :: k < |lines| && k != 1 && HasCells(lines[k], width))
    && forall k: nat :: k < |lines| && k != 1 ==> HasAtMost(lines[k], width)
  }

  ghost predicate HasAtMost(line: string, width: nat) {
    exists n: nat :: n <= width && HasCells(line, n)
  }

  lemma CellsOfLine(line: string)
    ensures HasCells(line, |Normalize(line)|)
  {
    hide Normalize, IsRowOf;
    var cells := NormalizeIs(line);
  }

  lemma RowShown(line: string, width: nat, deep: bool)
    ensures ShowsRow(line, RowRuns(Fit(Normalize(line), width), deep), width, deep)
  {
    hide Normalize, IsRowOf, Runs, Strip;
    var cells := NormalizeIs(line);
    var shown := RowRuns(Fit(Normalize(line), width), deep);
    forall c: nat | c < width
      ensures shown[c] == if deep then Runs(CellOf(cells, c)) else [TextRun(CellOf(cells, c), Normal)]
    {
      assert Fit(Normalize(line), width)[c] == CellOf(cells, c);
    }
  }

  lemma WidestIs(lines: seq<string>)
    requires 2 <= |lines|
    ensures WidestOf(lines, Columns(PlannedRows(lines)))
  {
    hide Normalize, HasCells, Columns;
    var rows := PlannedRows(lines);
    var width := Columns(rows);
    var m :| 0 <= m < |rows| && |rows[m]| == width;
    var at: nat := if m == 0 then 0 else m + 1;
    assert rows[m] == Normalize(lines[at]);
    CellsOfLine(lines[at]);
    assert at < |lines| && at != 1 && HasCells(lines[at], width);
    forall k: nat | k < |lines| && k != 1
      ensures HasAtMost(lines[k], width)
    {
      var r: nat := if k == 0 then 0 else k - 1;
      assert rows[r] == Normalize(lines[k]) && |rows[r]| <= width;
      CellsOfLine(lines[k]);
    }
  }

  lemma GridRow(lines: seq<string>, k: nat, deep: bool)
    requires 2 <= |lines| && k < |lines| - 1
    ensures |TableGrid(lines, deep)| == |lines| - 1
    ensures TableGrid(lines, deep)[k] ==
              if k == 0 then Normalize(lines[0])
              else if deep then Fit(Normalize(lines[k + 1]), Columns(PlannedRows(lines)))
              else Fit(Normalize(lines[k + 1]), |Normalize(lines[0])|)
  {
    hide Normalize, Columns, Fit;
    var rows := NormalizeAll(lines);
    assert PlannedRows(lines)[1..] == rows[2..];
    assert |FitAll(rows[2..], |rows[0]|)| == |FitAll(rows[2..], Columns(PlannedRows(lines)))| == |lines| - 2;
    if k > 0 {
      assert rows[2..][k - 1] == Normalize(lines[k + 1]);
    }
  }

  lemma GridShown(lines: seq<string>, deep: bool)
    requires 2 <= |lines|
    ensures ShowsGrid(lines, GridRuns(TableGrid(lines, deep), deep), |Normalize(lines[0])|,
                      if deep then Columns(PlannedRows(lines)) else |Normalize(lines[0])|, deep)
  {
    hide Normalize, Columns, Fit, TableGrid, ShowsRow, PlannedRows, RowRuns;
    var grid := GridRuns(TableGrid(lines, deep), deep);
    var head := |Normalize(lines[0])|;
    GridRow(lines, 0, deep);
    FitExact(Normalize(lines[0]));
    RowShown(lines[0], head, deep);
    forall k: nat | 1 <= k < |grid|
      ensures ShowsRow(lines[k + 1], grid[k], if deep then Columns(PlannedRows(lines)) else head, deep)
    {
      GridRow(lines, k, deep);
      RowShown(lines[k + 1], if deep then Columns(PlannedRows(lines)) else head, deep);
    }
  }

  lemma TableShown(lines: seq<string>, deep: bool)
    requires 2 <= |lines|
    ensures ShowsTable(lines, TableItems(lines, deep), deep)
  {
    hide Normalize, Columns, TableGrid, HasCells, PlannedRows, WidestOf, GridRuns, ShowsGrid;
    GridShown(lines, deep);
    CellsOfLine(lines[0]);
    WidestIs(lines);
  }

  // ----- blocks

  /** What a block shows, kind by kind. */
  ghost predicate ShowsBlock(b: Block, items: seq<Item>, deep: bool, titleLeft: bool) {
    match b.kind
    case Heading => b.lines != [] && ShowsHeading(b.lines[0], items, titleLeft)
    case Paragraph => exists t: string :: HoldsLines(t, b.lines) && items == [ParagraphItem(Runs(t))]
    case BulletList =>
      |items| == |b.lines| && forall k: nat :: k < |items| ==> ShowsBullet(b.lines[k], items[k])
    case NumberList =>
      |items| == |b.lines| && forall k: nat :: k < |items| ==> ShowsNumber(b.lines[k], items[k])
    case Code =>
      |items| == |b.lines| && forall k: nat :: k < |items| ==> ShowsCode(b.lines[k], items[k])
    case Table => ShowsTable(b.lines, items, deep)
  }

  /** The simple converter strips the lines of a paragraph, which are stripped already. */
  lemma ParagraphShown(b: Block, titleDone: bool)
    requires b.kind == Paragraph && AllTrimmed(b.lines)
    ensures ShowsBlock(b, SimpleBlock(b, titleDone), false, !titleDone)
    ensures ShowsBlock(b, DeepBlock(b), true, false)
  {
    hide HoldsLines, Runs, JoinSpace, StripAll, AllTrimmed;
    StripAllTrimmed(b.lines);
    JoinHolds(b.lines);
  }

  lemma ListShown(b: Block, titleDone: bool)
    requires HasForm(b) && (b.kind == BulletList || b.kind == NumberList)
    ensures ShowsBlock(b, SimpleBlock(b, titleDone), false, !titleDone)
    ensures ShowsBlock(b, DeepBlock(b), true, false)
  {
    hide Runs, Trimmed, BulletForm, NumberForm, ListText, ShowsBullet, ShowsNumber;
    forall k: nat | k < |b.lines|
      ensures b.kind == BulletList ==> ShowsBullet(b.lines[k], ListItems(b.lines, false)[k])
      ensures b.kind == NumberList ==> ShowsNumber(b.lines[k], ListItems(b.lines, true)[k])
    {
      if b.kind == BulletList {
        BulletShown(b.lines[k]);
      } else {
        NumberShown(b.lines[k]);
      }
    }
  }

  /** Every block of the form of its kind is shown as it should be, by both converters. */
  lemma BlockShown(b: Block, titleDone: bool)
    requires HasForm(b)
    ensures Renderable(b)
    ensures ShowsBlock(b, SimpleBlock(b, titleDone), false, !titleDone)
    ensures ShowsBlock(b, DeepBlock(b), true, false)
  {
    hide Runs, Trimmed, BulletForm, NumberForm, HeadingForm, OpensTable, TextLine, ListText, ShowsHeading, ShowsTable,
         SimpleHeading, DeepHeading, TableItems, Strip;
    match b.kind
    case Heading => HeadingShown(b.lines[0], titleDone);
    case Paragraph => ParagraphShown(b, titleDone);
    case BulletList => ListShown(b, titleDone);
    case NumberList => ListShown(b, titleDone);
    case Code =>
    case Table =>
      TableShown(b.lines, false);
      TableShown(b.lines, true);
  }

  // ----- documents

  /** A document shows its blocks one after the other; in the simple converter the first top heading is the title. */
  ghost predicate ShowsAll(blocks: seq<Block>, items: seq<Item>, deep: bool, titleLeft: bool)
    decreases |blocks|
  {
    if blocks == [] then items == []
    else
      exists n: nat ::
        && n <= |items|
        && ShowsBlock(blocks[0], items[..n], deep, titleLeft)
        && ShowsAll(blocks[1..], items[n..], deep, titleLeft && !IsTop(blocks[0]))
  }

  ghost predicate IsTop(b: Block) {
    b.kind == Heading && b.lines != [] && TopHeading(b.lines[0])
  }

  ghost predicate AllHaveForm(blocks: seq<Block>) {
    forall k: nat :: k < |blocks| ==> HasForm(blocks[k])
  }

  lemma ShowsCons(blocks: seq<Block>, first: seq<Item>, rest: seq<Item>, deep: bool, titleLeft: bool)
    requires blocks != [] && ShowsBlock(blocks[0], first, deep, titleLeft)
    requires ShowsAll(blocks[1..], rest, deep, titleLeft && !IsTop(blocks[0]))
    ensures ShowsAll(blocks, first + rest, deep, titleLeft)
  {
    hide ShowsBlock, IsTop;
    assert (first + rest)[..|first|] == first && (first + rest)[|first|..] == rest;
  }

  lemma TitleLeft(b: Block, titleDone: bool)
    requires Renderable(b)
    ensures !TitleDone(b, titleDone) <==> !titleDone && !IsTop(b)
  {
    hide TopHeading, IsHeading, Level;
    if b.kind == Heading {
      TopIs(b.lines[0]);
    }
  }

  lemma Unfold(blocks: seq<Block>, titleDone: bool)
    requires AllHaveForm(blocks) && blocks != []
    requires AllRenderable(blocks)
    ensures HasForm(blocks[0]) && AllHaveForm(blocks[1..]) && AllRenderable(blocks[1..]) && Renderable(blocks[0])
    ensures SimpleItems(blocks, titleDone) ==
            SimpleBlock(blocks[0], titleDone) + SimpleItems(blocks[1..], TitleDone(blocks[0], titleDone))
    ensures DeepItems(blocks) == DeepBlock(blocks[0]) + DeepItems(blocks[1..])
  {
    hide HasForm, SimpleBlock, DeepBlock, TitleDone;
  }

  lemma {:induction false} AllShown(blocks: seq<Block>, titleDone: bool)
    requires AllHaveForm(blocks) && AllRenderable(blocks)
    ensures ShowsAll(blocks, SimpleItems(blocks, titleDone), false, !titleDone)
    ensures ShowsAll(blocks, DeepItems(blocks), true, false)
    decreases |blocks|
  {
    if blocks != [] {
      hide *;
      Unfold(blocks, titleDone);
      var b, rest := blocks[0], blocks[1..];
      BlockShown(b, titleDone);
      TitleLeft(b, titleDone);
      AllShown(rest, TitleDone(b, titleDone));
      ShowsCons(blocks, SimpleBlock(b, titleDone), SimpleItems(rest, TitleDone(b, titleDone)), false, !titleDone);
      ShowsCons(blocks, DeepBlock(b), DeepItems(rest), true, false);
    }
  }

  /**
  From the file to the document: the blocks hold what a one-bit reading keeps of the lines, and the document
  shows the blocks, character by character.
   */
  lemma {:induction false} FileToDocument(ls: seq<string>)
    ensures AllRenderable(Parse(ls))
    ensures Flatten(Parse(ls)) == Kept(ls, false)
    ensures ShowsAll(Parse(ls), SimpleItems(Parse(ls), false), false, true)
    ensures ShowsAll(Parse(ls), DeepItems(Parse(ls)), true, false)
  {
    hide *;
    Conservation(ls);
    ParsedRenderable(ls);
    ParsedForms(ls);
    AllShown(Parse(ls), false);
  }

  lemma ParsedForms(ls: seq<string>)
    ensures AllHaveForm(Parse(ls))
  {
    hide Parse, HasForm;
    forall k: nat | k < |Parse(ls)|
      ensures HasForm(Parse(ls)[k])
    {
      BlockForms(ls, k);
    }
  }

  /**
  The document of the explainer: a cover with the text of the first heading and the lines of the first paragraph, the
  contents, and then the other blocks; the contents list what is shown with style Heading 2.
   */
  lemma ExplainerShown(ls: seq<string>)
    requires Opens(Parse(ls)) && AllRenderable(Parse(ls))
    ensures exists n: nat, title: string, subtitle: string, body: seq<Item> ::
              && Reads(Parse(ls)[0].lines[0], Marks(n), title)
              && HoldsLines(subtitle, Parse(ls)[1].lines)
              && ShowsAll(Parse(ls)[2..], body, true, false)
              && Explainer(Parse(ls)) == [Cover(title, subtitle), PageBreak, TocTitle]
                                         + TocOf(SecondLevelTexts(body)) + [PageBreak] + body
  {
    var blocks := Parse(ls);
    hide Parse, HeadingForm, HoldsLines, Reads, JoinSpace, HeadingText, TocEntries, DeepItems, Trimmed, TextLine, Level,
         Marks, OpensTable, ShowsAll, TocOf, SecondLevelTexts;
    BlockForms(ls, 0);
    HeadingParts(blocks[0].lines[0]);
    JoinHolds(blocks[1].lines);
    ParsedForms(ls);
    AllShown(blocks[2..], true);
    TocAgrees(blocks[2..]);
  }
}
