/**
Table blocks: `normalize_table_line` and the cell grid that both `render_table` functions fill, with
the round trip through the block parser.
 */
module Tables {
  import opened Trimming
  import opened PyText
  import opened MarkdownBlocks
  import opened BlockRoundTrip

  // ----- normalize_table_line

  predicate IsBar(c: char) { c == '|' }

  /** `s.strip("|")` */
  function StripPipes(s: string): string { Trim(IsBar, s) }

  /** The number of characters before the first pipe. */
  function PipeIndex(s: string): (n: nat)
    ensures n <= |s|
    ensures '|' !in s[..n]
    ensures n < |s| ==> s[n] == '|'
  {
    if s == "" || s[0] == '|' then 0
    else
      var n := 1 + PipeIndex(s[1..]);
      assert s[..n] == [s[0]] + s[1..][..n - 1];
      n
  }

  /** `s.split("|")` */
  function SplitPipes(s: string): (cells: seq<string>)
    ensures cells != []
    decreases |s|
  {
    var n := PipeIndex(s);
    if n == |s| then [s] else [s[..n]] + SplitPipes(s[n + 1..])
  }

  function Normalize(line: string): (cells: seq<string>)
    ensures cells != []
  {
    StripAll(SplitPipes(StripPipes(Strip(line))))
  }

  // ----- the grid

  /** A row cut or padded with empty cells to `n` cells. */
  function Fit(row: seq<string>, n: nat): (r: seq<string>)
    ensures |r| == n
  {
    seq(n, k requires 0 <= k < n => if k < |row| then row[k] else "")
  }

  function NormalizeAll(lines: seq<string>): (rows: seq<seq<string>>)
    ensures |rows| == |lines|
  {
    seq(|lines|, k requires 0 <= k < |lines| => Normalize(lines[k]))
  }

  function FitAll(rows: seq<seq<string>>, n: nat): (r: seq<seq<string>>)
    ensures |r| == |rows|
  {
    seq(|rows|, k requires 0 <= k < |rows| => Fit(rows[k], n))
  }

  /** The longest row. */
  function Columns(rows: seq<seq<string>>): (n: nat)
    ensures forall k :: 0 <= k < |rows| ==> |rows[k]| <= n
    ensures rows != [] ==> exists k :: 0 <= k < |rows| && |rows[k]| == n
  {
    if rows == [] then 0
    else
      var n := Columns(rows[..|rows| - 1]);
      var last := |rows[|rows| - 1]|;
      assert forall k :: 0 <= k < |rows| - 1 ==> rows[..|rows| - 1][k] == rows[k];
      if last >= n then last else
      assert rows[..|rows| - 1] != [];
      n
  }

  /** The header row, then every line after the delimiter line, cut or padded to the header. */
  function Grid(lines: seq<string>): seq<seq<string>>
    requires 2 <= |lines|
  {
    var rows := NormalizeAll(lines);
    [rows[0]] + FitAll(rows[2..], |rows[0]|)
  }

  /** The cell loops of `render_table`, for the lines of a table block. */
  method RenderGrid(lines: seq<string>) returns (grid: seq<seq<string>>)
    requires 2 <= |lines|
    ensures grid == Grid(lines)
    ensures forall k :: 0 <= k < |grid| ==> |grid[k]| == |grid[0]|
  {
    hide Normalize;
    var rows := NormalizeAll(lines);
    var headers, data := rows[0], rows[2..];
    var cols := |headers|;
    grid := [headers];
    for i := 0 to |data|
      invariant grid == [headers] + FitAll(data[..i], cols)
    {
      var cells: seq<string> := [];
      for idx := 0 to cols
        invariant cells == Fit(data[i], cols)[..idx]
      {
        cells := cells + [if idx < |data[i]| then data[i][idx] else ""];
      }
      assert cells == Fit(data[i], cols);
      assert FitAll(data[..i + 1], cols) == FitAll(data[..i], cols) + [cells];
      grid := grid + [cells];
    }
    assert data[..|data|] == data;
  }

  /** The rows that the explainer plans for: all but the delimiter line. */
  function PlannedRows(lines: seq<string>): seq<seq<string>>
    requires 2 <= |lines|
  {
    [NormalizeAll(lines)[0]] + NormalizeAll(lines)[2..]
  }

  /**
  The grid of the explainer: the table starts with the cells of the header, but its grid then gets a column
  per planned width, and every row added below has a cell per grid column.
   */
  function WideGrid(lines: seq<string>): seq<seq<string>>
    requires 2 <= |lines|
  {
    var rows := PlannedRows(lines);
    [rows[0]] + FitAll(rows[1..], Columns(rows))
  }

  /** The cell loops of the explainer's `render_table`. */
  method RenderWideGrid(lines: seq<string>) returns (grid: seq<seq<string>>)
    requires 2 <= |lines|
    ensures grid == WideGrid(lines)
  {
    hide Normalize;
    var rows := PlannedRows(lines);
    var planned := Columns(rows);
    grid := [];
    for i := 0 to |rows|
      invariant grid == ([rows[0]] + FitAll(rows[1..], planned))[..i]
    {
      var count := if i == 0 then |rows[0]| else planned;
      var cells: seq<string> := [];
      for idx := 0 to count
        invariant cells == Fit(rows[i], count)[..idx]
      {
        cells := cells + [if idx < |rows[i]| then rows[i][idx] else ""];
      }
      assert cells == Fit(rows[i], count);
      if i == 0 { FitExact(rows[0]); }
      grid := grid + [cells];
    }
  }

  /** The explainer cuts no row: every one comes back in front of its padding. */
  lemma NothingCut(lines: seq<string>, k: nat)
    requires 2 <= |lines| && k < |PlannedRows(lines)|
    ensures |WideGrid(lines)| == |PlannedRows(lines)|
    ensures PlannedRows(lines)[k] <= WideGrid(lines)[k]
  {
    hide Normalize, Columns;
    var rows := PlannedRows(lines);
    assert |rows[k]| <= Columns(rows);
    if k > 0 {
      assert WideGrid(lines)[k] == Fit(rows[1..][k - 1], Columns(rows));
    }
  }

  // ----- printing tables; specification only

  /** A table cell that the notation can express: trimmed, on one line, without a pipe. */
  ghost predicate IsCell(c: string) {
    Trimmed(c) && '|' !in c && SingleLine(c)
  }

  ghost predicate IsRow(row: seq<string>) {
    row != [] && forall k :: 0 <= k < |row| ==> IsCell(row[k])
  }

  function Padded(c: string): string {
    " " + c + " "
  }

  /** The text between the outer pipes of a row. */
  function RowBody(row: seq<string>): string
    requires row != []
  {
    if |row| == 1 then Padded(row[0]) else Padded(row[0]) + "|" + RowBody(row[1..])
  }

  function PrintRow(row: seq<string>): string
    requires row != []
  {
    "|" + RowBody(row) + "|"
  }

  function Dashes(n: nat): seq<string> {
    seq(n, _ => "---")
  }

  function PrintRows(rows: seq<seq<string>>): seq<string>
    requires forall k :: 0 <= k < |rows| ==> rows[k] != []
  {
    seq(|rows|, k requires 0 <= k < |rows| => PrintRow(rows[k]))
  }

  function PrintTable(header: seq<string>, rows: seq<seq<string>>): seq<string>
    requires header != [] && forall k :: 0 <= k < |rows| ==> rows[k] != []
  {
    [PrintRow(header), PrintRow(Dashes(|header|))] + PrintRows(rows)
  }

  // ----- a printed row normalises to its cells

  lemma {:induction false} PipeIndexOf(a: string, b: string)
    requires '|' !in a
    ensures PipeIndex(a + "|" + b) == |a|
  {
    if a != "" {
      assert (a + "|" + b)[1..] == a[1..] + "|" + b;
      assert a[0] != '|';
      PipeIndexOf(a[1..], b);
    }
  }

  function PaddedAll(row: seq<string>): (r: seq<string>)
    ensures |r| == |row|
  {
    seq(|row|, k requires 0 <= k < |row| => Padded(row[k]))
  }

  lemma SplitOne(p: string)
    requires '|' !in p
    ensures SplitPipes(p) == [p]
  {
    assert PipeIndex(p) == |p|;
  }

  lemma SplitFirst(p: string, rest: string)
    requires '|' !in p
    ensures SplitPipes(p + "|" + rest) == [p] + SplitPipes(rest)
  {
    PipeIndexOf(p, rest);
    var s := p + "|" + rest;
    assert s[..|p|] == p && s[|p| + 1..] == rest;
  }

  lemma NoPipe(cell: string)
    requires '|' !in cell
    ensures '|' !in Padded(cell)
  {
  }

  lemma BodyCells(row: seq<string>)
    requires row != []
    ensures RowBody(row) == if |row| == 1 then Padded(row[0]) else Padded(row[0]) + "|" + RowBody(row[1..])
  {
    hide Padded;
  }

  lemma PaddedFirst(row: seq<string>)
    requires row != []
    ensures PaddedAll(row) == [Padded(row[0])] + (if |row| == 1 then [] else PaddedAll(row[1..]))
  {
    hide Padded;
  }

  lemma {:induction false} SplitRowBody(row: seq<string>)
    requires row != [] && forall k :: 0 <= k < |row| ==> '|' !in row[k]
    ensures SplitPipes(RowBody(row)) == PaddedAll(row)
  {
    hide *;
    NoPipe(row[0]);
    BodyCells(row);
    PaddedFirst(row);
    if |row| == 1 {
      SplitOne(Padded(row[0]));
    } else {
      SplitFirst(Padded(row[0]), RowBody(row[1..]));
      SplitRowBody(row[1..]);
    }
  }

  lemma {:induction false} RowBodyEnds(row: seq<string>)
    requires row != []
    ensures var b := RowBody(row); 2 <= |b| && b[0] == ' ' && b[|b| - 1] == ' '
  {
    if |row| > 1 {
      RowBodyEnds(row[1..]);
    }
  }

  lemma StripOuterPipes(b: string)
    requires b != "" && b[0] != '|' && b[|b| - 1] != '|'
    ensures StripPipes("|" + b + "|") == b
  {
    TrimPadded(IsBar, "|", b, "|");
  }

  lemma PrintRowTrimmed(row: seq<string>)
    requires row != []
    ensures Trimmed(PrintRow(row)) && IsPipe(PrintRow(row))
  {
  }

  lemma StripPaddedCell(c: string)
    requires Trimmed(c)
    ensures Strip(Padded(c)) == c
  {
    StripPadded(" ", c, " ");
  }

  /** A printed row gives its cells back, empty cells included. */
  lemma NormalizePrinted(row: seq<string>)
    requires IsRow(row)
    ensures Normalize(PrintRow(row)) == row
  {
    hide RowBody, SplitPipes, StripPipes, Strip, Trimmed;
    PrintRowTrimmed(row);
    StripTrimmed(PrintRow(row));
    RowBodyEnds(row);
    StripOuterPipes(RowBody(row));
    SplitRowBody(row);
    forall k | 0 <= k < |row|
      ensures Strip(Padded(row[k])) == row[k]
    {
      StripPaddedCell(row[k]);
    }
  }

  // ----- a printed table parses to one table block

  lemma DelimiterRow(n: nat)
    requires n > 0
    ensures IsDelimiter(PrintRow(Dashes(n)))
  {
    var row := Dashes(n);
    var s := PrintRow(row);
    assert s[0] == '|';
    assert RowBody(row) == Padded("---") + RowBody(row)[5..];
    assert s[2..][..3] == "---";
  }

  lemma PrintTableWellFormed(header: seq<string>, rows: seq<seq<string>>)
    requires header != [] && forall k :: 0 <= k < |rows| ==> rows[k] != []
    ensures WellFormed(Block(Table, PrintTable(header, rows)))
  {
    hide IsDelimiter, Trimmed, IsPipe;
    var lines := PrintTable(header, rows);
    DelimiterRow(|header|);
    PrintRowTrimmed(header);
    PrintRowTrimmed(Dashes(|header|));
    forall k | 2 <= k < |lines|
      ensures Trimmed(lines[k]) && IsPipe(lines[k])
    {
      PrintRowTrimmed(rows[k - 2]);
    }
  }

  /**
  Tables end to end: printing any header and any rows, parsing the lines and laying out the grid gives
  the header and the rows back, each row cut or padded to the width of the header.
   */
  lemma {:induction false} TableRoundTrip(header: seq<string>, rows: seq<seq<string>>)
    requires IsRow(header) && forall k :: 0 <= k < |rows| ==> rows[k] != [] && IsRow(rows[k])
    ensures Parse(PrintTable(header, rows)) == [Block(Table, PrintTable(header, rows))]
    ensures Grid(PrintTable(header, rows)) == [header] + FitAll(rows, |header|)
  {
    var lines := PrintTable(header, rows);
    PrintTableWellFormed(header, rows);
    ParsePrintedBlock(Block(Table, lines));
    GridOfPrinted(header, rows);
  }

  lemma GridOfPrinted(header: seq<string>, rows: seq<seq<string>>)
    requires header != []
    requires IsRow(header) && forall k :: 0 <= k < |rows| ==> rows[k] != [] && IsRow(rows[k])
    ensures PlannedRows(PrintTable(header, rows)) == [header] + rows
    ensures Grid(PrintTable(header, rows)) == [header] + FitAll(rows, |header|)
  {
    hide Normalize, PrintRow, Fit, IsRow, FitAll, Dashes;
    var lines := PrintTable(header, rows);
    NormalizePrinted(header);
    forall k | 0 <= k < |rows|
      ensures Normalize(lines[k + 2]) == rows[k]
    {
      NormalizePrinted(rows[k]);
    }
    assert NormalizeAll(lines)[2..] == rows;
  }

  lemma WideIs(lines: seq<string>, header: seq<string>, rows: seq<seq<string>>)
    requires 2 <= |lines| && PlannedRows(lines) == [header] + rows
    ensures WideGrid(lines) == [header] + FitAll(rows, Columns([header] + rows))
  {
    hide Columns, FitAll, PlannedRows;
    assert ([header] + rows)[1..] == rows;
  }

  /** The explainer gives every row back whole, padded to the longest. */
  lemma {:induction false} WideRoundTrip(header: seq<string>, rows: seq<seq<string>>)
    requires IsRow(header) && forall k :: 0 <= k < |rows| ==> rows[k] != [] && IsRow(rows[k])
    ensures WideGrid(PrintTable(header, rows)) == [header] + FitAll(rows, Columns([header] + rows))
  {
    assert header != [] && 2 <= |PrintTable(header, rows)|;
    hide *;
    GridOfPrinted(header, rows);
    WideIs(PrintTable(header, rows), header, rows);
  }

  lemma FitExact(row: seq<string>)
    ensures Fit(row, |row|) == row
  {
  }

  /** Rectangular tables come back unchanged. */
  lemma RectangularTable(header: seq<string>, rows: seq<seq<string>>)
    requires IsRow(header) && forall k :: 0 <= k < |rows| ==> rows[k] != [] && IsRow(rows[k]) && |rows[k]| == |header|
    ensures Grid(PrintTable(header, rows)) == [header] + rows
  {
    TableRoundTrip(header, rows);
    forall k | 0 <= k < |rows|
      ensures FitAll(rows, |header|)[k] == rows[k]
    {
      FitExact(rows[k]);
    }
  }
}
