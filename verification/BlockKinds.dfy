/**
Which lines are which: the kind of a block said in terms of the characters of its lines, and where lines end.
 */
module BlockKinds {
  import opened Basics
  import opened Trimming
  import opened PyText
  import opened MarkdownBlocks
  import opened BlockRoundTrip

  // ----- the forms of lines, by their characters

  function Marks(n: nat): string {
    seq(n, _ => '#')
  }

  /** A list marker and white space. */
  ghost predicate BulletForm(s: string) {
    exists c: char, p: char, t: string :: s == [c, p] + t && (c == '-' || c == '*' || c == '+') && IsSpace(p)
  }

  /** Digits, a dot and white space. */
  ghost predicate NumberForm(s: string) {
    exists d: string, p: char, t: string :: s == d + ['.', p] + t && d != "" && All(IsDigit, d) && IsSpace(p)
  }

  /** One to six hashes and white space. */
  ghost predicate HeadingForm(s: string) {
    exists n: nat, p: char, t: string :: s == Marks(n) + [p] + t && 1 <= n <= 6 && IsSpace(p)
  }

  lemma {:induction false} HashesOf(n: nat, rest: string)
    requires rest == "" || rest[0] != '#'
    ensures Hashes(Marks(n) + rest) == n
  {
    if n > 0 {
      assert (Marks(n) + rest)[1..] == Marks(n - 1) + rest;
      HashesOf(n - 1, rest);
    } else {
      assert Marks(0) + rest == rest;
    }
  }

  lemma {:induction false} DigitsOf(d: string, rest: string)
    requires All(IsDigit, d) && (rest == "" || !IsDigit(rest[0]))
    ensures Digits(d + rest) == |d|
  {
    hide IsDigit;
    if d != "" {
      assert (d + rest)[1..] == d[1..] + rest;
      DigitsOf(d[1..], rest);
    } else {
      assert d + rest == rest;
    }
  }

  lemma BulletIs(s: string)
    ensures IsBullet(s) <==> BulletForm(s)
  {
    if IsBullet(s) {
      assert s == [s[0], s[1]] + s[2..];
    }
  }

  lemma NumberIs(s: string)
    ensures IsNumbered(s) <==> NumberForm(s)
  {
    hide IsDigit, IsSpace, Digits, IsNumbered;
    if IsNumbered(s) { NumberedHasForm(s); }
    if NumberForm(s) {
      var d: string, p: char, t: string :| s == d + ['.', p] + t && d != "" && All(IsDigit, d) && IsSpace(p);
      FormIsNumbered(d, p, t);
    }
  }

  lemma NumberedHasForm(s: string)
    requires IsNumbered(s)
    ensures NumberForm(s)
  {
    hide IsDigit, IsSpace;
    var n := Digits(s);
    assert s == s[..n] + ['.', s[n + 1]] + s[n + 2..];
    assert All(IsDigit, s[..n]);
  }

  lemma FormIsNumbered(d: string, p: char, t: string)
    requires d != "" && All(IsDigit, d) && IsSpace(p)
    ensures IsNumbered(d + ['.', p] + t)
  {
    var s := d + ['.', p] + t;
    assert s == d + (['.', p] + t);
    DotIsNoDigit();
    hide IsDigit, IsSpace;
    DigitsOf(d, ['.', p] + t);
  }

  lemma DotIsNoDigit()
    ensures !IsDigit('.')
  {
  }

  lemma HeadingIs(s: string)
    ensures IsHeading(s) <==> HeadingForm(s)
  {
    if IsHeading(s) {
      var n := Hashes(s);
      assert s[..n] == Marks(n);
      assert s == Marks(n) + [s[n]] + s[n + 1..];
    }
    if HeadingForm(s) {
      var n: nat, p: char, t: string :| s == Marks(n) + [p] + t && 1 <= n <= 6 && IsSpace(p);
      assert s == Marks(n) + ([p] + t);
      HashesOf(n, [p] + t);
    }
  }

  lemma ParseOneLine(l: string)
    ensures Parse([l]) == Step([l]).blocks
  {
    hide Step;
    ParseStep([l]);
    assert Parse([l][Step([l]).taken..]) == [];
  }

  lemma StepOneLine(l: string)
    ensures Step([l]).blocks ==
              var s := Strip(l);
              if s == "" then []
              else if "```" <= s then [Block(Code, [])]
              else if IsHeading(s) then [Block(Heading, [s])]
              else if IsBullet(s) then [Block(BulletList, [s])]
              else if IsNumbered(s) then [Block(NumberList, [s])]
              else [Block(Paragraph, [s])]
  {
    hide Strip, IsHeading, IsBullet, IsNumbered;
    assert [l][1..] == [] && [l][..1] == [l];
    assert Run(CodeLine, []) == Run(BulletLine, []) == Run(NumberLine, []) == ParagraphRun([]) == 0;
    assert StripAll([l]) == [Strip(l)];
    forall kind: Kind
      ensures StrippedChunk(kind, [l], 1) == Chunk([Block(kind, [Strip(l)])], 1)
    {
    }
    assert [l][1..1] == [];
  }

  /** What a line is, on its own: decided by its first characters after white space, and by nothing else. */
  lemma KindOfLine(l: string)
    ensures Parse([l]) ==
              var s := Strip(l);
              if s == "" then []
              else if "```" <= s then [Block(Code, [])]
              else if HeadingForm(s) then [Block(Heading, [s])]
              else if BulletForm(s) then [Block(BulletList, [s])]
              else if NumberForm(s) then [Block(NumberList, [s])]
              else [Block(Paragraph, [s])]
  {
    hide *;
    ParseOneLine(l);
    StepOneLine(l);
    HeadingIs(Strip(l));
    BulletIs(Strip(l));
    NumberIs(Strip(l));
  }

  lemma DigitIsNoMark(c: char)
    requires IsDigit(c)
    ensures c != '-' && c != '*' && c != '+' && c != '#' && c != '`' && c != '|'
  {
  }

  /** No line has two of the forms, so that the order of the tests does not matter. */
  lemma FormsExclude(s: string)
    ensures HeadingForm(s) ==> !BulletForm(s) && !NumberForm(s) && !("```" <= s)
    ensures BulletForm(s) ==> !NumberForm(s) && !("```" <= s)
    ensures NumberForm(s) ==> !("```" <= s)
  {
    hide IsDigit, IsSpace;
    if HeadingForm(s) { assert s[0] == '#'; }
    if BulletForm(s) { assert s[0] == '-' || s[0] == '*' || s[0] == '+'; }
    if NumberForm(s) {
      assert IsDigit(s[0]);
      DigitIsNoMark(s[0]);
    }
  }

  // ----- one line of each kind

  lemma MarkedTrimmed(mark: string, pad: string, t: string)
    requires mark != "" && !IsSpace(mark[0]) && t != "" && Trimmed(t)
    ensures Strip(mark + pad + t) == mark + pad + t
  {
    var s := mark + pad + t;
    assert s[0] == mark[0] && s[|s| - 1] == t[|t| - 1];
    StripTrimmed(s);
  }

  lemma BulletAlone(c: char, pad: string, t: string)
    requires (c == '-' || c == '*' || c == '+') && pad != "" && All(IsSpace, pad) && t != "" && Trimmed(t)
    ensures Parse([[c] + pad + t]) == [Block(BulletList, [[c] + pad + t])]
  {
    var s := [c] + pad + t;
    MarkedTrimmed([c], pad, t);
    assert s == [c, pad[0]] + (pad[1..] + t);
    assert BulletForm(s);
    FormsExclude(s);
    KindOfLine(s);
  }

  lemma NumberAlone(d: string, pad: string, t: string)
    requires d != "" && All(IsDigit, d) && pad != "" && All(IsSpace, pad) && t != "" && Trimmed(t)
    ensures Parse([d + "." + pad + t]) == [Block(NumberList, [d + "." + pad + t])]
  {
    var s := d + "." + pad + t;
    DigitIsNoSpace(d[0]);
    MarkedTrimmed(d + ".", pad, t);
    assert s == d + ['.', pad[0]] + (pad[1..] + t);
    assert NumberForm(s);
    FormsExclude(s);
    KindOfLine(s);
  }

  lemma DigitIsNoSpace(c: char)
    requires IsDigit(c)
    ensures !IsSpace(c)
  {
    hide DIGIT_RUNS;
    if c > '\U{7F}' {
      var k :| 0 <= k < |DIGIT_RUNS| && DIGIT_RUNS[k] <= c as int <= DIGIT_RUNS[k] + 9;
      RunMissesSpaces(k);
    }
  }

  /** The runs of digits lie beside all white space. */
  predicate BesideSpaces(r: int) {
    r >= 0x660 && (r + 9 < 0x1680 || 0x1680 < r) && (r + 9 < 0x2000 || 0x3000 < r)
  }

  lemma RunMissesSpaces(k: nat)
    requires k < |DIGIT_RUNS|
    ensures BesideSpaces(DIGIT_RUNS[k])
  {
    if k < 32 {
      LowRunMisses(k);
    } else {
      HighRunMisses(k - 32);
    }
  }

  lemma LowRunMisses(k: nat)
    requires k < |LOW_RUNS|
    ensures BesideSpaces(LOW_RUNS[k])
  {
  }

  lemma HighRunMisses(k: nat)
    requires k < |HIGH_RUNS|
    ensures BesideSpaces(HIGH_RUNS[k])
  {
  }

  lemma HeadingAlone(n: nat, pad: string, t: string)
    requires 1 <= n <= 6 && pad != "" && All(IsSpace, pad) && t != "" && Trimmed(t)
    ensures Parse([Marks(n) + pad + t]) == [Block(Heading, [Marks(n) + pad + t])]
  {
    var s := Marks(n) + pad + t;
    MarkedTrimmed(Marks(n), pad, t);
    assert s == Marks(n) + [pad[0]] + (pad[1..] + t);
    assert HeadingForm(s);
    FormsExclude(s);
    KindOfLine(s);
  }

  /** Any other line is a paragraph, pipes included. */
  lemma ParagraphAlone(l: string)
    requires Strip(l) != "" && !("```" <= Strip(l))
    requires !HeadingForm(Strip(l)) && !BulletForm(Strip(l)) && !NumberForm(Strip(l))
    ensures Parse([l]) == [Block(Paragraph, [Strip(l)])]
  {
    KindOfLine(l);
  }

  /** Two lines are a table if both start with a pipe and the second has three dashes; nothing else makes one. */
  lemma TableOfTwo(a: string, b: string)
    ensures Parse([a, b]) == [Block(Table, [Strip(a), Strip(b)])] <==>
            && "|" <= Strip(a) && "|" <= Strip(b)
            && exists u: string, v: string :: Strip(b) == u + "---" + v
  {
    var head := TableHead([a, b]);
    DashesInside(Strip(b));
    TwoLines(a, b);
  }

  lemma DashesInside(s: string)
    ensures Contains(s, "---") <==> exists u: string, v: string :: s == u + "---" + v
  {
    if k :| 0 <= k <= |s| && "---" <= s[k..] {
      assert s == s[..k] + "---" + s[k + 3..];
    }
    if u: string, v: string :| s == u + "---" + v {
      assert s[|u|..] == "---" + v;
    }
  }

  lemma PipeIsNothingElse(s: string)
    requires "|" <= s
    ensures s != "" && !("```" <= s) && !IsHeading(s) && !IsBullet(s) && !IsNumbered(s)
  {
    assert s[0] == '|';
  }

  lemma TwoLines(a: string, b: string)
    ensures Parse([a, b]) == [Block(Table, [Strip(a), Strip(b)])] <==> TableHead([a, b])
  {
    hide Strip, Contains, IsHeading, IsBullet, IsNumbered;
    var ls := [a, b];
    ParseStep(ls);
    assert ls[..2] == ls && ls[2..] == [];
    assert StripAll(ls) == [Strip(a), Strip(b)];
    if TableHead(ls) {
      PipeIsNothingElse(Strip(a));
      assert Parse(ls[2..]) == [];
    } else {
      NoTable(ls);
      assert |Parse(ls)| > 0 ==> Parse(ls)[0].kind != Table;
    }
  }

  lemma NoTable(ls: seq<string>)
    requires |ls| == 2 && !TableHead(ls)
    ensures forall k :: 0 <= k < |Parse(ls)| ==> Parse(ls)[k].kind != Table
  {
    hide Strip, Contains, IsHeading, IsBullet, IsNumbered, TableHead;
    ParseStep(ls);
    var n := Step(ls).taken;
    if n == 1 {
      ParseOneLine(ls[1]);
      StepOneLine(ls[1]);
      assert ls[1..] == [ls[1]];
    } else {
      assert ls[n..] == [];
    }
  }

  // ----- every block of every document

  /** A pipe line right above a line of pipes and dashes. */
  ghost predicate OpensTable(a: string, b: string) {
    "|" <= a && "|" <= b && exists u: string, v: string :: b == u + "---" + v
  }

  /** A line of text: not blank, no fence, and of no form. */
  ghost predicate TextLine(s: string) {
    s != "" && !("```" <= s) && !HeadingForm(s) && !BulletForm(s) && !NumberForm(s)
  }

  /** What the lines of a block look like, character by character. */
  ghost predicate HasForm(b: Block) {
    && (b.kind != Code ==> b.lines != [] && AllTrimmed(b.lines))
    && match b.kind
       case Code => forall k :: 0 <= k < |b.lines| ==> !("```" <= Strip(b.lines[k]))
       case Heading => |b.lines| == 1 && HeadingForm(b.lines[0])
       case BulletList => forall k :: 0 <= k < |b.lines| ==> BulletForm(b.lines[k])
       case NumberList => forall k :: 0 <= k < |b.lines| ==> NumberForm(b.lines[k])
       case Table =>
         && 2 <= |b.lines| && OpensTable(b.lines[0], b.lines[1])
         && forall k :: 0 <= k < |b.lines| ==> "|" <= b.lines[k]
       case Paragraph =>
         && (forall k :: 0 <= k < |b.lines| ==> TextLine(b.lines[k]))
         && forall k :: 0 <= k < |b.lines| - 1 ==> !OpensTable(b.lines[k], b.lines[k + 1])
  }

  lemma DelimiterIs(s: string)
    ensures IsDelimiter(s) <==> "|" <= s && exists u: string, v: string :: s == u + "---" + v
  {
    hide Contains;
    DashesInside(s);
  }

  lemma ContinuesIs(ls: seq<string>, k: nat)
    requires k < |ls| && AllTrimmed(ls) && Continues(ls[k..])
    ensures TextLine(ls[k])
    ensures k + 1 < |ls| ==> !OpensTable(ls[k], ls[k + 1])
  {
    hide Strip, IsHeading, IsBullet, IsNumbered, IsDelimiter, HeadingForm, BulletForm, NumberForm, Trimmed;
    StripTrimmed(ls[k]);
    HeadingIs(ls[k]);
    BulletIs(ls[k]);
    NumberIs(ls[k]);
    if k + 1 < |ls| {
      StripTrimmed(ls[k + 1]);
      DelimiterIs(ls[k + 1]);
      assert ls[k..][1] == ls[k + 1];
    }
  }

  /** The blocks of every document have the form of their kind; with conservation, this says where each line goes. */
  lemma {:induction false} BlockForms(ls: seq<string>, k: nat)
    requires k < |Parse(ls)|
    ensures HasForm(Parse(ls)[k])
  {
    hide Parse, Strip, IsHeading, IsBullet, IsNumbered, IsDelimiter, HeadingForm, BulletForm, NumberForm, Trimmed,
         Continues, TextLine, OpensTable;
    ParseWellFormed(ls);
    var b := Parse(ls)[k];
    assert WellFormed(b);
    forall i: nat | i < |b.lines|
      ensures b.kind == Heading ==> HeadingForm(b.lines[i])
      ensures b.kind == BulletList ==> BulletForm(b.lines[i])
      ensures b.kind == NumberList ==> NumberForm(b.lines[i])
      ensures b.kind == Paragraph ==> TextLine(b.lines[i])
      ensures b.kind == Paragraph && i + 1 < |b.lines| ==> !OpensTable(b.lines[i], b.lines[i + 1])
    {
      HeadingIs(b.lines[i]);
      BulletIs(b.lines[i]);
      NumberIs(b.lines[i]);
      if b.kind == Paragraph { ContinuesIs(b.lines, i); }
    }
    if b.kind == Table {
      OpensIs(b.lines[0], b.lines[1]);
    }
  }

  lemma OpensIs(a: string, b: string)
    requires IsPipe(a) && IsDelimiter(b)
    ensures OpensTable(a, b)
  {
    DelimiterIs(b);
  }

  /** Some lines of the explainer and their kinds. */
  lemma SampleLines()
    ensures Parse(["- x"]) == [Block(BulletList, ["- x"])]
    ensures Parse(["12. x"]) == [Block(NumberList, ["12. x"])]
    ensures Parse(["## x"]) == [Block(Heading, ["## x"])]
  {
    assert "- x" == ['-'] + " " + "x";
    BulletAlone('-', " ", "x");
    assert "12. x" == "12" + "." + " " + "x";
    NumberAlone("12", " ", "x");
    assert "## x" == Marks(2) + " " + "x";
    HeadingAlone(2, " ", "x");
  }

  // ----- where lines end

  /** The characters at which a line ends. */
  const LINE_ENDS: set<char> := {
    '\n', '\U{B}', '\U{C}', '\r', '\U{1C}', '\U{1D}', '\U{1E}', '\U{85}', '\U{2028}', '\U{2029}'
  }

  lemma LineEndsAre(c: char)
    ensures IsLineBreak(c) <==> c in LINE_ENDS
  {
  }

  lemma {:induction false} LineLengthIs(a: string, rest: string)
    requires forall k :: 0 <= k < |a| ==> a[k] !in LINE_ENDS
    requires rest == "" || rest[0] in LINE_ENDS
    ensures LineLength(a + rest) == |a|
  {
    hide LINE_ENDS;
    if a != "" {
      LineEndsAre(a[0]);
      assert (a + rest)[1..] == a[1..] + rest;
      LineLengthIs(a[1..], rest);
    } else {
      assert a + rest == rest;
      if rest != "" { LineEndsAre(rest[0]); }
    }
  }

  /** A line end closes the line before it, whatever it is; a carriage return takes the newline after it along. */
  lemma LinesEnd(a: string, end: string, rest: string)
    requires forall k :: 0 <= k < |a| ==> a[k] !in LINE_ENDS
    requires end == "\r\n" || (|end| == 1 && end[0] in LINE_ENDS && (end == "\r" ==> rest == "" || rest[0] != '\n'))
    ensures SplitLines(a + end + rest) == [a] + SplitLines(rest)
  {
    hide LINE_ENDS, IsLineBreak, LineLength;
    CarriageEnds();
    LineLengthIs(a, end + rest);
    EndParts(a, end, rest);
  }

  /** Where the next line starts, for a line that ends at `n`. */
  function NextLine(text: string, n: nat): nat
    requires n < |text|
  {
    if text[n] == '\r' && n + 1 < |text| && text[n + 1] == '\n' then n + 2 else n + 1
  }

  lemma SplitUnfold(text: string)
    requires LineLength(text) < |text|
    ensures SplitLines(text) == [text[..LineLength(text)]] + SplitLines(text[NextLine(text, LineLength(text))..])
  {
    hide LineLength, SingleLines;
  }

  /** The parts of a text at its first line end. */
  lemma EndParts(a: string, end: string, rest: string)
    requires end != "" && LineLength(a + (end + rest)) == |a|
    requires end == "\r\n" || (|end| == 1 && (end == "\r" ==> rest == "" || rest[0] != '\n'))
    ensures a + end + rest == a + (end + rest)
    ensures SplitLines(a + end + rest) == [a] + SplitLines(rest)
  {
    hide LineLength, SplitLines, SingleLine, SingleLines;
    var text := a + (end + rest);
    assert a + end + rest == text;
    SplitUnfold(text);
    assert text[..|a|] == a && text[|a|] == end[0];
    if rest != "" { assert text[|a| + |end|] == rest[0]; }
    if |end| == 2 { assert text[|a| + 1] == end[1]; }
    assert NextLine(text, |a|) == |a| + |end|;
    assert text[|a| + |end|..] == rest;
  }

  lemma CarriageEnds()
    ensures '\r' in LINE_ENDS
  {
  }

  /** The last line needs no end. */
  lemma LastLine(a: string)
    requires a != "" && forall k :: 0 <= k < |a| ==> a[k] !in LINE_ENDS
    ensures SplitLines(a) == [a] && SplitLines("") == []
  {
    hide LINE_ENDS;
    LineLengthIs(a, "");
    assert a + "" == a;
  }
}
