/**
Printing and reparsing blocks. The repository has no Markdown printer; the one here is specification
only: blocks one after the other, a blank line after each, code put back between fences.
 */
module BlockRoundTrip {
  import opened PyText
  import opened MarkdownBlocks
  import opened BlockTheorems

  function PrintBlock(b: Block): seq<string> {
    if b.kind == Code then ["```"] + b.lines + ["```"] else b.lines
  }

  function Print(blocks: seq<Block>): seq<string> {
    if blocks == [] then [] else PrintBlock(blocks[0]) + [""] + Print(blocks[1..])
  }

  ghost predicate AllTrimmed(ls: seq<string>) {
    forall k :: 0 <= k < |ls| ==> Trimmed(ls[k])
  }

  /** The shape of the lines of a block of each kind. */
  ghost predicate WellFormed(b: Block) {
    match b.kind
    case Code => forall k :: 0 <= k < |b.lines| ==> CodeLine(b.lines[k])
    case Heading => |b.lines| == 1 && AllTrimmed(b.lines) && IsHeading(b.lines[0])
    case Table =>
      && 2 <= |b.lines| && AllTrimmed(b.lines) && IsDelimiter(b.lines[1])
      && forall k :: 0 <= k < |b.lines| ==> IsPipe(b.lines[k])
    case BulletList => b.lines != [] && AllTrimmed(b.lines) && forall k :: 0 <= k < |b.lines| ==> IsBullet(b.lines[k])
    case NumberList => b.lines != [] && AllTrimmed(b.lines) && forall k :: 0 <= k < |b.lines| ==> IsNumbered(b.lines[k])
    case Paragraph => b.lines != [] && AllTrimmed(b.lines) && forall k :: 0 <= k < |b.lines| ==> Continues(b.lines[k..])
  }

  ghost predicate AllWellFormed(blocks: seq<Block>) {
    forall k :: 0 <= k < |blocks| ==> WellFormed(blocks[k])
  }

  // ----- the parser produces well-formed blocks

  lemma AllStrippedTrimmed(ls: seq<string>)
    ensures AllTrimmed(StripAll(ls))
    ensures StripAll(StripAll(ls)) == StripAll(ls)
  {
    forall k | 0 <= k < |ls|
      ensures Trimmed(StripAll(ls)[k]) && Strip(Strip(ls[k])) == Strip(ls[k])
    {
      StripIdempotent(ls[k]);
    }
  }

  lemma ContinuesStripped(ls: seq<string>, n: nat, k: nat)
    requires k < n <= |ls| && Continues(ls[k..])
    ensures Continues(StripAll(ls[..n])[k..])
  {
    hide Strip;
    var s := StripAll(ls[..n]);
    AllStrippedTrimmed(ls[..n]);
    assert s[k..][0] == Strip(ls[k]) && Strip(s[k]) == Strip(ls[k]);
    assert ls[k..][0] == ls[k];
    if k + 1 < n {
      assert s[k..][1] == s[k + 1] && Strip(s[k + 1]) == Strip(ls[k + 1]);
      assert ls[k..][1] == ls[k + 1];
    }
  }

  lemma {:induction false} ParagraphWellFormed(ls: seq<string>)
    requires Continues(ls)
    ensures ParagraphRun(ls) == 1 + ParagraphRun(ls[1..])
    ensures WellFormed(StrippedChunk(Paragraph, ls, ParagraphRun(ls)).blocks[0])
  {
    hide Strip;
    var n := ParagraphRun(ls);
    AllStrippedTrimmed(ls[..n]);
    forall k | 0 <= k < n
      ensures Continues(StripAll(ls[..n])[k..])
    {
      ParagraphRunAll(ls, k);
      ContinuesStripped(ls, n, k);
    }
  }

  lemma {:induction false} ParagraphRunAll(ls: seq<string>, k: nat)
    requires k < ParagraphRun(ls)
    ensures Continues(ls[k..])
  {
    if k == 0 {
      assert ls[0..] == ls;
    } else {
      ParagraphRunAll(ls[1..], k - 1);
      assert ls[1..][k - 1..] == ls[k..];
    }
  }

  lemma TableWellFormed(ls: seq<string>)
    requires TableHead(ls)
    ensures WellFormed(StrippedChunk(Table, ls, 2 + Run(PipeLine, ls[2..])).blocks[0])
  {
    hide Strip;
    var n := 2 + Run(PipeLine, ls[2..]);
    AllStrippedTrimmed(ls[..n]);
    assert forall k :: 2 <= k < n ==> ls[k] == ls[2..][k - 2];
  }

  lemma ListWellFormed(kind: Kind, p: string -> bool, ls: seq<string>)
    requires ls != [] && p(ls[0])
    requires (kind == BulletList && p == BulletLine) || (kind == NumberList && p == NumberLine)
    ensures WellFormed(StrippedChunk(kind, ls, 1 + Run(p, ls[1..])).blocks[0])
  {
    hide Strip, IsNumbered, IsBullet;
    var n := 1 + Run(p, ls[1..]);
    AllStrippedTrimmed(ls[..n]);
    assert forall k :: 1 <= k < n ==> ls[k] == ls[1..][k - 1];
  }

  lemma HeadingWellFormed(ls: seq<string>)
    requires ls != [] && HeadingLine(ls[0])
    ensures WellFormed(StrippedChunk(Heading, ls, 1).blocks[0])
  {
    hide Strip;
    AllStrippedTrimmed(ls[..1]);
  }

  lemma FenceWellFormed(ls: seq<string>)
    requires ls != []
    ensures WellFormed(FenceChunk(ls).blocks[0])
  {
    hide FenceLine;
    var n := Run(CodeLine, ls[1..]);
    assert forall k :: 0 <= k < n ==> ls[1..1 + n][k] == ls[1..][k];
  }

  lemma StepWellFormed(ls: seq<string>)
    requires ls != []
    ensures AllWellFormed(Step(ls).blocks)
  {
    hide Strip, WellFormed, Run, ParagraphRun, StripAll, IsHeading, IsNumbered, IsBullet;
    if BlankLine(ls[0]) {
    } else if FenceLine(ls[0]) {
      FenceWellFormed(ls);
    } else if HeadingLine(ls[0]) {
      HeadingWellFormed(ls);
    } else if TableHead(ls) {
      TableWellFormed(ls);
    } else if BulletLine(ls[0]) {
      ListWellFormed(BulletList, BulletLine, ls);
    } else if NumberLine(ls[0]) {
      ListWellFormed(NumberList, NumberLine, ls);
    } else {
      ParagraphWellFormed(ls);
    }
  }

  /** Every block the parser produces is well formed, whatever the input. */
  lemma {:induction false} ParseWellFormed(ls: seq<string>)
    ensures AllWellFormed(Parse(ls))
    decreases |ls|
  {
    if ls != [] {
      StepWellFormed(ls);
      ParseWellFormed(ls[Step(ls).taken..]);
    }
  }

  // ----- a printed block parses back

  lemma StripAllTrimmed(ls: seq<string>)
    requires AllTrimmed(ls)
    ensures StripAll(ls) == ls
  {
    forall k | 0 <= k < |ls|
      ensures Strip(ls[k]) == ls[k]
    {
      StripTrimmed(ls[k]);
    }
  }

  lemma {:induction false} RunAll(p: string -> bool, ls: seq<string>)
    requires forall k :: 0 <= k < |ls| ==> p(ls[k])
    ensures Run(p, ls) == |ls|
  {
    if ls != [] {
      RunAll(p, ls[1..]);
    }
  }

  lemma {:induction false} ParagraphRunWhole(ls: seq<string>)
    requires forall k :: 0 <= k < |ls| ==> Continues(ls[k..])
    ensures ParagraphRun(ls) == |ls|
  {
    if ls != [] {
      assert Continues(ls[0..]) && ls[0..] == ls;
      forall k | 0 <= k < |ls| - 1
        ensures Continues(ls[1..][k..])
      {
        assert ls[1..][k..] == ls[k + 1..];
      }
      ParagraphRunWhole(ls[1..]);
    }
  }

  lemma PrintedFence(body: seq<string>)
    requires forall k :: 0 <= k < |body| ==> CodeLine(body[k])
    ensures var ls := ["```"] + body + ["```"];
            Step(ls) == Chunk([Block(Code, body)], |ls|) && !Inside(ls, false)
  {
    var ls := ["```"] + body + ["```"];
    FenceIsFence();
    assert ls[1..] == body + ["```"];
    RunUntil(CodeLine, body, "```");
    assert ls[1..1 + |body|] == body;
    ChunkKept(ls);
    assert ls[..|ls|] == ls;
  }

  lemma FenceIsFence()
    ensures FenceLine("```") && !BlankLine("```")
  {
    StripTrimmed("```");
  }

  lemma {:induction false} RunUntil(p: string -> bool, ls: seq<string>, stop: string)
    requires forall k :: 0 <= k < |ls| ==> p(ls[k])
    requires !p(stop)
    ensures Run(p, ls + [stop]) == |ls|
  {
    if ls != [] {
      assert (ls + [stop])[1..] == ls[1..] + [stop];
      RunUntil(p, ls[1..], stop);
    }
  }

  lemma PrintedBody(b: Block)
    requires WellFormed(b) && b.kind != Code
    ensures b.lines != [] && BodyLine(b.lines[0])
    ensures Step(b.lines) == Chunk([b], |b.lines|)
  {
    hide Strip;
    var ls := b.lines;
    StripAllTrimmed(ls);
    assert ls[..|ls|] == ls;
    match b.kind
    case Heading =>
    case Table =>
      forall k | 0 <= k < |ls| - 2
        ensures PipeLine(ls[2..][k])
      {
        assert ls[2..][k] == ls[k + 2];
      }
      RunAll(PipeLine, ls[2..]);
    case BulletList =>
      forall k | 0 <= k < |ls| - 1
        ensures BulletLine(ls[1..][k])
      {
        assert ls[1..][k] == ls[k + 1];
      }
      BulletFirst(ls);
      RunAll(BulletLine, ls[1..]);
    case NumberList =>
      forall k | 0 <= k < |ls| - 1
        ensures NumberLine(ls[1..][k])
      {
        assert ls[1..][k] == ls[k + 1];
      }
      NumberFirst(ls);
      RunAll(NumberLine, ls[1..]);
    case Paragraph =>
      assert Continues(ls[0..]) && ls[0..] == ls;
      ParagraphRunWhole(ls);
  }

  lemma BulletFirst(ls: seq<string>)
    requires ls != [] && BulletLine(ls[0])
    ensures !BlankLine(ls[0]) && !FenceLine(ls[0]) && !HeadingLine(ls[0]) && !TableHead(ls)
  {
  }

  lemma NumberFirst(ls: seq<string>)
    requires ls != [] && NumberLine(ls[0])
    ensures !BlankLine(ls[0]) && !FenceLine(ls[0]) && !HeadingLine(ls[0]) && !TableHead(ls) && !BulletLine(ls[0])
  {
  }

  /** One printed block parses to itself and leaves no fence open. */
  lemma ParsePrintedBlock(b: Block)
    requires WellFormed(b)
    ensures Parse(PrintBlock(b)) == [b]
    ensures !Inside(PrintBlock(b), false)
  {
    var ls := PrintBlock(b);
    if b.kind == Code {
      PrintedFence(b.lines);
      assert b == Block(Code, b.lines);
    } else {
      PrintedBody(b);
      BodyChunk(ls);
      KeptBody(ls);
    }
    assert Parse(ls[|ls|..]) == [];
    assert Parse(ls) == [b] + [];
  }

  /** Round trip: any list of well-formed blocks survives printing and parsing. */
  lemma {:induction false} ParsePrint(blocks: seq<Block>)
    requires AllWellFormed(blocks)
    ensures Parse(Print(blocks)) == blocks
  {
    if blocks != [] {
      var b, rest := blocks[0], blocks[1..];
      ParsePrintedBlock(b);
      Composition(PrintBlock(b), Print(rest));
      ParsePrint(rest);
      assert blocks == [b] + rest;
    }
  }

  // ----- the same on texts

  /** A document text: the printed lines, each ended by a newline. */
  function PrintText(blocks: seq<Block>): string {
    JoinLines(Print(blocks))
  }

  ghost predicate BlockLinesSingle(blocks: seq<Block>) {
    forall k :: 0 <= k < |blocks| ==> SingleLines(blocks[k].lines)
  }

  lemma StepSingle(ls: seq<string>)
    requires ls != [] && SingleLines(ls)
    ensures BlockLinesSingle(Step(ls).blocks)
  {
    var c := Step(ls);
    if !BlankLine(ls[0]) && !FenceLine(ls[0]) {
      BodyChunk(ls);
      forall k | 0 <= k < c.taken
        ensures SingleLine(Strip(ls[..c.taken][k]))
      {
        StripSingleLine(ls[k]);
      }
    }
  }

  /** No line of a block ever holds a line break, because `splitlines` removed them all. */
  lemma {:induction false} ParseSingle(ls: seq<string>)
    requires SingleLines(ls)
    ensures BlockLinesSingle(Parse(ls))
    decreases |ls|
  {
    if ls != [] {
      StepSingle(ls);
      ParseSingle(ls[Step(ls).taken..]);
    }
  }

  lemma {:induction false} PrintSingle(blocks: seq<Block>)
    requires BlockLinesSingle(blocks)
    ensures SingleLines(Print(blocks))
  {
    if blocks != [] {
      assert SingleLines(blocks[0].lines);
      PrintSingle(blocks[1..]);
    }
  }

  /** parse . print . parse = parse, for every text, unclosed fences and stray pipe lines included. */
  lemma {:induction false} ParsePrintParse(text: string)
    ensures var blocks := Parse(SplitLines(text));
            Parse(SplitLines(PrintText(blocks))) == blocks
  {
    var ls := SplitLines(text);
    var blocks := Parse(ls);
    ParseSingle(ls);
    PrintSingle(blocks);
    SplitJoin(Print(blocks));
    ParseWellFormed(ls);
    ParsePrint(blocks);
  }
}
