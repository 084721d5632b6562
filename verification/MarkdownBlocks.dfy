/**
The block parser of scripts/markdown_to_docx.py.

`Parse` is the specification: it takes one chunk off the front of the remaining lines at a time.
`ParseBlocks` is the program: one cursor shared by an outer loop and four inner loops.
 */
module MarkdownBlocks {
  import opened Basics
  import opened PyText

  datatype Kind = Heading | Paragraph | BulletList | NumberList | Code | Table

  datatype Block = Block(kind: Kind, lines: seq<string>)

  // ----- line classes; each takes a stripped line

  predicate IsFence(s: string) {
    StartsWith(s, "```")
  }

  /** The number of leading `#` characters. */
  function Hashes(s: string): (n: nat)
    ensures n <= |s|
    ensures forall k :: 0 <= k < n ==> s[k] == '#'
    ensures n < |s| ==> s[n] != '#'
  {
    if s != "" && s[0] == '#' then 1 + Hashes(s[1..]) else 0
  }

  /** The number of leading decimal digits. */
  function Digits(s: string): (n: nat)
    ensures n <= |s|
    ensures forall k :: 0 <= k < n ==> IsDigit(s[k])
    ensures n < |s| ==> !IsDigit(s[n])
  {
    if s != "" && IsDigit(s[0]) then 1 + Digits(s[1..]) else 0
  }

  /** `^(#{1,6})\s+(.*)$`: backtracking cannot help, since the character after the hashes must be a space. */
  predicate IsHeading(s: string) {
    1 <= Hashes(s) <= 6 && Hashes(s) < |s| && IsSpace(s[Hashes(s)])
  }

  /** `^[-*+]\s+(.*)$` */
  predicate IsBullet(s: string) {
    2 <= |s| && s[0] in "-*+" && IsSpace(s[1])
  }

  /** `^\d+\.\s+(.*)$` */
  predicate IsNumbered(s: string) {
    var n := Digits(s);
    1 <= n && n + 1 < |s| && s[n] == '.' && IsSpace(s[n + 1])
  }

  predicate IsPipe(s: string) {
    StartsWith(s, "|")
  }

  predicate IsDelimiter(s: string) {
    IsPipe(s) && Contains(s, "---")
  }

  // ----- raw lines

  predicate BlankLine(l: string) { Strip(l) == "" }
  predicate FenceLine(l: string) { IsFence(Strip(l)) }
  predicate PipeLine(l: string) { IsPipe(Strip(l)) }
  predicate BulletLine(l: string) { IsBullet(Strip(l)) }
  predicate NumberLine(l: string) { IsNumbered(Strip(l)) }
  predicate HeadingLine(l: string) { IsHeading(Strip(l)) }
  predicate CodeLine(l: string) { !FenceLine(l) }

  /** The one-line lookahead: a pipe line directly above a delimiter line. */
  predicate TableHead(ls: seq<string>) {
    2 <= |ls| && PipeLine(ls[0]) && IsDelimiter(Strip(ls[1]))
  }

  /** The lines that a paragraph takes up: none of the six reasons to stop applies to the first of `ls`. */
  predicate Continues(ls: seq<string>) {
    && ls != []
    && !BlankLine(ls[0])
    && !FenceLine(ls[0])
    && !HeadingLine(ls[0])
    && !BulletLine(ls[0])
    && !NumberLine(ls[0])
    && !TableHead(ls)
  }

  /** How many leading lines satisfy `p`. */
  function Run(p: string -> bool, ls: seq<string>): (n: nat)
    ensures n <= |ls|
    ensures forall k :: 0 <= k < n ==> p(ls[k])
    ensures n < |ls| ==> !p(ls[n])
  {
    if ls != [] && p(ls[0]) then 1 + Run(p, ls[1..]) else 0
  }

  /** How many leading lines a paragraph goes on for. */
  function ParagraphRun(ls: seq<string>): (n: nat)
    ensures n <= |ls|
  {
    if Continues(ls) then 1 + ParagraphRun(ls[1..]) else 0
  }

  lemma {:induction false} ParagraphRunIs(ls: seq<string>, k: nat)
    requires k <= ParagraphRun(ls)
    ensures k < ParagraphRun(ls) <==> Continues(ls[k..])
  {
    if k == 0 {
      assert ls[0..] == ls;
    } else {
      ParagraphRunIs(ls[1..], k - 1);
      assert ls[1..][k - 1..] == ls[k..];
    }
  }

  function StripAll(ls: seq<string>): (r: seq<string>)
    ensures |r| == |ls|
    ensures forall k :: 0 <= k < |ls| ==> r[k] == Strip(ls[k])
  {
    seq(|ls|, k requires 0 <= k < |ls| => Strip(ls[k]))
  }

  // ----- specification

  /** What the parser takes off the front: at most one block, and how many lines. */
  datatype Chunk = Chunk(blocks: seq<Block>, taken: nat)

  function FenceChunk(ls: seq<string>): (c: Chunk)
    requires ls != []
    ensures 1 <= c.taken <= |ls|
  {
    var n := Run(CodeLine, ls[1..]);
    Chunk([Block(Code, ls[1..1 + n])], if 1 + n < |ls| then n + 2 else n + 1)
  }

  function StrippedChunk(kind: Kind, ls: seq<string>, n: nat): Chunk
    requires n <= |ls|
  {
    Chunk([Block(kind, StripAll(ls[..n]))], n)
  }

  function Step(ls: seq<string>): (c: Chunk)
    requires ls != []
    ensures 1 <= c.taken <= |ls|
    ensures |c.blocks| <= 1
  {
    if BlankLine(ls[0]) then Chunk([], 1)
    else if FenceLine(ls[0]) then FenceChunk(ls)
    else if HeadingLine(ls[0]) then StrippedChunk(Heading, ls, 1)
    else if TableHead(ls) then StrippedChunk(Table, ls, 2 + Run(PipeLine, ls[2..]))
    else if BulletLine(ls[0]) then StrippedChunk(BulletList, ls, 1 + Run(BulletLine, ls[1..]))
    else if NumberLine(ls[0]) then StrippedChunk(NumberList, ls, 1 + Run(NumberLine, ls[1..]))
    else StrippedChunk(Paragraph, ls, 1 + ParagraphRun(ls[1..]))
  }

  function Parse(ls: seq<string>): seq<Block>
    decreases |ls|
  {
    if ls == [] then [] else Step(ls).blocks + Parse(ls[Step(ls).taken..])
  }

  // ----- the program

  lemma RunStep(p: string -> bool, ls: seq<string>, i: nat)
    requires i < |ls| && p(ls[i])
    ensures Run(p, ls[i..]) == 1 + Run(p, ls[i + 1..])
  {
    assert ls[i..][1..] == ls[i + 1..];
  }

  lemma ParagraphRunStep(ls: seq<string>, i: nat)
    requires i < |ls| && Continues(ls[i..])
    ensures ParagraphRun(ls[i..]) == 1 + ParagraphRun(ls[i + 1..])
  {
    assert ls[i..][1..] == ls[i + 1..];
  }

  /** One inner loop of the parser: advances the cursor over a run of stripped lines. */
  method TakeRun(p: string -> bool, lines: seq<string>, start: nat)
      returns (taken: seq<string>, i: nat, ghost moves: nat)
    requires start <= |lines|
    ensures i == start + Run(p, lines[start..])
    ensures i <= |lines| && moves == i - start
    ensures taken == StripAll(lines[start..i])
  {
    hide Strip;
    i, moves := start, 0;
    taken := [];
    while i < |lines| && p(lines[i])
      invariant start <= i <= |lines| && moves == i - start
      invariant Run(p, lines[start..]) == (i - start) + Run(p, lines[i..])
      invariant taken == StripAll(lines[start..i])
    {
      RunStep(p, lines, i);
      taken := taken + [Strip(lines[i])];
      i, moves := i + 1, moves + 1;
    }
  }

  /** The inner loop of a code block keeps lines as they are. */
  method TakeCode(lines: seq<string>, start: nat) returns (code: seq<string>, i: nat, ghost moves: nat)
    requires start <= |lines|
    ensures i == start + Run(CodeLine, lines[start..])
    ensures i <= |lines| && moves == i - start
    ensures code == lines[start..i]
  {
    hide Strip;
    i, moves := start, 0;
    code := [];
    while i < |lines| && !FenceLine(lines[i])
      invariant start <= i <= |lines| && moves == i - start
      invariant Run(CodeLine, lines[start..]) == (i - start) + Run(CodeLine, lines[i..])
      invariant code == lines[start..i]
    {
      RunStep(CodeLine, lines, i);
      code := code + [lines[i]];
      i, moves := i + 1, moves + 1;
    }
  }

  /** The six reasons for a paragraph to stop before line `i`. */
  method ParagraphStops(lines: seq<string>, i: nat) returns (stop: bool)
    requires i < |lines|
    ensures stop == !Continues(lines[i..])
  {
    hide Strip;
    var candidate := Strip(lines[i]);
    if candidate == "" || IsFence(candidate) || IsHeading(candidate) || IsBullet(candidate) || IsNumbered(candidate) {
      return true;
    }
    if IsPipe(candidate) && i + 1 < |lines| {
      var next := Strip(lines[i + 1]);
      assert lines[i..][1] == lines[i + 1];
      if IsPipe(next) && Contains(next, "---") {
        return true;
      }
    }
    return false;
  }

  /** The inner loop of a paragraph. */
  method TakeParagraph(lines: seq<string>, start: nat) returns (para: seq<string>, i: nat, ghost moves: nat)
    requires start <= |lines|
    ensures i == start + ParagraphRun(lines[start..])
    ensures i <= |lines| && moves == i - start
    ensures para == StripAll(lines[start..i])
  {
    hide Strip;
    i, moves := start, 0;
    para := [];
    while i < |lines|
      invariant start <= i <= |lines| && moves == i - start
      invariant ParagraphRun(lines[start..]) == (i - start) + ParagraphRun(lines[i..])
      invariant para == StripAll(lines[start..i])
    {
      var stop := ParagraphStops(lines, i);
      if stop {
        break;
      }
      ParagraphRunStep(lines, i);
      para := para + [Strip(lines[i])];
      i, moves := i + 1, moves + 1;
    }
  }

  lemma ParseStep(ls: seq<string>)
    requires ls != []
    ensures Parse(ls) == Step(ls).blocks + Parse(ls[Step(ls).taken..])
  {
  }

  /** The loop invariant of the outer loop is kept by one chunk. */
  lemma ParseAdvances(lines: seq<string>, i: nat, blocks: seq<Block>, found: seq<Block>, next: nat)
    requires i < next <= |lines|
    requires Chunk(found, next - i) == Step(lines[i..])
    ensures blocks + Parse(lines[i..]) == (blocks + found) + Parse(lines[next..])
  {
    hide *;
    ParseStep(lines[i..]);
    var rest := lines[i..][next - i..];
    assert rest == lines[next..];
    assert blocks + (found + Parse(rest)) == (blocks + found) + Parse(rest);
  }

  /** A chunk of stripped lines, put together from the line at the cursor and a run after it. */
  lemma StrippedFrom(kind: Kind, lines: seq<string>, start: nat, next: nat)
    requires start < next <= |lines|
    ensures StrippedChunk(kind, lines[start..], next - start)
         == Chunk([Block(kind, [Strip(lines[start])] + StripAll(lines[start + 1..next]))], next - start)
  {
    assert StripAll(lines[start..][..next - start]) == [Strip(lines[start])] + StripAll(lines[start + 1..next]);
  }

  lemma FenceFrom(lines: seq<string>, start: nat, next: nat)
    requires start < next <= |lines|
    requires next == start + 1 + Run(CodeLine, lines[start + 1..])
    ensures FenceChunk(lines[start..])
         == Chunk([Block(Code, lines[start + 1..next])], if next < |lines| then next + 1 - start else next - start)
  {
    assert lines[start..][1..] == lines[start + 1..];
    assert lines[start..][1..next - start] == lines[start + 1..next];
  }

  /** The chunk of a line that is neither blank, nor a fence, nor a heading. */
  lemma StepOfBody(ls: seq<string>)
    requires ls != [] && !BlankLine(ls[0]) && !FenceLine(ls[0]) && !HeadingLine(ls[0])
    ensures Step(ls) ==
              if TableHead(ls) then StrippedChunk(Table, ls, 2 + Run(PipeLine, ls[2..]))
              else if BulletLine(ls[0]) then StrippedChunk(BulletList, ls, 1 + Run(BulletLine, ls[1..]))
              else if NumberLine(ls[0]) then StrippedChunk(NumberList, ls, 1 + Run(NumberLine, ls[1..]))
              else StrippedChunk(Paragraph, ls, 1 + ParagraphRun(ls[1..]))
  {
    hide Strip, Run, ParagraphRun, StrippedChunk, IsHeading, IsBullet, IsNumbered, IsDelimiter;
  }

  lemma TableHeadAt(lines: seq<string>, start: nat)
    requires start < |lines|
    ensures TableHead(lines[start..]) <==>
            PipeLine(lines[start]) && start + 1 < |lines| && IsDelimiter(Strip(lines[start + 1]))
  {
    hide Strip, IsDelimiter;
  }

  lemma StepBody(lines: seq<string>, start: nat)
    requires start < |lines|
    requires !BlankLine(lines[start]) && !FenceLine(lines[start]) && !HeadingLine(lines[start])
    ensures TableHead(lines[start..]) <==>
            PipeLine(lines[start]) && start + 1 < |lines| && IsDelimiter(Strip(lines[start + 1]))
    ensures TableHead(lines[start..]) ==>
              Step(lines[start..]) == StrippedChunk(Table, lines[start..], 2 + Run(PipeLine, lines[start + 2..]))
    ensures !TableHead(lines[start..]) ==>
              Step(lines[start..]) ==
                if BulletLine(lines[start]) then
                  StrippedChunk(BulletList, lines[start..], 1 + Run(BulletLine, lines[start + 1..]))
                else if NumberLine(lines[start]) then
                  StrippedChunk(NumberList, lines[start..], 1 + Run(NumberLine, lines[start + 1..]))
                else StrippedChunk(Paragraph, lines[start..], 1 + ParagraphRun(lines[start + 1..]))
  {
    hide *;
    var ls := lines[start..];
    StepOfBody(ls);
    TableHeadAt(lines, start);
    assert ls[1..] == lines[start + 1..];
    if start + 1 < |lines| {
      assert ls[2..] == lines[start + 2..];
    }
  }

  /** One pass of the outer loop: the block found at the cursor, if any, and the cursor after it. */
  method ParseOne(lines: seq<string>, start: nat) returns (found: seq<Block>, i: nat, ghost moves: nat)
    requires start < |lines|
    ensures start < i <= |lines| && moves <= i - start
    ensures Chunk(found, i - start) == Step(lines[start..])
  {
    hide Strip;
    var stripped := Strip(lines[start]);
    if stripped == "" {
      return [], start + 1, 1;
    }
    if IsFence(stripped) {
      var code;
      code, i, moves := TakeCode(lines, start + 1);
      moves := moves + 1;
      FenceFrom(lines, start, i);
      if i < |lines| {
        i, moves := i + 1, moves + 1;
      }
      return [Block(Code, code)], i, moves;
    }
    if IsHeading(stripped) {
      StrippedFrom(Heading, lines, start, start + 1);
      assert [stripped] == [stripped] + StripAll(lines[start + 1..start + 1]);
      return [Block(Heading, [stripped])], start + 1, 1;
    }
    found, i, moves := ParseBody(lines, start);
  }

  /** The rest of the pass, for a line that is neither blank, nor a fence, nor a heading. */
  method ParseBody(lines: seq<string>, start: nat) returns (found: seq<Block>, i: nat, ghost moves: nat)
    requires start < |lines|
    requires !BlankLine(lines[start]) && !FenceLine(lines[start]) && !HeadingLine(lines[start])
    ensures start < i <= |lines| && moves <= i - start
    ensures Chunk(found, i - start) == Step(lines[start..])
  {
    hide Strip;
    StepBody(lines, start);
    if PipeLine(lines[start]) && start + 1 < |lines| {
      var next := Strip(lines[start + 1]);
      if IsDelimiter(next) {
        found, i, moves := ParseTable(lines, start);
        return;
      }
    }
    var stripped, rest, kind := Strip(lines[start]), [], Paragraph;
    if BulletLine(lines[start]) {
      kind := BulletList;
      rest, i, moves := TakeRun(BulletLine, lines, start + 1);
    } else if NumberLine(lines[start]) {
      kind := NumberList;
      rest, i, moves := TakeRun(NumberLine, lines, start + 1);
    } else {
      rest, i, moves := TakeParagraph(lines, start + 1);
    }
    StrippedFrom(kind, lines, start, i);
    found, moves := [Block(kind, [stripped] + rest)], moves + 1;
  }

  lemma TableFrom(lines: seq<string>, start: nat, next: nat)
    requires start + 2 <= next <= |lines|
    ensures StrippedChunk(Table, lines[start..], next - start)
         == Chunk([Block(Table, [Strip(lines[start]), Strip(lines[start + 1])] + StripAll(lines[start + 2..next]))],
                  next - start)
  {
    hide Strip;
    StrippedFrom(Table, lines, start, next);
    var rest := StripAll(lines[start + 1..next]);
    assert rest == [Strip(lines[start + 1])] + StripAll(lines[start + 2..next]);
    assert [Strip(lines[start])] + rest
        == [Strip(lines[start]), Strip(lines[start + 1])] + StripAll(lines[start + 2..next]);
  }

  method ParseTable(lines: seq<string>, start: nat) returns (found: seq<Block>, i: nat, ghost moves: nat)
    requires start + 1 < |lines|
    ensures start < i <= |lines| && moves <= i - start
    ensures Chunk(found, i - start) == StrippedChunk(Table, lines[start..], 2 + Run(PipeLine, lines[start + 2..]))
  {
    hide Strip, StripAll, StrippedChunk, Run, IsPipe;
    var head := [Strip(lines[start]), Strip(lines[start + 1])];
    var rows;
    rows, i, moves := TakeRun(PipeLine, lines, start + 2);
    TableFrom(lines, start, i);
    found, moves := [Block(Table, head + rows)], moves + 1;
  }

  /** `parse_blocks`; all its loops together move the cursor at most once per line. */
  method ParseBlocks(text: string) returns (blocks: seq<Block>, ghost moves: nat)
    ensures blocks == Parse(SplitLines(text))
    ensures moves <= |SplitLines(text)|
  {
    var lines := SplitLines(text);
    blocks, moves := ParseLines(lines);
  }

  method ParseLines(lines: seq<string>) returns (blocks: seq<Block>, ghost moves: nat)
    ensures blocks == Parse(lines)
    ensures moves <= |lines|
  {
    blocks, moves := [], 0;
    var i := 0;
    while i < |lines|
      invariant 0 <= i <= |lines| && moves <= i
      invariant blocks + Parse(lines[i..]) == Parse(lines)
    {
      var found, next, more := ParseOne(lines, i);
      ParseAdvances(lines, i, blocks, found, next);
      blocks, i, moves := blocks + found, next, moves + more;
    }
  }
}
