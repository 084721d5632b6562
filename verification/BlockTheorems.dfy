/**
What the block parser guarantees for every input: where a document may be cut in two, and that no
line is lost, duplicated or reordered.
 */
module BlockTheorems {
  import opened PyText
  import opened MarkdownBlocks

  // ----- a one-bit reading of the document: inside or outside a fence

  /** Whether the end of `ls` lies inside a code fence, if its start does as `inside` says. */
  function Inside(ls: seq<string>, inside: bool): bool {
    if ls == [] then inside else Inside(ls[1..], inside != FenceLine(ls[0]))
  }

  /** What one line contributes: fences and outside blanks nothing, inside lines themselves, others stripped. */
  function KeptLine(l: string, inside: bool): seq<string> {
    if FenceLine(l) then [] else if inside then [l] else if BlankLine(l) then [] else [Strip(l)]
  }

  function Kept(ls: seq<string>, inside: bool): seq<string> {
    if ls == [] then [] else KeptLine(ls[0], inside) + Kept(ls[1..], inside != FenceLine(ls[0]))
  }

  lemma {:induction false} KeptAppend(a: seq<string>, b: seq<string>, inside: bool)
    ensures Inside(a + b, inside) == Inside(b, Inside(a, inside))
    ensures Kept(a + b, inside) == Kept(a, inside) + Kept(b, Inside(a, inside))
  {
    hide KeptLine, FenceLine;
    if a == [] {
      assert a + b == b;
    } else {
      assert (a + b)[1..] == a[1..] + b;
      KeptAppend(a[1..], b, inside != FenceLine(a[0]));
    }
  }

  lemma {:induction false} KeptCode(ls: seq<string>)
    requires forall k :: 0 <= k < |ls| ==> CodeLine(ls[k])
    ensures Inside(ls, true)
    ensures Kept(ls, true) == ls
  {
    if ls != [] {
      assert CodeLine(ls[0]);
      KeptCode(ls[1..]);
      assert ls == [ls[0]] + ls[1..];
    }
  }

  predicate BodyLine(l: string) {
    !BlankLine(l) && !FenceLine(l)
  }

  lemma {:induction false} KeptBody(ls: seq<string>)
    requires forall k :: 0 <= k < |ls| ==> BodyLine(ls[k])
    ensures !Inside(ls, false)
    ensures Kept(ls, false) == StripAll(ls)
  {
    hide Strip;
    if ls != [] {
      assert BodyLine(ls[0]);
      KeptBody(ls[1..]);
      assert StripAll(ls) == [Strip(ls[0])] + StripAll(ls[1..]);
    }
  }

  // ----- chunks

  /** A fence with no closing fence below it. */
  predicate Unclosed(ls: seq<string>) {
    ls != [] && FenceLine(ls[0]) && Run(CodeLine, ls[1..]) == |ls| - 1
  }

  lemma BodyClasses(l: string)
    ensures BulletLine(l) || NumberLine(l) || PipeLine(l) || HeadingLine(l) ==> BodyLine(l)
  {
  }

  lemma RunIsBody(p: string -> bool, ls: seq<string>)
    requires forall l :: p(l) ==> BodyLine(l)
    ensures forall k :: 0 <= k < Run(p, ls) ==> BodyLine(ls[k])
  {
  }

  lemma {:induction false} ParagraphRunIsBody(ls: seq<string>)
    ensures forall k :: 0 <= k < ParagraphRun(ls) ==> BodyLine(ls[k])
  {
    if Continues(ls) {
      ParagraphRunIsBody(ls[1..]);
    }
  }

  /** A chunk that is not blank and not a fence is one block of all its lines, stripped; all are body lines. */
  lemma {:induction false} BodyChunk(ls: seq<string>)
    requires ls != [] && BodyLine(ls[0])
    ensures |Step(ls).blocks| == 1
    ensures Step(ls).blocks[0].lines == StripAll(ls[..Step(ls).taken])
    ensures forall k :: 0 <= k < Step(ls).taken ==> BodyLine(ls[k])
  {
    hide Strip;
    forall l { BodyClasses(l); }
    RunIsBody(BulletLine, ls[1..]);
    RunIsBody(NumberLine, ls[1..]);
    ParagraphRunIsBody(ls[1..]);
    if TableHead(ls) {
      RunIsBody(PipeLine, ls[2..]);
      assert forall k :: 2 <= k < Step(ls).taken ==> ls[k] == ls[2..][k - 2];
    } else {
      assert forall k :: 1 <= k < Step(ls).taken ==> ls[k] == ls[1..][k - 1];
    }
  }

  /** The lines of all blocks, one after the other. */
  function Flatten(blocks: seq<Block>): seq<string> {
    if blocks == [] then [] else blocks[0].lines + Flatten(blocks[1..])
  }

  lemma {:induction false} FlattenAppend(a: seq<Block>, b: seq<Block>)
    ensures Flatten(a + b) == Flatten(a) + Flatten(b)
  {
    if a == [] {
      assert a + b == b;
    } else {
      assert (a + b)[1..] == a[1..] + b;
      FlattenAppend(a[1..], b);
    }
  }

  lemma FenceChunkKept(ls: seq<string>)
    requires ls != [] && FenceLine(ls[0])
    ensures Flatten(Step(ls).blocks) == Kept(ls[..Step(ls).taken], false)
    ensures Inside(ls[..Step(ls).taken], false) == Unclosed(ls)
  {
    hide Strip;
    var n := Run(CodeLine, ls[1..]);
    var body := ls[1..1 + n];
    var taken := Step(ls).taken;
    assert forall k :: 0 <= k < |body| ==> body[k] == ls[1..][k];
    KeptCode(body);
    assert Step(ls).blocks == [Block(Code, body)];
    assert Flatten([Block(Code, body)]) == body;
    assert ls[..taken][1..] == ls[1..taken];
    if 1 + n < |ls| {
      var last := [ls[1 + n]];
      assert ls[1 + n] == ls[1..][n];
      assert ls[1..taken] == body + last;
      KeptAppend(body, last, true);
    } else {
      assert ls[1..taken] == body;
    }
  }

  /** One chunk contributes exactly what the one-bit reading keeps of its lines. */
  lemma ChunkKept(ls: seq<string>)
    requires ls != []
    ensures Flatten(Step(ls).blocks) == Kept(ls[..Step(ls).taken], false)
    ensures Inside(ls[..Step(ls).taken], false) == Unclosed(ls)
  {
    hide Strip;
    var head := ls[..Step(ls).taken];
    if BlankLine(ls[0]) {
      assert head == [ls[0]];
    } else if FenceLine(ls[0]) {
      FenceChunkKept(ls);
    } else {
      BodyChunk(ls);
      KeptBody(head);
      var b := Step(ls).blocks[0];
      assert Step(ls).blocks == [b];
      assert Flatten([b]) == b.lines;
    }
  }

  /**
  Conservation: the lines of the parsed blocks, in order, are exactly what the one-bit reading keeps.
  The six branches of the parser lose, duplicate and reorder nothing.
   */
  lemma {:induction false} Conservation(ls: seq<string>)
    ensures Flatten(Parse(ls)) == Kept(ls, false)
    decreases |ls|
  {
    if ls != [] {
      var c := Step(ls);
      var head, rest := ls[..c.taken], ls[c.taken..];
      assert ls == head + rest;
      ChunkKept(ls);
      KeptAppend(head, rest, false);
      FlattenAppend(c.blocks, Parse(rest));
      if Unclosed(ls) {
        assert rest == [];
      } else {
        Conservation(rest);
      }
    }
  }

  // ----- composition

  lemma {:induction false} RunCut(p: string -> bool, a: seq<string>, b: seq<string>)
    requires !p("") || Run(p, a) < |a|
    ensures Run(p, a + [""] + b) == Run(p, a)
  {
    var all := a + [""] + b;
    if a == [] {
      assert all[0] == "";
    } else {
      assert all[1..] == a[1..] + [""] + b;
      if p(a[0]) {
        RunCut(p, a[1..], b);
      }
    }
  }

  lemma BlankEmpty()
    ensures BlankLine("") && !FenceLine("") && !PipeLine("") && !BulletLine("") && !NumberLine("")
    ensures !HeadingLine("")
  {
  }

  lemma TableHeadCut(a: seq<string>, b: seq<string>)
    requires a != []
    ensures TableHead(a + [""] + b) == TableHead(a)
  {
    hide Strip;
    var all := a + [""] + b;
    BlankEmpty();
    assert all[0] == a[0];
    assert all[1] == if |a| == 1 then "" else a[1];
  }

  lemma {:induction false} ParagraphRunCut(a: seq<string>, b: seq<string>)
    ensures ParagraphRun(a + [""] + b) == ParagraphRun(a)
  {
    hide Strip;
    var all := a + [""] + b;
    if a == [] {
      BlankEmpty();
      assert all[0] == "";
    } else {
      assert all[0] == a[0] && all[1..] == a[1..] + [""] + b;
      TableHeadCut(a, b);
      ParagraphRunCut(a[1..], b);
    }
  }

  lemma StrippedChunkCut(kind: Kind, a: seq<string>, b: seq<string>, n: nat)
    requires n <= |a|
    ensures StrippedChunk(kind, a + [""] + b, n) == StrippedChunk(kind, a, n)
  {
    assert (a + [""] + b)[..n] == a[..n];
  }

  lemma FenceChunkCut(a: seq<string>, b: seq<string>)
    requires a != [] && Run(CodeLine, a[1..]) < |a| - 1
    ensures FenceChunk(a + [""] + b) == FenceChunk(a)
  {
    var all := a + [""] + b;
    assert all[1..] == a[1..] + [""] + b;
    RunCut(CodeLine, a[1..], b);
    var n := Run(CodeLine, a[1..]);
    assert all[1..1 + n] == a[1..1 + n];
  }

  lemma CutAfter(a: seq<string>, b: seq<string>)
    requires a != []
    ensures var all := a + [""] + b;
            && all != [] && all[0] == a[0] && all[1..] == a[1..] + [""] + b
            && (|a| >= 2 ==> all[2..] == a[2..] + [""] + b)
  {
  }

  /** The runs after the first line of a chunk end before the cut. */
  lemma RunsCut(a: seq<string>, b: seq<string>)
    requires a != []
    ensures var all := a + [""] + b;
            && all != []
            && (|a| >= 2 ==> Run(PipeLine, all[2..]) == Run(PipeLine, a[2..]))
            && Run(BulletLine, all[1..]) == Run(BulletLine, a[1..])
            && Run(NumberLine, all[1..]) == Run(NumberLine, a[1..])
            && ParagraphRun(all[1..]) == ParagraphRun(a[1..])
  {
    hide *;
    CutAfter(a, b);
    BlankEmpty();
    if |a| >= 2 {
      RunCut(PipeLine, a[2..], b);
    }
    RunCut(BulletLine, a[1..], b);
    RunCut(NumberLine, a[1..], b);
    ParagraphRunCut(a[1..], b);
  }

  lemma StepCutTable(a: seq<string>, b: seq<string>)
    requires a != [] && !BlankLine(a[0]) && !FenceLine(a[0]) && !HeadingLine(a[0]) && TableHead(a)
    ensures Step(a + [""] + b) == Step(a)
  {
    hide *;
    CutAfter(a, b);
    StepOfBody(a);
    StepOfBody(a + [""] + b);
    TableHeadCut(a, b);
    TableHeadLong(a);
    RunsCut(a, b);
    StrippedChunkCut(Table, a, b, 2 + Run(PipeLine, a[2..]));
  }

  lemma StepCutList(a: seq<string>, b: seq<string>)
    requires a != [] && !BlankLine(a[0]) && !FenceLine(a[0]) && !HeadingLine(a[0]) && !TableHead(a)
    ensures Step(a + [""] + b) == Step(a)
  {
    hide *;
    CutAfter(a, b);
    StepOfBody(a);
    StepOfBody(a + [""] + b);
    TableHeadCut(a, b);
    RunsCut(a, b);
    if BulletLine(a[0]) {
      StrippedChunkCut(BulletList, a, b, 1 + Run(BulletLine, a[1..]));
    } else if NumberLine(a[0]) {
      StrippedChunkCut(NumberList, a, b, 1 + Run(NumberLine, a[1..]));
    } else {
      StrippedChunkCut(Paragraph, a, b, 1 + ParagraphRun(a[1..]));
    }
  }

  lemma StepCutBody(a: seq<string>, b: seq<string>)
    requires a != [] && BodyLine(a[0]) && !HeadingLine(a[0])
    ensures Step(a + [""] + b) == Step(a)
  {
    hide *;
    BodyIs(a[0]);
    if TableHead(a) { StepCutTable(a, b); } else { StepCutList(a, b); }
  }

  lemma BodyIs(l: string)
    ensures BodyLine(l) <==> !BlankLine(l) && !FenceLine(l)
  {
  }

  lemma TableHeadLong(ls: seq<string>)
    requires TableHead(ls)
    ensures |ls| >= 2
  {
  }

  /** A blank line and anything after it cannot be seen by a chunk before it, unless it is an open fence. */
  lemma StepCut(a: seq<string>, b: seq<string>)
    requires a != [] && !Unclosed(a)
    ensures Step(a + [""] + b) == Step(a)
  {
    hide Strip, Run, ParagraphRun, TableHead, IsHeading, IsBullet, IsNumbered;
    var all := a + [""] + b;
    assert all[0] == a[0] && all[1..] == a[1..] + [""] + b;
    if BlankLine(a[0]) {
    } else if FenceLine(a[0]) {
      FenceChunkCut(a, b);
    } else if HeadingLine(a[0]) {
      StrippedChunkCut(Heading, a, b, 1);
    } else {
      StepCutBody(a, b);
    }
  }

  /** An unclosed fence swallows the separator: its block has more lines than it would have alone. */
  lemma UnclosedGrows(a: seq<string>, b: seq<string>)
    requires Unclosed(a)
    ensures Parse(a) == [Block(Code, a[1..])]
    ensures Parse(a + [""] + b) != []
    ensures Parse(a + [""] + b)[0].lines != a[1..]
  {
    var all := a + [""] + b;
    assert all[0] == a[0];
    assert a[1..|a|] == a[1..];
    assert FenceChunk(a) == Chunk([Block(Code, a[1..])], |a|);
    assert Parse(a[|a|..]) == [];
    var n := Run(CodeLine, all[1..]);
    BlankEmpty();
    forall k | 0 <= k < |a|
      ensures CodeLine(all[1..][k])
    {
      assert all[1..][k] == if k < |a| - 1 then a[1..][k] else "";
    }
    assert n >= |a|;
    assert |all[1..1 + n]| == n;
  }

  lemma InsideStep(ls: seq<string>)
    requires ls != []
    ensures Unclosed(ls) ==> Inside(ls, false)
    ensures !Unclosed(ls) ==> Inside(ls, false) == Inside(ls[Step(ls).taken..], false)
  {
    hide Step, Unclosed, FenceLine;
    var n := Step(ls).taken;
    ChunkKept(ls);
    assert ls == ls[..n] + ls[n..];
    KeptAppend(ls[..n], ls[n..], false);
    if Unclosed(ls) {
      UnclosedTakesAll(ls);
      assert ls[n..] == [];
    }
  }

  lemma UnclosedTakesAll(ls: seq<string>)
    requires Unclosed(ls)
    ensures Step(ls).taken == |ls|
  {
    hide Strip;
  }

  /**
  Composition: a blank line cuts a document into two that parse independently, whatever the two are,
  if and only if the first does not end inside an open fence. The lookahead for tables never reaches
  across the cut.
   */
  lemma {:induction false} Composition(a: seq<string>, b: seq<string>)
    ensures Parse(a + [""] + b) == Parse(a) + Parse(b) <==> !Inside(a, false)
    decreases |a|
  {
    var all := a + [""] + b;
    if a == [] {
      BlankEmpty();
      assert all[0] == "" && all[1..] == b;
      assert Parse(all) == [] + Parse(b);
    } else {
      InsideStep(a);
      if Unclosed(a) {
        UnclosedGrows(a, b);
        assert (Parse(a) + Parse(b))[0].lines == a[1..];
      } else {
        StepCut(a, b);
        var c := Step(a);
        var rest := a[c.taken..];
        assert all[c.taken..] == rest + [""] + b;
        Composition(rest, b);
        Cancel(c.blocks, Parse(rest + [""] + b), Parse(rest), Parse(b));
      }
    }
  }

  lemma Cancel(x: seq<Block>, y: seq<Block>, z: seq<Block>, w: seq<Block>)
    ensures x + y == (x + z) + w <==> y == z + w
  {
    assert (x + z) + w == x + (z + w);
    assert (x + y)[|x|..] == y;
    assert (x + (z + w))[|x|..] == z + w;
  }
}
