/**
Where the blocks lie in the document: disjoint, in order, with only blank lines between them, and as
long as they can be.
 */
module BlockLayout {
  import opened MarkdownBlocks
  import opened BlockTheorems

  datatype Span = Span(block: Block, lo: nat, hi: nat)

  function SpanOf(c: Chunk, i: nat): seq<Span> {
    if c.blocks == [] then [] else [Span(c.blocks[0], i, i + c.taken)]
  }

  /** The blocks that the parser finds from line `i` on, each with the lines it takes up. */
  function Spans(lines: seq<string>, i: nat): seq<Span>
    requires i <= |lines|
    decreases |lines| - i
  {
    if i == |lines| then [] else
      var c := Step(lines[i..]);
      SpanOf(c, i) + Spans(lines, i + c.taken)
  }

  function BlocksOf(spans: seq<Span>): (blocks: seq<Block>)
    ensures |blocks| == |spans|
  {
    if spans == [] then [] else [spans[0].block] + BlocksOf(spans[1..])
  }

  lemma SpansStep(lines: seq<string>, i: nat)
    requires i < |lines|
    ensures var c := Step(lines[i..]);
            && i + c.taken <= |lines|
            && Spans(lines, i) == SpanOf(c, i) + Spans(lines, i + c.taken)
  {
  }

  lemma {:induction false} ParseFrom(lines: seq<string>, i: nat)
    requires i < |lines|
    ensures var c := Step(lines[i..]);
            && i + c.taken <= |lines|
            && Parse(lines[i..]) == c.blocks + Parse(lines[i + c.taken..])
  {
    hide Step, Parse;
    ParseStep(lines[i..]);
    assert lines[i..][Step(lines[i..]).taken..] == lines[i + Step(lines[i..]).taken..];
  }

  lemma SpansEnd(lines: seq<string>)
    ensures Spans(lines, |lines|) == [] && BlocksOf([]) == [] && Parse(lines[|lines|..]) == []
    ensures Tiled(lines, [], |lines|) && Faithful(lines, [])
  {
  }

  lemma BlocksOfStep(c: Chunk, i: nat, rest: seq<Span>)
    requires |c.blocks| <= 1
    ensures BlocksOf(SpanOf(c, i) + rest) == c.blocks + BlocksOf(rest)
  {
    if c.blocks == [] {
      assert SpanOf(c, i) + rest == rest;
    } else {
      assert c.blocks == [c.blocks[0]];
      assert (SpanOf(c, i) + rest)[1..] == rest;
    }
  }

  lemma {:induction false} SpansAreParse(lines: seq<string>, i: nat)
    requires i <= |lines|
    ensures BlocksOf(Spans(lines, i)) == Parse(lines[i..])
    decreases |lines| - i
  {
    hide *;
    if i == |lines| {
      SpansEnd(lines);
    } else {
      var c := Step(lines[i..]);
      SpansStep(lines, i);
      ParseFrom(lines, i);
      BlocksOfStep(c, i, Spans(lines, i + c.taken));
      SpansAreParse(lines, i + c.taken);
    }
  }

  ghost predicate BlankBetween(lines: seq<string>, lo: nat, hi: nat)
    requires hi <= |lines|
  {
    forall k :: lo <= k < hi ==> BlankLine(lines[k])
  }

  /** From line `i` on, the spans lie in order, nonempty and disjoint, with only blank lines between and after. */
  ghost predicate Tiled(lines: seq<string>, spans: seq<Span>, i: nat) {
    if spans == [] then i <= |lines| && BlankBetween(lines, i, |lines|)
    else
      && i <= spans[0].lo < spans[0].hi <= |lines|
      && BlankBetween(lines, i, spans[0].lo)
      && Tiled(lines, spans[1..], spans[0].hi)
  }

  lemma BlankHasNoBlock(ls: seq<string>)
    requires ls != []
    ensures Step(ls).blocks == [] <==> BlankLine(ls[0])
    ensures BlankLine(ls[0]) ==> Step(ls).taken == 1
  {
  }

  lemma TiledBlank(lines: seq<string>, spans: seq<Span>, i: nat)
    requires i < |lines| && BlankLine(lines[i]) && Tiled(lines, spans, i + 1)
    ensures Tiled(lines, spans, i)
  {
    hide BlankLine;
  }

  lemma TiledCons(lines: seq<string>, s: Span, spans: seq<Span>)
    requires s.lo < s.hi <= |lines| && Tiled(lines, spans, s.hi)
    ensures Tiled(lines, [s] + spans, s.lo)
  {
    hide BlankLine;
    assert ([s] + spans)[1..] == spans;
  }

  /** In a tiling every span ends before the next one starts. */
  lemma {:induction false} TiledOrder(lines: seq<string>, spans: seq<Span>, i: nat, k: nat)
    requires Tiled(lines, spans, i) && k + 1 < |spans|
    ensures spans[k].hi <= spans[k + 1].lo
  {
    hide BlankBetween;
    if k == 0 {
      assert spans[1..][0] == spans[1];
    } else {
      TiledOrder(lines, spans[1..], spans[0].hi, k - 1);
    }
  }

  /** Each span is the chunk the parser sees at its first line. */
  ghost predicate Faithful(lines: seq<string>, spans: seq<Span>) {
    forall k :: 0 <= k < |spans| ==>
      spans[k].lo < spans[k].hi <= |lines| &&
      Step(lines[spans[k].lo..]) == Chunk([spans[k].block], spans[k].hi - spans[k].lo)
  }

  lemma TiledStep(lines: seq<string>, i: nat, rest: seq<Span>)
    requires i < |lines|
    requires var n := Step(lines[i..]).taken; i + n <= |lines| && Tiled(lines, rest, i + n)
    ensures Tiled(lines, SpanOf(Step(lines[i..]), i) + rest, i)
  {
    hide Step, Tiled;
    var c := Step(lines[i..]);
    BlankHasNoBlock(lines[i..]);
    if c.blocks == [] {
      assert SpanOf(c, i) + rest == rest;
      TiledBlank(lines, rest, i);
    } else {
      TiledCons(lines, Span(c.blocks[0], i, i + c.taken), rest);
    }
  }

  lemma {:induction false} SpansTiled(lines: seq<string>, i: nat)
    requires i <= |lines|
    ensures Tiled(lines, Spans(lines, i), i)
    ensures Faithful(lines, Spans(lines, i))
    decreases |lines| - i
  {
    hide *;
    if i == |lines| {
      SpansEnd(lines);
    } else {
      SpansStep(lines, i);
      var next := i + Step(lines[i..]).taken;
      SpansTiled(lines, next);
      TiledStep(lines, i, Spans(lines, next));
      FaithfulStep(lines, i, Spans(lines, next));
    }
  }

  lemma FaithfulStep(lines: seq<string>, i: nat, rest: seq<Span>)
    requires i < |lines| && Faithful(lines, rest)
    ensures Faithful(lines, SpanOf(Step(lines[i..]), i) + rest)
  {
    hide Step;
    var c := Step(lines[i..]);
    if c.blocks == [] {
      assert SpanOf(c, i) + rest == rest;
    } else {
      var s := Span(c.blocks[0], i, i + c.taken);
      assert c.blocks == [s.block];
      assert c == Chunk([s.block], s.hi - s.lo);
      assert forall k :: 0 < k < |[s] + rest| ==> ([s] + rest)[k] == rest[k - 1];
    }
  }

  /** Kinds whose blocks run on for as long as lines of their kind follow. */
  predicate Greedy(kind: Kind) {
    kind != Heading && kind != Code
  }

  /** A block of a greedy kind ends only where the line after it would not belong to such a block. */
  lemma ChunkMaximal(lines: seq<string>, s: Span)
    requires s.lo < s.hi < |lines|
    requires Step(lines[s.lo..]) == Chunk([s.block], s.hi - s.lo)
    ensures s.block.kind == Table ==> !PipeLine(lines[s.hi])
    ensures s.block.kind == BulletList ==> !BulletLine(lines[s.hi])
    ensures s.block.kind == NumberList ==> !NumberLine(lines[s.hi])
    ensures s.block.kind == Paragraph ==> !Continues(lines[s.hi..])
  {
    var ls := lines[s.lo..];
    var n := s.hi - s.lo;
    assert ls[n] == lines[s.hi];
    if BlankLine(ls[0]) || FenceLine(ls[0]) || HeadingLine(ls[0]) {
    } else if TableHead(ls) {
      assert ls[2..][n - 2] == ls[n];
    } else if BulletLine(ls[0]) || NumberLine(ls[0]) {
      assert ls[1..][n - 1] == ls[n];
    } else {
      ParagraphRunIs(ls[1..], n - 1);
      assert ls[1..][n - 1..] == lines[s.hi..];
    }
  }

  lemma KindOfChunk(ls: seq<string>)
    requires ls != [] && Step(ls).blocks != []
    ensures var kind := Step(ls).blocks[0].kind;
            && (kind == Table ==> PipeLine(ls[0]))
            && (kind == BulletList ==> BulletLine(ls[0]))
            && (kind == NumberList ==> NumberLine(ls[0]))
            && (kind == Paragraph ==> Continues(ls))
  {
  }

  /** Of two chunks side by side, the second is not of the first one's greedy kind. */
  lemma NeighboursDiffer(lines: seq<string>, s: Span, t: Span)
    requires s.lo < s.hi == t.lo < t.hi <= |lines|
    requires Step(lines[s.lo..]) == Chunk([s.block], s.hi - s.lo)
    requires Step(lines[t.lo..]) == Chunk([t.block], t.hi - t.lo)
    requires Greedy(s.block.kind)
    ensures s.block.kind != t.block.kind
  {
    hide Step;
    ChunkMaximal(lines, s);
    KindOfChunk(lines[t.lo..]);
    assert lines[t.lo..][0] == lines[s.hi];
  }

  /** Two neighbours of one greedy kind have a line between them. */
  ghost predicate Separated(spans: seq<Span>) {
    forall k | 0 <= k < |spans| - 1 && spans[k].block.kind == spans[k + 1].block.kind && Greedy(spans[k].block.kind) ::
      spans[k].hi < spans[k + 1].lo
  }

  lemma {:induction false} SpansSeparated(lines: seq<string>, s: seq<Span>)
    requires Tiled(lines, s, 0) && Faithful(lines, s)
    ensures Separated(s)
  {
    hide Step, Tiled, Faithful;
    forall k | 0 <= k < |s| - 1 && s[k].block.kind == s[k + 1].block.kind && Greedy(s[k].block.kind)
      ensures s[k].hi < s[k + 1].lo
    {
      SpanAt(lines, s, k);
      SpanAt(lines, s, k + 1);
      if s[k].hi == s[k + 1].lo {
        NeighboursDiffer(lines, s[k], s[k + 1]);
      }
    }
  }

  lemma {:induction false} SpanAt(lines: seq<string>, s: seq<Span>, k: nat)
    requires k < |s| && Tiled(lines, s, 0) && Faithful(lines, s)
    ensures k + 1 < |s| ==> s[k].hi <= s[k + 1].lo
    ensures s[k].lo < s[k].hi <= |lines|
    ensures Step(lines[s[k].lo..]) == Chunk([s[k].block], s[k].hi - s[k].lo)
  {
    hide Step, Tiled;
    if k + 1 < |s| {
      TiledOrder(lines, s, 0, k);
    }
  }

  /**
  A span holds exactly the kept text of its own lines, and it could not be longer: the line after a
  table, list or paragraph would not belong to it.
   */
  ghost predicate Exact(lines: seq<string>, s: Span) {
    && s.lo < s.hi <= |lines|
    && s.block.lines == Kept(lines[s.lo..s.hi], false)
    && (s.hi < |lines| ==>
          match s.block.kind
          case Table => !PipeLine(lines[s.hi])
          case BulletList => !BulletLine(lines[s.hi])
          case NumberList => !NumberLine(lines[s.hi])
          case Paragraph => !Continues(lines[s.hi..])
          case _ => true)
  }

  lemma SpanExact(lines: seq<string>, s: Span)
    requires s.lo < s.hi <= |lines|
    requires Step(lines[s.lo..]) == Chunk([s.block], s.hi - s.lo)
    ensures Exact(lines, s)
  {
    hide Step, Kept;
    ChunkKept(lines[s.lo..]);
    assert lines[s.lo..][..s.hi - s.lo] == lines[s.lo..s.hi];
    assert Flatten([s.block]) == s.block.lines;
    if s.hi < |lines| {
      ChunkMaximal(lines, s);
    }
  }

  /**
  The layout of every document: the spans give the parsed blocks, tile the lines with only blank lines
  left over, hold exactly the text of their lines, cannot be extended, and two neighbours of one greedy
  kind are always separated by a blank line.
   */
  lemma {:induction false} Layout(lines: seq<string>)
    ensures BlocksOf(Spans(lines, 0)) == Parse(lines)
    ensures Tiled(lines, Spans(lines, 0), 0)
    ensures Separated(Spans(lines, 0))
    ensures forall k :: 0 <= k < |Spans(lines, 0)| ==> Exact(lines, Spans(lines, 0)[k])
  {
    hide *;
    assert lines[0..] == lines;
    SpansAreParse(lines, 0);
    SpansTiled(lines, 0);
    SpansSeparated(lines, Spans(lines, 0));
    forall k | 0 <= k < |Spans(lines, 0)|
      ensures Exact(lines, Spans(lines, 0)[k])
    {
      SpanAt(lines, Spans(lines, 0), k);
      SpanExact(lines, Spans(lines, 0)[k]);
    }
  }
}
