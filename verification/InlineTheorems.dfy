/**
What survives inline formatting: the emitted runs against the reference reading of the text, a tight
bound on the characters that disappear, and the round trip for texts printed from spans.
 */
module InlineTheorems {
  import opened Basics
  import opened PyText
  import opened InlineRuns

  // ----- the two criteria compared

  /** Unmatched text that the second step takes for a span because it both starts and ends like one. */
  predicate Misread(t: Token) {
    t.Plain? && (t.text == "**" || t.text == "***" || t.text == "`")
  }

  function Emit(t: Token): TextRun {
    match t
    case Plain(x) =>
      if x == "**" || x == "***" then TextRun("", Bold) else if x == "`" then TextRun("", Mono) else TextRun(x, Normal)
    case Strong(x) => TextRun(x, Bold)
    case Literal(x) => TextRun(x, Mono)
  }

  function EmitAll(ts: seq<Token>): seq<TextRun> {
    if ts == [] then [] else [Emit(ts[0])] + EmitAll(ts[1..])
  }

  /** Nothing after an unmatched marker closes it, if the text is a single line. */
  lemma NothingCloses(s: string)
    requires '\n' !in s && MatchAt(s) == 0
    ensures "**" <= s ==> !Contains(s[2..], "**")
    ensures "`" <= s ==> !Contains(s[1..], "`")
  {
    if "**" <= s {
      CloseIs(s[2..], "**");
    }
    if "`" <= s {
      CloseIs(s[1..], "`");
    }
  }

  lemma PrefixContains(p: string, s: string, k: nat, part: string)
    requires k <= |p| && p <= s && Contains(p[k..], part)
    ensures Contains(s[k..], part)
  {
    var j :| 0 <= j <= |p[k..]| && part <= p[k..][j..];
    assert p[k..][j..] <= s[k..][j..];
  }

  lemma StarWrapped(p: string)
    requires StartsWith(p, "**") && EndsWith(p, "**")
    ensures Contains(p[2..], "**") || p == "**" || p == "***"
  {
    if |p| >= 4 {
      assert p[2..][|p| - 4..] == p[|p| - 2..];
    } else {
      assert p[0] == '*' && p[1] == '*' && p[|p| - 1] == '*';
    }
  }

  lemma TickWrapped(p: string)
    requires StartsWith(p, "`") && EndsWith(p, "`")
    ensures Contains(p[1..], "`") || p == "`"
  {
    if |p| >= 2 {
      assert p[1..][|p| - 2..] == p[|p| - 1..];
    }
  }

  lemma ClassifyPlain(s: string)
    requires '\n' !in s && PlainLength(s) > 0
    ensures Classify(s[..PlainLength(s)]) == Emit(Plain(s[..PlainLength(s)]))
  {
    hide PlainLength, MatchAt, Contains, Classify, Emit;
    var p := s[..PlainLength(s)];
    NothingCloses(s);
    if StartsWith(p, "**") && EndsWith(p, "**") {
      if Contains(p[2..], "**") { PrefixContains(p, s, 2, "**"); }
      StarWrapped(p);
      ClassifyMisread();
    } else if StartsWith(p, "`") && EndsWith(p, "`") {
      if Contains(p[1..], "`") { PrefixContains(p, s, 1, "`"); }
      TickWrapped(p);
      ClassifyMisread();
    } else {
      ClassifyUnwrapped(p);
    }
  }

  lemma ClassifyMisread()
    ensures Classify("**") == TextRun("", Bold) == Emit(Plain("**"))
    ensures Classify("***") == TextRun("", Bold) == Emit(Plain("***"))
    ensures Classify("`") == TextRun("", Mono) == Emit(Plain("`"))
  {
    assert "***"[1..] == "**";
  }

  lemma ClassifyUnwrapped(p: string)
    requires !(StartsWith(p, "**") && EndsWith(p, "**")) && !(StartsWith(p, "`") && EndsWith(p, "`"))
    ensures Classify(p) == TextRun(p, Normal) == Emit(Plain(p))
  {
    assert "***"[1..] == "**";
  }

  lemma ClassifySpan(m: string)
    requires IsBoldSpan(m) || IsCodeSpan(m)
    ensures Classify(m) == Emit(SpanToken(m))
  {
    if IsBoldSpan(m) {
      assert m[|m| - 2..] == "**";
    } else {
      assert m[|m| - 1..] == "`";
      assert m[..1] == "`";
    }
  }

  lemma TokensBeforeSpan(s: string)
    requires PlainLength(s) < |s|
    ensures var n := PlainLength(s);
            Tokens(s) == (if n == 0 then [] else [Plain(s[..n])]) + Tokens(s[n..])
  {
    hide MatchAt;
    if PlainLength(s) == 0 {
      assert s[0..] == s;
    } else {
      TokensOfPlain(s);
    }
  }

  lemma EmitAllAppend(a: seq<Token>, b: seq<Token>)
    ensures EmitAll(a + b) == EmitAll(a) + EmitAll(b)
  {
    if a == [] {
      assert a + b == b;
    } else {
      assert (a + b)[1..] == a[1..] + b;
      EmitAllAppend(a[1..], b);
    }
  }

  lemma {:induction false} RunsEnd(s: string)
    requires '\n' !in s && PlainLength(s) == |s|
    ensures Runs(s) == EmitAll(Tokens(s))
  {
    hide MatchAt, Classify, Emit, Tokens;
    assert ReSplit(s) == [s];
    if s == "" {
      TokensEmpty();
    } else {
      assert ClassifyAll([s]) == [Classify(s)];
      assert s[..|s|] == s && s[|s|..] == "";
      ClassifyPlain(s);
      TokensWhole(s);
      assert EmitAll([Plain(s)]) == [Emit(Plain(s))];
    }
  }

  lemma {:induction false} TokensWhole(s: string)
    requires PlainLength(s) == |s| > 0
    ensures Tokens(s) == [Plain(s)]
  {
    assert s[..|s|] == s && s[|s|..] == "";
    TokensEmpty();
    TokensOfPlain(s);
  }

  lemma {:induction false} PlainPart(s: string)
    requires '\n' !in s
    ensures var n := PlainLength(s);
            ClassifyAll([s[..n]]) == EmitAll(if n == 0 then [] else [Plain(s[..n])])
  {
    hide MatchAt, PlainLength, Classify, Emit;
    var p := s[..PlainLength(s)];
    if p != "" {
      ClassifyPlain(s);
      assert EmitAll([Plain(p)]) == [Emit(Plain(p))];
    }
  }

  /** What a match and the text after it add, in the program and in the reading. */
  lemma {:induction false} MatchRuns(s: string)
    requires MatchAt(s) > 0
    ensures MatchAt(s) <= |s|
    ensures var m := MatchAt(s);
            Runs(s[m..]) == EmitAll(Tokens(s[m..])) ==> ClassifyAll(SplitMatch(s)) == EmitAll(Tokens(s))
  {
    hide MatchAt, PlainLength, Tokens, ReSplit, Classify, Emit, IsBoldSpan, IsCodeSpan, SpanToken;
    TokensOfSpan(s);
    var m := MatchAt(s);
    ClassifySpan(s[..m]);
    ClassifyAllAppend([s[..m]], ReSplit(s[m..]));
    assert ClassifyAll([s[..m]]) == [Classify(s[..m])];
  }

  /** On one line of text the runs are the reference reading, token by token, misread pieces apart. */
  lemma {:induction false} RunsAreTokens(s: string)
    requires '\n' !in s
    ensures Runs(s) == EmitAll(Tokens(s))
    decreases |s|
  {
    var n := PlainLength(s);
    if n == |s| {
      RunsEnd(s);
    } else {
      hide MatchAt, PlainLength, Tokens, SplitMatch, EmitAll, ClassifyAll, Classify, Emit;
      var tail := s[n..];
      MatchRuns(tail);
      RunsAreTokens(tail[MatchAt(tail)..]);
      PlainPart(s);
      TokensBeforeSpan(s);
      EmitAllAppend(if n == 0 then [] else [Plain(s[..n])], Tokens(tail));
      ClassifyAllAppend([s[..n]], SplitMatch(tail));
    }
  }

  // ----- how much can be lost

  predicate IsStars(t: Token) { t == Plain("**") || t == Plain("***") }

  predicate IsTick(t: Token) { t == Plain("`") }

  function StarPieces(ts: seq<Token>): nat {
    if ts == [] then 0 else (if IsStars(ts[0]) then 1 else 0) + StarPieces(ts[1..])
  }

  function TickPieces(ts: seq<Token>): nat {
    if ts == [] then 0 else (if IsTick(ts[0]) then 1 else 0) + TickPieces(ts[1..])
  }

  /** The number of unmatched characters that no run shows. */
  function Lost(ts: seq<Token>): nat {
    if ts == [] then 0 else (if Misread(ts[0]) then |ts[0].text| else 0) + Lost(ts[1..])
  }

  lemma ContainsSuffix(s: string, k: nat, part: string)
    requires k <= |s| && Contains(s[k..], part)
    ensures Contains(s, part)
  {
    var j :| 0 <= j <= |s[k..]| && part <= s[k..][j..];
    assert s[k..][j..] == s[k + j..];
  }

  lemma {:induction false} TokensHead(s: string)
    requires s != ""
    ensures var k := if MatchAt(s) > 0 then MatchAt(s) else PlainLength(s);
            && 0 < k <= |s|
            && Tokens(s) != [] && Tokens(s)[1..] == Tokens(s[k..])
            && (Tokens(s)[0].Plain? <==> MatchAt(s) == 0)
            && (Tokens(s)[0].Plain? ==> Tokens(s)[0] == Plain(s[..k]))
  {
    hide Tokens, MatchAt, PlainLength, IsBoldSpan, IsCodeSpan;
    if MatchAt(s) > 0 {
      TokensOfSpan(s);
      SpanNotPlain(s);
    } else {
      TokensOfPlain(s);
    }
  }

  lemma SpanNotPlain(s: string)
    requires MatchAt(s) > 0 && MatchAt(s) <= |s|
    requires IsBoldSpan(s[..MatchAt(s)]) || IsCodeSpan(s[..MatchAt(s)])
    ensures !SpanToken(s[..MatchAt(s)]).Plain?
  {
  }

  lemma {:induction false} NoMarkersNoPieces(s: string)
    ensures !Contains(s, "**") ==> StarPieces(Tokens(s)) == 0
    ensures !Contains(s, "`") ==> TickPieces(Tokens(s)) == 0
    decreases |s|
  {
    hide Tokens, MatchAt, PlainLength;
    if s == "" {
      TokensEmpty();
    } else {
      TokensHead(s);
      var k := if MatchAt(s) > 0 then MatchAt(s) else PlainLength(s);
      NoMarkersNoPieces(s[k..]);
      if Contains(s[k..], "**") { ContainsSuffix(s, k, "**"); }
      if Contains(s[k..], "`") { ContainsSuffix(s, k, "`"); }
      assert s[0..] == s;
      assert s[..k] <= s;
    }
  }

  lemma StarsStart(s: string, k: nat)
    requires k <= |s|
    ensures IsStars(Plain(s[..k])) ==> 2 <= k && "**" <= s && s[2..][k - 2..] == s[k..]
  {
    if IsStars(Plain(s[..k])) {
      assert s[..k][..2] == s[..2] == "**";
    }
  }

  lemma TickStart(s: string, k: nat)
    requires k <= |s|
    ensures IsTick(Plain(s[..k])) ==> k == 1 && "`" <= s
  {
  }

  /** After a misread piece no marker of its kind is left. */
  lemma MisreadIsLast(s: string)
    requires '\n' !in s && MatchAt(s) == 0
    ensures IsStars(Plain(s[..PlainLength(s)])) ==> !Contains(s[PlainLength(s)..], "**")
    ensures IsTick(Plain(s[..PlainLength(s)])) ==> !Contains(s[PlainLength(s)..], "`")
  {
    hide *;
    var k := PlainLength(s);
    NothingCloses(s);
    StarsStart(s, k);
    TickStart(s, k);
    if IsStars(Plain(s[..k])) && Contains(s[k..], "**") {
      ContainsSuffix(s[2..], k - 2, "**");
    }
  }

  lemma CountsUnfold(ts: seq<Token>)
    requires ts != []
    ensures StarPieces(ts) == (if IsStars(ts[0]) then 1 else 0) + StarPieces(ts[1..])
    ensures TickPieces(ts) == (if IsTick(ts[0]) then 1 else 0) + TickPieces(ts[1..])
    ensures Lost(ts) <= (if IsStars(ts[0]) then 3 else if IsTick(ts[0]) then 1 else 0) + Lost(ts[1..])
  {
  }

  /** At most one star piece and one backtick piece go missing in a line, so at most four characters. */
  lemma {:induction false} LossBound(s: string)
    requires '\n' !in s
    ensures StarPieces(Tokens(s)) <= 1 && TickPieces(Tokens(s)) <= 1
    ensures Lost(Tokens(s)) <= 3 * StarPieces(Tokens(s)) + TickPieces(Tokens(s)) <= 4
    decreases |s|
  {
    hide *;
    if s == "" {
      TokensEmpty();
      NoLoss();
    } else {
      TokensHead(s);
      var k := if MatchAt(s) > 0 then MatchAt(s) else PlainLength(s);
      LossBound(s[k..]);
      NoMarkersNoPieces(s[k..]);
      CountsUnfold(Tokens(s));
      if MatchAt(s) == 0 {
        MisreadIsLast(s);
        KindsExclude(Tokens(s)[0]);
      } else {
        KindsExclude(Tokens(s)[0]);
      }
    }
  }

  lemma KindsExclude(t: Token)
    ensures !(IsStars(t) && IsTick(t)) && (!t.Plain? ==> !IsStars(t) && !IsTick(t))
  {
  }

  lemma NoLoss()
    ensures StarPieces([]) == 0 && TickPieces([]) == 0 && Lost([]) == 0
  {
  }

  function RunText(runs: seq<TextRun>): string {
    if runs == [] then "" else runs[0].text + RunText(runs[1..])
  }

  /** The text of a line without the markers of its spans. */
  function Contents(ts: seq<Token>): string {
    if ts == [] then "" else ts[0].text + Contents(ts[1..])
  }

  /** The length of the markers of all spans. */
  function MarkerLength(ts: seq<Token>): nat {
    if ts == [] then 0
    else (match ts[0] case Plain(_) => 0 case Strong(_) => 4 case Literal(_) => 2) + MarkerLength(ts[1..])
  }

  lemma {:induction false} LengthsOf(ts: seq<Token>)
    ensures |PrintTokens(ts)| == |Contents(ts)| + MarkerLength(ts)
    ensures |Contents(ts)| == |RunText(EmitAll(ts))| + Lost(ts)
  {
    if ts != [] {
      LengthsOf(ts[1..]);
    }
  }

  lemma {:induction false} NothingLostOf(ts: seq<Token>)
    requires Lost(ts) == 0
    requires forall k :: 0 <= k < |ts| && Misread(ts[k]) ==> |ts[k].text| > 0
    ensures RunText(EmitAll(ts)) == Contents(ts)
  {
    if ts != [] {
      assert !Misread(ts[0]);
      NothingLostOf(ts[1..]);
    }
  }

  /**
  Text accounting for every line: of the characters of the input, the runs show all but the markers of
  matched spans and at most four more; they show exactly the text without markers if and only if no
  piece is misread.
   */
  lemma Accounting(s: string)
    requires '\n' !in s
    ensures |s| == |RunText(Runs(s))| + MarkerLength(Tokens(s)) + Lost(Tokens(s))
    ensures Lost(Tokens(s)) <= 4
    ensures RunText(Runs(s)) == Contents(Tokens(s)) <==> Lost(Tokens(s)) == 0
  {
    hide *;
    RunsAreTokens(s);
    PrintOfTokens(s);
    LengthsOf(Tokens(s));
    LossBound(s);
    if Lost(Tokens(s)) == 0 {
      MisreadNonempty(Tokens(s));
      NothingLostOf(Tokens(s));
    }
  }

  lemma MisreadNonempty(ts: seq<Token>)
    ensures forall k :: 0 <= k < |ts| && Misread(ts[k]) ==> |ts[k].text| > 0
  {
  }

  // ----- texts printed from spans

  /** Unformatted text. */
  ghost predicate PlainText(t: string) {
    t != "" && NoMarker(t)
  }

  /** What the notation can express at position `k` of a span list. */
  ghost predicate CanonicalAt(ts: seq<Token>, k: nat)
    requires k < |ts|
  {
    match ts[k]
    case Plain(x) =>
      && PlainText(x)
      && (k + 1 < |ts| ==> !ts[k + 1].Plain? && (ts[k + 1].Strong? ==> x[|x| - 1] != '*'))
    case Strong(x) => BoldText(x)
    case Literal(x) => CodeText(x)
  }

  /** A span list that the notation can express. */
  ghost predicate Canonical(ts: seq<Token>) {
    forall k :: 0 <= k < |ts| ==> CanonicalAt(ts, k)
  }

  lemma CanonicalRest(ts: seq<Token>)
    requires ts != [] && Canonical(ts)
    ensures Canonical(ts[1..])
  {
    forall k | 0 <= k < |ts| - 1
      ensures CanonicalAt(ts[1..], k)
    {
      assert CanonicalAt(ts, k + 1);
    }
  }

  lemma {:induction false} CloseFirst(t: string, marker: string, rest: string)
    requires marker != "" && '\n' !in t
    requires forall j :: 0 <= j < |t| ==> !(marker <= (t + marker + rest)[j..])
    ensures Close(t + marker + rest, marker) == Some(|t|)
  {
    var s := t + marker + rest;
    if t == "" {
      assert s[..|marker|] == marker;
    } else {
      assert s[0..] == s;
      assert s[1..] == t[1..] + marker + rest;
      forall j | 0 <= j < |t| - 1
        ensures !(marker <= s[1..][j..])
      {
        assert s[1..][j..] == s[j + 1..];
      }
      CloseFirst(t[1..], marker, rest);
    }
  }

  lemma MatchPrintedBold(t: string, rest: string)
    requires BoldText(t)
    ensures MatchAt("**" + t + "**" + rest) == |t| + 4
  {
    var s := "**" + t + "**" + rest;
    var u := t + "**" + rest;
    assert s[2..] == u;
    forall j | 0 <= j < |t|
      ensures !("**" <= u[j..])
    {
      assert u[j..][..2] == (t + "*")[j..][..2];
      assert !("**" <= (t + "*")[j..]);
    }
    CloseFirst(t, "**", rest);
    assert s[..2] == "**";
  }

  lemma MatchPrintedCode(t: string, rest: string)
    requires CodeText(t)
    ensures MatchAt("`" + t + "`" + rest) == |t| + 2
  {
    var s := "`" + t + "`" + rest;
    var u := t + "`" + rest;
    assert s[1..] == u;
    forall j | 0 <= j < |t|
      ensures !("`" <= u[j..])
    {
      assert u[j..][0] == t[j];
    }
    CloseFirst(t, "`", rest);
    assert s[0] == '`' && s[..1] == "`";
  }

  /** A printed span is matched as itself. */
  lemma TokensPrintedSpan(t: Token, rest: string)
    requires (t.Strong? && BoldText(t.text)) || (t.Literal? && CodeText(t.text))
    ensures MatchAt(PrintToken(t) + rest) > 0
    ensures Tokens(PrintToken(t) + rest) == [t] + Tokens(rest)
  {
    hide Tokens, MatchAt, Close, BoldText, CodeText;
    var s := PrintToken(t) + rest;
    if t.Strong? {
      assert s == "**" + t.text + "**" + rest;
      MatchPrintedBold(t.text, rest);
    } else {
      assert s == "`" + t.text + "`" + rest;
      MatchPrintedCode(t.text, rest);
    }
    TokensOfSpan(s);
    var m := |PrintToken(t)|;
    assert s[..m] == PrintToken(t) && s[m..] == rest;
    SpanOfPrinted(t);
  }

  lemma SpanOfPrinted(t: Token)
    requires !t.Plain?
    ensures 2 <= |PrintToken(t)| && ("**" <= PrintToken(t) ==> 4 <= |PrintToken(t)|)
    ensures SpanToken(PrintToken(t)) == t
  {
    var m := PrintToken(t);
    if t.Strong? {
      assert m[..2] == "**";
      assert m[2..|m| - 2] == t.text;
    } else {
      assert m[0] == '`';
      assert m[1..|m| - 1] == t.text;
    }
  }

  /** No backtick and no pair of stars. */
  ghost predicate NoMarker(t: string) {
    '`' !in t && forall j :: 0 <= j <= |t| ==> !("**" <= t[j..])
  }

  lemma TwoStars(s: string)
    ensures "**" <= s <==> |s| >= 2 && s[0] == '*' && s[1] == '*'
  {
    if |s| >= 2 {
      assert s[..2] == [s[0], s[1]];
    }
  }

  lemma NoMatchPrinted(t: string, rest: string)
    requires t != "" && NoMarker(t)
    requires rest != "" && rest[0] == '*' ==> t[|t| - 1] != '*'
    ensures MatchAt(t + rest) == 0
  {
    hide Close;
    var s := t + rest;
    assert t[0..] == t;
    TwoStars(t);
    TwoStars(s);
    assert |t| == 1 && rest != "" ==> s[1] == rest[0];
    assert s[0] == t[0];
  }

  lemma NoMarkerRest(t: string)
    requires t != "" && NoMarker(t)
    ensures NoMarker(t[1..])
  {
    forall j | 0 <= j <= |t| - 1
      ensures !("**" <= t[1..][j..])
    {
      assert t[1..][j..] == t[j + 1..];
    }
  }

  lemma {:induction false} PlainLengthPrinted(t: string, rest: string)
    requires NoMarker(t)
    requires rest != "" ==> MatchAt(rest) > 0
    requires t != "" && rest != "" && rest[0] == '*' ==> t[|t| - 1] != '*'
    ensures PlainLength(t + rest) == |t|
  {
    hide MatchAt, NoMarker;
    var s := t + rest;
    if t == "" {
      assert s == rest;
    } else {
      assert s[1..] == t[1..] + rest;
      NoMarkerRest(t);
      PlainLengthPrinted(t[1..], rest);
      NoMatchPrinted(t, rest);
    }
  }

  lemma PrintedStart(t: Token)
    requires !t.Plain?
    ensures PrintToken(t) != "" && (PrintToken(t)[0] == '*' ==> t.Strong?)
  {
  }

  /** Inline round trip: the tokens of any printed canonical span list are the list. */
  lemma {:induction false} TokensOfPrint(ts: seq<Token>)
    requires Canonical(ts)
    ensures Tokens(PrintTokens(ts)) == ts
  {
    if ts == [] {
      TokensEmpty();
    } else {
      hide Tokens, MatchAt, PrintTokens, CanonicalAt, Canonical;
      CanonicalRest(ts);
      TokensOfPrint(ts[1..]);
      TokensOfFirst(ts);
      assert ts == [ts[0]] + ts[1..];
    }
  }

  lemma TokensOfFirst(ts: seq<Token>)
    requires ts != [] && Canonical(ts)
    ensures Tokens(PrintTokens(ts)) == [ts[0]] + Tokens(PrintTokens(ts[1..]))
  {
    hide Tokens, MatchAt, BoldText, CodeText, PlainText, PrintToken;
    assert CanonicalAt(ts, 0);
    if ts[0].Plain? {
      TokensPrintedPlain(ts);
    } else {
      TokensPrintedSpan(ts[0], PrintTokens(ts[1..]));
    }
  }

  lemma TokensPrintedPlain(ts: seq<Token>)
    requires ts != [] && ts[0].Plain? && Canonical(ts)
    ensures Tokens(PrintTokens(ts)) == [ts[0]] + Tokens(PrintTokens(ts[1..]))
  {
    hide Tokens, MatchAt, PlainLength;
    var x, rest := ts[0].text, PrintTokens(ts[1..]);
    var s := x + rest;
    assert CanonicalAt(ts, 0);
    if |ts| > 1 {
      var u := ts[1];
      assert CanonicalAt(ts, 1);
      assert rest == PrintToken(u) + PrintTokens(ts[1..][1..]);
      TokensPrintedSpan(u, PrintTokens(ts[1..][1..]));
      PrintedStart(u);
    }
    PlainLengthPrinted(x, rest);
    PlainHasNoMatch(s);
    TokensOfPlain(s);
    assert s[..|x|] == x && s[|x|..] == rest;
  }

  lemma PlainHasNoMatch(s: string)
    requires PlainLength(s) > 0
    ensures MatchAt(s) == 0
  {
  }

  // ----- the bound is attained, and the restriction to one line is needed

  lemma {:induction false} NoStarNoClose(s: string)
    requires '*' !in s
    ensures Close(s, "**") == None
  {
    if s != "" {
      assert s[0] != '*';
      NoStarNoClose(s[1..]);
    }
  }

  lemma LoneTick()
    ensures Tokens("`") == [Plain("`")]
  {
    assert "`"[1..] == "" && Close("", "`") == None;
    assert PlainLength("") == 0;
    assert PlainLength("`") == 1;
    TokensWhole("`");
  }

  /** `s` begins with a star, and no bold span starts there. */
  lemma StarIsPlain(s: string)
    requires s != "" && s[0] == '*' && ("**" <= s ==> Close(s[2..], "**") == None)
    ensures MatchAt(s) == 0
    ensures PlainLength(s) == 1 + PlainLength(s[1..])
  {
  }

  lemma {:induction false} CodeAndTick()
    ensures Tokens("`a``") == [Literal("a"), Plain("`")]
    ensures PlainLength("`a``") == 0 && Close("`a``", "**") == None
  {
    hide Tokens, MatchAt, PlainLength, Close;
    assert "`a``" == PrintToken(Literal("a")) + "`";
    TokensPrintedSpan(Literal("a"), "`");
    LoneTick();
    SpanIsNotPlain("`a``");
    NoStarNoClose("`a``");
    assert [Literal("a")] + [Plain("`")] == [Literal("a"), Plain("`")];
  }

  /** Three stars before text that closes no bold span are unmatched. */
  lemma ThreeStars(code: string)
    requires code != "" && code[0] != '*' && Close(code, "**") == None && PlainLength(code) == 0
    ensures MatchAt("***" + code) == 0 && PlainLength("***" + code) == 3
  {
    hide MatchAt, PlainLength, Close;
    var one, two, s := "*" + code, "**" + code, "***" + code;
    assert one[1..] == code && two[1..] == one && s[1..] == two && two[2..] == code && s[2..] == one;
    StarIsPlain(one);
    StarIsPlain(two);
    CloseSkips(one);
    StarIsPlain(s);
  }

  /** Four characters of this text appear in no run. */
  lemma LossAttained()
    ensures Tokens("***" + "`a``") == [Plain("***"), Literal("a"), Plain("`")]
    ensures Lost(Tokens("***" + "`a``")) == 4
  {
    var code := "`a``";
    assert code[0] != '*';
    hide *;
    CodeAndTick();
    ThreeStars(code);
    var s := "***" + code;
    TokensOfPlain(s);
    assert s[..3] == "***" && s[3..] == code;
    LostOfThree();
  }

  lemma CloseSkips(s: string)
    requires s != "" && !("**" <= s) && s[0] != '\n' && Close(s[1..], "**") == None
    ensures Close(s, "**") == None
  {
  }

  lemma SpanIsNotPlain(s: string)
    requires MatchAt(s) > 0
    ensures PlainLength(s) == 0
  {
  }

  lemma LostOfThree()
    ensures [Plain("***")] + ([Literal("a")] + [Plain("`")]) == [Plain("***"), Literal("a"), Plain("`")]
    ensures Lost([Plain("***"), Literal("a"), Plain("`")]) == 4
  {
    var ts := [Plain("***"), Literal("a"), Plain("`")];
    assert ts[1..] == [Literal("a"), Plain("`")] && ts[1..][1..] == [Plain("`")];
    assert Lost([Plain("`")]) == 1;
    assert Lost([Literal("a"), Plain("`")]) == 1;
  }

  lemma CloseAtNewline(s: string)
    requires s == "" || s[0] == '\n'
    ensures Close(s, "**") == None
  {
    assert !("**" <= s);
  }

  lemma OtherIsPlain(s: string)
    requires s != "" && s[0] != '*' && s[0] != '`'
    ensures PlainLength(s) == 1 + PlainLength(s[1..])
  {
  }

  lemma {:induction false} NewlineIsPlain()
    ensures PlainLength("**\n**") == 5
  {
    hide PlainLength, MatchAt, Close;
    var s := "**\n**";
    assert s[1..][0] == '*' && s[1..][1] == '\n' && s[2..][0] == '\n';
    CloseAtNewline(s[2..]);
    StarIsPlain(s);
    StarIsPlain(s[1..]);
    assert s[1..][1..] == s[2..] && s[2..][1..] == "**" && "**"[1..] == "*" && "*"[1..] == "" && "**"[2..] == "";
    OtherIsPlain(s[2..]);
    CloseAtNewline("");
    StarIsPlain("**");
    StarIsPlain("*");
    EmptyIsPlain();
  }

  lemma EmptyIsPlain()
    ensures PlainLength("") == 0
  {
  }

  /** A newline inside the markers defeats the regular expression but not the second step. */
  lemma NewlineMisread()
    ensures Runs("**\n**") == [TextRun("\n", Bold)]
    ensures Runs("**\n**") != EmitAll(Tokens("**\n**"))
  {
    hide Tokens, MatchAt, PlainLength;
    var s := "**\n**";
    NewlineIsPlain();
    TokensWhole(s);
    assert ReSplit(s) == [s];
    assert s[3..] == "**" && Classify(s) == TextRun("\n", Bold);
    assert ClassifyAll([s]) == [Classify(s)];
    assert EmitAll([Plain(s)]) == [Emit(Plain(s))];
  }
}
