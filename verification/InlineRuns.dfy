/**
Inline markup in scripts/markdown_to_docx.py: `add_inline_runs` first splits a text with
`re.split(r"(\*\*.*?\*\*|`.*?`)", text)` and then looks at the first and last characters of every
piece to decide how to format it. The two steps do not use the same criterion.

`Tokens` is the reference reading: what the regular expression matched, and what it did not.
 */
module InlineRuns {
  import opened Basics
  import opened PyText

  datatype Style = Normal | Bold | Mono

  datatype TextRun = TextRun(text: string, style: Style)

  // ----- re.split

  /** `.*?` followed by `marker`: the nearest marker with no newline before it. */
  function Close(s: string, marker: string): Option<nat> {
    if marker <= s then Some(0)
    else if s == "" || s[0] == '\n' then None
    else
      match Close(s[1..], marker)
      case None => None
      case Some(k) => Some(k + 1)
  }

  /** The length of the match that starts here; 0 if there is none. */
  function MatchAt(s: string): nat {
    if "**" <= s && Close(s[2..], "**").Some? then Close(s[2..], "**").value + 4
    else if "`" <= s && Close(s[1..], "`").Some? then Close(s[1..], "`").value + 2
    else 0
  }

  lemma {:induction false} CloseIs(s: string, marker: string)
    requires marker != ""
    ensures match Close(s, marker)
            case Some(k) =>
              && k + |marker| <= |s| && marker <= s[k..]
              && (forall j :: 0 <= j < k ==> !(marker <= s[j..]))
              && '\n' !in s[..k]
            case None => '\n' !in s ==> forall j :: 0 <= j <= |s| ==> !(marker <= s[j..])
  {
    if marker <= s {
      assert s[0..] == s;
    } else if s == "" || s[0] == '\n' {
    } else {
      CloseIs(s[1..], marker);
      assert forall j :: 0 < j <= |s| ==> s[j..] == s[1..][j - 1..];
      assert s[0..] == s;
      assert forall k :: 0 < k <= |s| ==> s[..k] == [s[0]] + s[1..][..k - 1];
    }
  }

  /** A bold span, markers included. */
  ghost predicate IsBoldSpan(m: string) {
    4 <= |m| && "**" <= m && m == "**" + m[2..|m| - 2] + "**" && BoldText(m[2..|m| - 2])
  }

  /** A code span, markers included. */
  ghost predicate IsCodeSpan(m: string) {
    2 <= |m| && !("**" <= m) && m == "`" + m[1..|m| - 1] + "`" && CodeText(m[1..|m| - 1])
  }

  /** A match is a bold span or a code span, closed by the nearest marker on the same line. */
  lemma MatchIs(s: string)
    requires MatchAt(s) > 0
    ensures MatchAt(s) <= |s|
    ensures IsBoldSpan(s[..MatchAt(s)]) || IsCodeSpan(s[..MatchAt(s)])
  {
    hide IsBoldSpan, IsCodeSpan;
    if "**" <= s && Close(s[2..], "**").Some? {
      BoldMatch(s);
    } else {
      CodeMatch(s);
    }
  }

  lemma CodeMatch(s: string)
    requires "`" <= s && Close(s[1..], "`").Some?
    ensures MatchAt(s) <= |s|
    ensures IsCodeSpan(s[..MatchAt(s)])
  {
    CloseIs(s[1..], "`");
    var k := Close(s[1..], "`").value;
    var t := s[1..][..k];
    assert s[..MatchAt(s)] == "`" + t + "`";
    assert forall j :: 0 <= j < |t| ==> t[j] == s[1..][j..][0];
  }

  lemma BoldMatch(s: string)
    requires "**" <= s && Close(s[2..], "**").Some?
    ensures MatchAt(s) <= |s|
    ensures IsBoldSpan(s[..MatchAt(s)])
  {
    CloseIs(s[2..], "**");
    var k := Close(s[2..], "**").value;
    var t := s[2..][..k];
    var m := s[..MatchAt(s)];
    assert m == "**" + t + "**";
    forall j | 0 <= j < |t|
      ensures !("**" <= (t + "*")[j..])
    {
      assert !("**" <= s[2..][j..]);
    }
  }

  /** How many characters come before the next match. */
  function PlainLength(s: string): (n: nat)
    ensures n <= |s|
    ensures n < |s| ==> MatchAt(s[n..]) > 0
    ensures n > 0 ==> MatchAt(s) == 0
  {
    if s == "" || MatchAt(s) > 0 then 0
    else
      var n := 1 + PlainLength(s[1..]);
      assert s[n..] == s[1..][n - 1..];
      n
  }

  /** `re.split` with one capturing group: unmatched text and matches in turn, starting and ending with text. */
  function ReSplit(s: string): seq<string>
    decreases |s|, 1
  {
    var n := PlainLength(s);
    if n == |s| then [s] else [s[..n]] + SplitMatch(s[n..])
  }

  function SplitMatch(s: string): seq<string>
    requires MatchAt(s) > 0
    decreases |s|, 0
  {
    MatchIs(s);
    [s[..MatchAt(s)]] + ReSplit(s[MatchAt(s)..])
  }

  // ----- the program

  /** Python's `p[k:-k]`. */
  function Inner(p: string, k: nat): string {
    if 2 * k <= |p| then p[k..|p| - k] else ""
  }

  function Classify(part: string): TextRun {
    if StartsWith(part, "**") && EndsWith(part, "**") then TextRun(Inner(part, 2), Bold)
    else if StartsWith(part, "`") && EndsWith(part, "`") then TextRun(Inner(part, 1), Mono)
    else TextRun(part, Normal)
  }

  function ClassifyAll(parts: seq<string>): seq<TextRun> {
    if parts == [] then []
    else (if parts[0] == "" then [] else [Classify(parts[0])]) + ClassifyAll(parts[1..])
  }

  function Runs(text: string): seq<TextRun> {
    ClassifyAll(ReSplit(text))
  }

  lemma {:induction false} ClassifyAllAppend(a: seq<string>, b: seq<string>)
    ensures ClassifyAll(a + b) == ClassifyAll(a) + ClassifyAll(b)
  {
    if a == [] {
      assert a + b == b;
    } else {
      assert (a + b)[1..] == a[1..] + b;
      ClassifyAllAppend(a[1..], b);
    }
  }

  lemma ClassifyNext(parts: seq<string>, i: nat)
    requires i < |parts|
    ensures ClassifyAll(parts[..i + 1])
         == ClassifyAll(parts[..i]) + (if parts[i] == "" then [] else [Classify(parts[i])])
  {
    assert parts[..i + 1] == parts[..i] + [parts[i]];
    ClassifyAllAppend(parts[..i], [parts[i]]);
  }

  /** `add_inline_runs`. */
  method AddInlineRuns(text: string) returns (runs: seq<TextRun>)
    ensures runs == Runs(text)
  {
    var parts := ReSplit(text);
    runs := [];
    assert ClassifyAll(parts[..0]) == [];
    hide ClassifyAll;
    for i := 0 to |parts|
      invariant runs == ClassifyAll(parts[..i])
    {
      var part := parts[i];
      ClassifyNext(parts, i);
      if part == "" {
        continue;
      }
      if StartsWith(part, "**") && EndsWith(part, "**") {
        runs := runs + [TextRun(Inner(part, 2), Bold)];
      } else if StartsWith(part, "`") && EndsWith(part, "`") {
        runs := runs + [TextRun(Inner(part, 1), Mono)];
      } else {
        runs := runs + [TextRun(part, Normal)];
      }
    }
    assert parts[..|parts|] == parts;
  }

  // ----- the reference reading

  datatype Token = Plain(text: string) | Strong(text: string) | Literal(text: string)

  /** The text of a bold span: no `**` inside, nor one made with the closing marker, and no newline. */
  ghost predicate BoldText(t: string) {
    (forall j :: 0 <= j < |t| ==> !("**" <= (t + "*")[j..])) && '\n' !in t
  }

  ghost predicate CodeText(t: string) {
    '`' !in t && '\n' !in t
  }

  function SpanToken(m: string): Token
    requires 2 <= |m| && ("**" <= m ==> 4 <= |m|)
  {
    if "**" <= m then Strong(m[2..|m| - 2]) else Literal(m[1..|m| - 1])
  }

  function Tokens(s: string): seq<Token>
    decreases |s|
  {
    if s == "" then []
    else if MatchAt(s) > 0 then
      MatchIs(s);
      [SpanToken(s[..MatchAt(s)])] + Tokens(s[MatchAt(s)..])
    else [Plain(s[..PlainLength(s)])] + Tokens(s[PlainLength(s)..])
  }

  function PrintToken(t: Token): string {
    match t
    case Plain(x) => x
    case Strong(x) => "**" + x + "**"
    case Literal(x) => "`" + x + "`"
  }

  function PrintTokens(ts: seq<Token>): string {
    if ts == [] then "" else PrintToken(ts[0]) + PrintTokens(ts[1..])
  }

  lemma PrintSpan(s: string)
    requires MatchAt(s) > 0
    ensures MatchAt(s) <= |s|
    ensures var m := s[..MatchAt(s)];
            2 <= |m| && ("**" <= m ==> 4 <= |m|) && PrintToken(SpanToken(m)) == m
  {
    MatchIs(s);
  }

  lemma TokensOfSpan(s: string)
    requires MatchAt(s) > 0
    ensures MatchAt(s) <= |s|
    ensures IsBoldSpan(s[..MatchAt(s)]) || IsCodeSpan(s[..MatchAt(s)])
    ensures Tokens(s) == [SpanToken(s[..MatchAt(s)])] + Tokens(s[MatchAt(s)..])
  {
    MatchIs(s);
  }

  lemma TokensOfPlain(s: string)
    requires s != "" && MatchAt(s) == 0
    ensures 0 < PlainLength(s)
    ensures Tokens(s) == [Plain(s[..PlainLength(s)])] + Tokens(s[PlainLength(s)..])
  {
  }

  /** The reading is faithful: printing the tokens of any text gives the text back. */
  lemma {:induction false} PrintOfTokens(s: string)
    ensures PrintTokens(Tokens(s)) == s
    decreases |s|
  {
    hide Tokens, MatchAt, PlainLength, IsBoldSpan, IsCodeSpan, SpanToken;
    if s == "" {
      TokensEmpty();
    } else if MatchAt(s) > 0 {
      TokensOfSpan(s);
      PrintSpan(s);
      PrintOfTokens(s[MatchAt(s)..]);
      assert s == s[..MatchAt(s)] + s[MatchAt(s)..];
    } else {
      TokensOfPlain(s);
      PrintOfTokens(s[PlainLength(s)..]);
      assert s == s[..PlainLength(s)] + s[PlainLength(s)..];
    }
  }

  lemma TokensEmpty()
    ensures Tokens("") == []
  {
  }
}
