/**
The notation of env files without double quotes: bare values, single quotes, one quote at one end, and white
space around keys and values.
 */
module EnvNotation {
  import opened Basics
  import opened Trimming
  import opened PyText
  import opened EnvFile

  /** JavaScript and Python disagree about six characters. */
  lemma SpacesRelated(c: char)
    ensures IsJsSpace(c) <==>
            c == '\U{FEFF}' || (IsSpace(c) && c !in {'\U{1C}', '\U{1D}', '\U{1E}', '\U{1F}', '\U{85}'})
  {
  }

  // ----- one line in parts

  /** White space that may stand around a key or a value: on one line. */
  ghost predicate Blanks(s: string) {
    All(IsJsSpace, s)
  }

  /** A key that can be written down. */
  ghost predicate WritableKey(key: string) {
    Bare(IsJsSpace, key) && '=' !in key && '\n' !in key && (key != "" ==> key[0] != '#')
  }

  lemma KeyTrimmed(key: string, before: string)
    requires WritableKey(key) && Blanks(before)
    ensures TrimJs(key + before) == key
  {
    TrimPadded(IsJsSpace, "", key, before);
    assert "" + key + before == key + before;
  }

  lemma ValueTrimmed(after: string, value: string, right: string)
    requires Blanks(after) && Blanks(right)
    ensures TrimJs(after + value + right) == TrimJs(value)
  {
    TrimIgnoresPadding(IsJsSpace, after, value, right);
  }

  lemma NoSeparatorInside(key: string, before: string)
    requires WritableKey(key) && Blanks(before)
    ensures '=' !in key + before
  {
    hide Bare;
    forall k | 0 <= k < |key + before|
      ensures (key + before)[k] != '='
    {
      if k >= |key| {
        assert (key + before)[k] == before[k - |key|];
        assert IsJsSpace(before[k - |key|]);
      }
    }
  }

  /** Trimming at the end stops at a character outside the class. */
  lemma TrimEndStops(p: CharClass, front: string, rest: string) returns (kept: string, cut: string)
    requires front != "" && !p(front[|front| - 1])
    ensures TrimEnd(p, front + rest) == front + kept
    ensures rest == kept + cut && All(p, cut)
  {
    cut := TrimEndSplits(p, front + rest);
    var whole := TrimEnd(p, front + rest);
    assert (whole + cut)[|front| - 1] == front[|front| - 1];
    assert |front| <= |whole|;
    kept := whole[|front|..];
    assert whole == front + kept by {
      assert forall k :: 0 <= k < |front| ==> (whole + cut)[k] == (front + rest)[k] == front[k];
    }
    assert (front + rest)[|front|..] == rest && (front + (kept + cut))[|front|..] == kept + cut;
    assert (front + kept) + cut == front + (kept + cut);
  }

  /** The whole line, trimmed: it starts with the key and what follows the separator is only cut at its end. */
  lemma LineTrimmed(left: string, key: string, before: string, rest: string) returns (kept: string, cut: string)
    requires WritableKey(key) && Blanks(left) && Blanks(before)
    ensures TrimJs(left + key + before + "=" + rest) == (if key != "" then key + before else "") + "=" + kept
    ensures rest == kept + cut && Blanks(cut)
  {
    hide IsJsSpace, TrimStart, TrimEnd;
    var front := (if key != "" then key + before else "") + "=";
    var pad := if key != "" then left else left + before;
    EqualsIsNoSpace();
    LineParts(left, key, before, rest);
    TrimStartPadded(IsJsSpace, pad, front + rest);
    TrimStartStops(front + rest);
    kept, cut := TrimEndStops(IsJsSpace, front, rest);
  }

  lemma EqualsIsNoSpace()
    ensures !IsJsSpace('=')
  {
  }

  lemma LineParts(left: string, key: string, before: string, rest: string)
    ensures left + key + before + "=" + rest ==
            (if key != "" then left else left + before) + ((if key != "" then key + before else "") + "=" + rest)
  {
  }

  lemma TrimStartStops(line: string)
    requires line != "" && !IsJsSpace(line[0])
    ensures TrimStart(IsJsSpace, line) == line
  {
  }

  /** A line is its key and its value, whatever white space stands around them. */
  lemma ParseParts(left: string, key: string, before: string, rest: string)
    requires WritableKey(key) && Blanks(left) && Blanks(before)
    ensures ParseLine(left + key + before + "=" + rest) == Some(Assignment(key, Unquote(TrimJs(rest))))
  {
    hide TrimJs, Unquote, Bare;
    var kept, cut := LineTrimmed(left, key, before, rest);
    var name := if key != "" then key + before else "";
    var line := name + ['='] + kept;
    NoSeparatorInside(key, before);
    IndexOfFirst('=', name, kept);
    assert line[..|name|] == name && line[|name| + 1..] == kept;
    KeyTrimmed(key, before);
    NothingTrimmed();
    TailTrimmed(kept, cut);
  }

  lemma NothingTrimmed()
    ensures TrimJs("") == ""
  {
  }

  lemma TailTrimmed(kept: string, cut: string)
    requires Blanks(cut)
    ensures TrimJs(kept + cut) == TrimJs(kept)
  {
    TrimIgnoresPadding(IsJsSpace, "", kept, cut);
    assert "" + kept + cut == kept + cut;
  }

  // ----- what each way of writing a value means

  const QUOTES: set<char> := {'\'', '"'}

  /** No quote at either end. */
  ghost predicate Unquoted(value: string) {
    value != "" ==> value[0] !in QUOTES && value[|value| - 1] !in QUOTES
  }

  /** A value without quotes stands for itself, once trimmed. */
  lemma BareValue(left: string, key: string, before: string, after: string, value: string, right: string)
    requires WritableKey(key) && Blanks(left) && Blanks(before) && Blanks(after) && Blanks(right)
    requires Bare(IsJsSpace, value) && Unquoted(value)
    ensures ParseLine(left + key + before + "=" + (after + value + right)) == Some(Assignment(key, value))
  {
    ParseParts(left, key, before, after + value + right);
    TrimPadded(IsJsSpace, after, value, right);
    assert value != "" ==> value[0] in value && value[|value| - 1] in value;
  }

  /** A value between quotes of either kind stands for what is between them, as it is. */
  lemma QuotedValue(left: string, key: string, before: string, after: string, open: char, value: string, close: char,
                    right: string)
    requires WritableKey(key) && Blanks(left) && Blanks(before) && Blanks(after) && Blanks(right)
    requires open in QUOTES && close in QUOTES
    ensures ParseLine(left + key + before + "=" + (after + ([open] + value + [close]) + right))
         == Some(Assignment(key, value))
  {
    hide *;
    var written := [open] + value + [close];
    ParseParts(left, key, before, after + written + right);
    ValueTrimmed(after, written, right);
    BothUnquoted(open, value, close);
  }

  lemma BothUnquoted(open: char, value: string, close: char)
    requires open in QUOTES && close in QUOTES
    ensures Unquote(TrimJs([open] + value + [close])) == value
  {
    hide Trim;
    var written := [open] + value + [close];
    assert written[0] == open && written[|written| - 1] == close;
    TrimBare(IsJsSpace, written);
    assert written[1..] == value + [close];
    assert (value + [close])[..|value|] == value;
  }

  /** A quote at the start only goes; the rest stays. */
  lemma OpenedValue(left: string, key: string, before: string, after: string, open: char, value: string, right: string)
    requires WritableKey(key) && Blanks(left) && Blanks(before) && Blanks(after) && Blanks(right)
    requires open in QUOTES && value != "" && !IsJsSpace(value[|value| - 1]) && value[|value| - 1] !in QUOTES
    ensures ParseLine(left + key + before + "=" + (after + ([open] + value) + right)) == Some(Assignment(key, value))
  {
    var written := [open] + value;
    ParseParts(left, key, before, after + written + right);
    TrimPadded(IsJsSpace, after, written, right);
    assert written[1..] == value;
  }

  /** A quote at the end only goes; the rest stays. */
  lemma ClosedValue(left: string, key: string, before: string, after: string, value: string, close: char, right: string)
    requires WritableKey(key) && Blanks(left) && Blanks(before) && Blanks(after) && Blanks(right)
    requires close in QUOTES && value != "" && !IsJsSpace(value[0]) && value[0] !in QUOTES
    ensures ParseLine(left + key + before + "=" + (after + (value + [close]) + right)) == Some(Assignment(key, value))
  {
    var written := value + [close];
    ParseParts(left, key, before, after + written + right);
    TrimPadded(IsJsSpace, after, written, right);
    assert written[..|value|] == value;
  }

  /** One quote alone is no value. */
  lemma LoneQuote(left: string, key: string, before: string, after: string, quote: char, right: string)
    requires WritableKey(key) && Blanks(left) && Blanks(before) && Blanks(after) && Blanks(right)
    requires quote in QUOTES
    ensures ParseLine(left + key + before + "=" + (after + [quote] + right)) == Some(Assignment(key, ""))
  {
    ParseParts(left, key, before, after + [quote] + right);
    TrimPadded(IsJsSpace, after, [quote], right);
    assert [quote][1..] == "";
  }

  // ----- the round trip without quotes

  /** An assignment that needs no quotes. */
  ghost predicate Plain(a: Assignment) {
    && WritableKey(a.key)
    && Bare(IsJsSpace, a.value) && Unquoted(a.value) && '\n' !in a.value
  }

  function PlainLine(a: Assignment): string {
    a.key + "=" + a.value
  }

  function PrintPlain(assignments: seq<Assignment>): string {
    if assignments == [] then "" else PlainLine(assignments[0]) + "\n" + PrintPlain(assignments[1..])
  }

  lemma ParsePlain(a: Assignment)
    requires Plain(a)
    ensures ParseLine(PlainLine(a)) == Some(a)
    ensures '\n' !in PlainLine(a)
  {
    hide *;
    NoBlanks();
    PlainParts(a);
    BareValue("", a.key, "", "", a.value, "");
  }

  lemma NoBlanks()
    ensures Blanks("")
  {
  }

  lemma PlainParts(a: Assignment)
    requires Plain(a)
    ensures "" + a.key + "" + "=" + ("" + a.value + "") == PlainLine(a) && '\n' !in PlainLine(a)
    ensures WritableKey(a.key) && Bare(IsJsSpace, a.value) && Unquoted(a.value)
  {
    hide Bare;
    assert "" + a.key + "" + "=" + ("" + a.value + "") == PlainLine(a);
  }

  /** Round trip of the notation without quotes. */
  lemma {:induction false} EnvOfPrintPlain(assignments: seq<Assignment>)
    requires forall k :: 0 <= k < |assignments| ==> Plain(assignments[k])
    ensures EnvOf(PrintPlain(assignments)) == EnvMap(assignments)
  {
    hide *;
    if assignments == [] {
      EmptyPlain();
    } else {
      PrintPlainUnfold(assignments);
      var a, rest := assignments[0], assignments[1..];
      EnvOfPrintPlain(rest);
      ParsePlain(a);
      EnvOfLine(PlainLine(a));
      EnvOfJoin(PlainLine(a), PrintPlain(rest));
      assert assignments == [a] + rest;
      EnvMapAppend([a], rest);
      SingleAssignment(a);
    }
  }

  lemma EmptyPlain()
    ensures EnvOf(PrintPlain([])) == EnvMap([])
  {
    EmptyFile();
  }

  lemma PrintPlainUnfold(assignments: seq<Assignment>)
    requires assignments != []
    ensures PrintPlain(assignments) == PlainLine(assignments[0]) + "\n" + PrintPlain(assignments[1..])
  {
  }

  /** A line of the example file, as it stands and with spaces and quotes. */
  lemma SampleSettings()
    ensures ParseLine("DB_PORT=5432") == Some(Assignment("DB_PORT", "5432"))
    ensures ParseLine("DB_PORT = '5432'") == Some(Assignment("DB_PORT", "5432"))
  {
    hide Unquote, ParseLine;
    ParsePlain(Assignment("DB_PORT", "5432"));
    SampleParts();
    QuotedValue("", "DB_PORT", " ", " ", '\'', "5432", '\'', "");
  }

  lemma SampleParts()
    ensures "" + "DB_PORT" + " " + "=" + (" " + (['\''] + "5432" + ['\'']) + "") == "DB_PORT = '5432'"
    ensures PlainLine(Assignment("DB_PORT", "5432")) == "DB_PORT=5432"
  {
  }

  /** Line ends of either kind part the lines. */
  lemma EnvLinesEnd(a: string, end: string, rest: string)
    requires '\n' !in a && (a != "" ==> a[|a| - 1] != '\r')
    requires end == "\n" || end == "\r\n"
    ensures SplitEnvLines(a + end + rest) == [a] + SplitEnvLines(rest)
    ensures SplitEnvLines(a) == [a]
  {
    if end == "\n" {
      SplitFirst(a, rest);
    } else {
      assert a + end + rest == (a + "\r") + "\n" + rest;
      SplitFirst(a + "\r", rest);
      assert DropReturn(a + "\r") == a;
    }
  }
}
