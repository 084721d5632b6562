/**
The Python string operations that the document scripts rely on: `str.strip`, `str.splitlines`,
`str.startswith`, `in`, and the character classes behind the regular-expression escapes
`\s` and `\d`.

A Dafny `char` is a Unicode scalar value, which is what a Python `str` indexes.
 */
module PyText {
  import opened Trimming

  /** `str.isspace` and, for text patterns, `\s`. */
  predicate IsSpace(c: char) {
    || c == ' '
    || '\t' <= c <= '\r'
    || '\U{1C}' <= c <= '\U{1F}'
    || c in {'\U{85}', '\U{A0}', '\U{1680}', '\U{2028}', '\U{2029}', '\U{202F}', '\U{205F}', '\U{3000}'}
    || '\U{2000}' <= c <= '\U{200A}'
  }

  /** The first code point of every run of ten decimal digits above ASCII (Unicode category Nd). */
  const DIGIT_RUNS: seq<int> := LOW_RUNS + HIGH_RUNS

  const LOW_RUNS: seq<int> := [
    0x660, 0x6F0, 0x7C0, 0x966, 0x9E6, 0xA66, 0xAE6, 0xB66, 0xBE6, 0xC66, 0xCE6, 0xD66, 0xDE6, 0xE50, 0xED0,
    0xF20, 0x1040, 0x1090, 0x17E0, 0x1810, 0x1946, 0x19D0, 0x1A80, 0x1A90, 0x1B50, 0x1BB0, 0x1C40, 0x1C50, 0xA620,
    0xA8D0, 0xA900, 0xA9D0
  ]

  const HIGH_RUNS: seq<int> := [
    0xA9F0, 0xAA50, 0xABF0, 0xFF10, 0x104A0, 0x10D30, 0x11066, 0x110F0, 0x11136, 0x111D0, 0x112F0, 0x11450,
    0x114D0, 0x11650, 0x116C0, 0x11730, 0x118E0, 0x11950, 0x11C50, 0x11D50, 0x11DA0, 0x16A60, 0x16AC0, 0x16B50,
    0x1D7CE, 0x1D7D8, 0x1D7E2, 0x1D7EC, 0x1D7F6, 0x1E140, 0x1E2F0, 0x1E950, 0x1FBF0
  ]

  /** `\d` in a text pattern: any character of category Nd. */
  predicate IsDigit(c: char) {
    || '0' <= c <= '9'
    || (c > '\U{7F}' && exists k :: 0 <= k < |DIGIT_RUNS| && DIGIT_RUNS[k] <= c as int <= DIGIT_RUNS[k] + 9)
  }

  /** The characters at which `str.splitlines` ends a line (`\r\n` counts as one end). */
  predicate IsLineBreak(c: char) {
    || '\n' <= c <= '\r'
    || '\U{1C}' <= c <= '\U{1E}'
    || c == '\U{85}' || c == '\U{2028}' || c == '\U{2029}'
  }

  predicate StartsWith(s: string, prefix: string) {
    prefix <= s
  }

  predicate EndsWith(s: string, suffix: string) {
    |suffix| <= |s| && s[|s| - |suffix|..] == suffix
  }

  // ----- strip

  function LStrip(s: string): string { TrimStart(IsSpace, s) }

  function Strip(s: string): string { Trim(IsSpace, s) }

  /** No white space at either end. */
  predicate Trimmed(s: string) { Bare(IsSpace, s) }

  lemma StripTrimmed(s: string)
    requires Trimmed(s)
    ensures Strip(s) == s
  {
    TrimBare(IsSpace, s);
  }

  lemma StripPadded(left: string, s: string, right: string)
    requires All(IsSpace, left) && All(IsSpace, right) && Trimmed(s)
    ensures Strip(left + s + right) == s
  {
    TrimPadded(IsSpace, left, s, right);
  }

  lemma StripIdempotent(s: string)
    ensures Trimmed(Strip(s))
    ensures Strip(Strip(s)) == Strip(s)
  {
    var _, _ := TrimSplits(IsSpace, s);
    TrimBare(IsSpace, Strip(s));
  }

  // ----- splitlines

  /** No character at which `splitlines` would end a line. */
  ghost predicate SingleLine(s: string) {
    forall k :: 0 <= k < |s| ==> !IsLineBreak(s[k])
  }

  ghost predicate SingleLines(ls: seq<string>) {
    forall k :: 0 <= k < |ls| ==> SingleLine(ls[k])
  }

  /** The length of the first line: everything before the first line break. */
  function LineLength(text: string): (n: nat)
    ensures n <= |text|
    ensures SingleLine(text[..n])
    ensures n < |text| ==> IsLineBreak(text[n])
  {
    if text == "" || IsLineBreak(text[0]) then 0
    else
      var n := 1 + LineLength(text[1..]);
      assert text[..n] == [text[0]] + text[1..][..n - 1];
      n
  }

  /** `text.splitlines()`: a final line end opens no further line. */
  function SplitLines(text: string): (ls: seq<string>)
    ensures SingleLines(ls)
    decreases |text|
  {
    if text == "" then []
    else
      var n := LineLength(text);
      if n == |text| then [text]
      else
        var next := if text[n] == '\r' && n + 1 < |text| && text[n + 1] == '\n' then n + 2 else n + 1;
        [text[..n]] + SplitLines(text[next..])
  }

  /** Lines as a text file: each one ended by a newline. */
  function JoinLines(ls: seq<string>): string {
    if ls == [] then "" else ls[0] + "\n" + JoinLines(ls[1..])
  }

  lemma {:induction false} LineLengthOfLine(line: string, rest: string)
    requires SingleLine(line)
    ensures LineLength(line + "\n" + rest) == |line|
  {
    var text := line + "\n" + rest;
    if line != "" {
      assert text[1..] == line[1..] + "\n" + rest;
      LineLengthOfLine(line[1..], rest);
    }
  }

  lemma SplitFirstLine(line: string, rest: string)
    requires SingleLine(line)
    ensures SplitLines(line + "\n" + rest) == [line] + SplitLines(rest)
  {
    var text := line + "\n" + rest;
    LineLengthOfLine(line, rest);
    assert text[|line|] == '\n';
    assert text[..|line|] == line;
    assert text[|line| + 1..] == rest;
  }

  /** Splitting a file undoes writing it, for every list of single lines. */
  lemma {:induction false} SplitJoin(ls: seq<string>)
    requires SingleLines(ls)
    ensures SplitLines(JoinLines(ls)) == ls
  {
    if ls != [] {
      SplitFirstLine(ls[0], JoinLines(ls[1..]));
      SplitJoin(ls[1..]);
    }
  }

  /** White space around a line stays white space: stripping keeps a line single. */
  lemma StripSingleLine(s: string)
    requires SingleLine(s)
    ensures SingleLine(Strip(s))
  {
    var left, right := TrimSplits(IsSpace, s);
    forall k | 0 <= k < |Strip(s)|
      ensures !IsLineBreak(Strip(s)[k])
    {
      assert Strip(s)[k] == s[|left| + k];
    }
  }
}
