/**
The env-file grammar shared by scripts/validate-production-env.js, scripts/check-gemini-models.js and
frontend/next.config.ts.
 */
module EnvFile {
  import opened Basics
  import opened Trimming

  datatype Assignment = Assignment(key: string, value: string)

  /** The characters that JavaScript's `trim` removes. */
  predicate IsJsSpace(c: char) {
    || c == ' '
    || '\t' <= c <= '\r'
    || c in {'\U{A0}', '\U{1680}', '\U{2028}', '\U{2029}', '\U{202F}', '\U{205F}', '\U{3000}', '\U{FEFF}'}
    || '\U{2000}' <= c <= '\U{200A}'
  }

  function TrimJs(s: string): string { Trim(IsJsSpace, s) }

  /** `s.indexOf(c)`, or the length of `s` where JavaScript answers -1. */
  function IndexOf(c: char, s: string): (n: nat)
    ensures n <= |s|
    ensures c !in s[..n]
    ensures n < |s| ==> s[n] == c
  {
    if s == "" || s[0] == c then 0
    else
      var n := 1 + IndexOf(c, s[1..]);
      assert s[..n] == [s[0]] + s[1..][..n - 1];
      n
  }

  function DropReturn(line: string): string {
    if line != "" && line[|line| - 1] == '\r' then line[..|line| - 1] else line
  }

  /** `text.split(/\r?\n/)` */
  function SplitEnvLines(text: string): seq<string>
    decreases |text|
  {
    var n := IndexOf('\n', text);
    if n == |text| then [text] else [DropReturn(text[..n])] + SplitEnvLines(text[n + 1..])
  }

  predicate IsQuote(c: char) { c == '\'' || c == '"' }

  /** `v.replace(/^['"]|['"]$/g, '')`: one quote off each end, each on its own. */
  function Unquote(v: string): string {
    var tail := if v != "" && IsQuote(v[0]) then v[1..] else v;
    if tail != "" && IsQuote(tail[|tail| - 1]) then tail[..|tail| - 1] else tail
  }

  /** What a line assigns, if anything. */
  function ParseLine(raw: string): Option<Assignment> {
    var line := TrimJs(raw);
    if line == "" || line[0] == '#' then None
    else
      var i := IndexOf('=', line);
      if i == |line| then None
      else Some(Assignment(TrimJs(line[..i]), Unquote(TrimJs(line[i + 1..]))))
  }

  function Assignments(lines: seq<string>): seq<Assignment> {
    if lines == [] then []
    else (match ParseLine(lines[0]) case None => [] case Some(a) => [a]) + Assignments(lines[1..])
  }

  /** Later assignments override earlier ones. */
  function EnvMap(assignments: seq<Assignment>): map<string, string> {
    if assignments == [] then map[]
    else
      var last := assignments[|assignments| - 1];
      EnvMap(assignments[..|assignments| - 1])[last.key := last.value]
  }

  function EnvOf(text: string): map<string, string> {
    EnvMap(Assignments(SplitEnvLines(text)))
  }

  // ----- the program

  lemma {:induction false} AssignmentsAppend(a: seq<string>, b: seq<string>)
    ensures Assignments(a + b) == Assignments(a) + Assignments(b)
  {
    hide ParseLine;
    if a == [] {
      assert a + b == b;
    } else {
      assert (a + b)[1..] == a[1..] + b;
      AssignmentsAppend(a[1..], b);
    }
  }

  lemma {:induction false} AssignmentsNext(lines: seq<string>, i: nat)
    requires i < |lines|
    ensures Assignments(lines[..i + 1])
         == Assignments(lines[..i]) + match ParseLine(lines[i]) case None => [] case Some(a) => [a]
  {
    hide ParseLine;
    assert lines[..i + 1] == lines[..i] + [lines[i]];
    AssignmentsAppend(lines[..i], [lines[i]]);
  }

  lemma EnvMapSnoc(assignments: seq<Assignment>, a: Assignment)
    ensures EnvMap(assignments + [a]) == EnvMap(assignments)[a.key := a.value]
  {
    assert (assignments + [a])[..|assignments|] == assignments;
  }

  /** What a line does to the map. */
  function Override(m: map<string, string>, read: Option<Assignment>): map<string, string> {
    match read
    case None => m
    case Some(a) => m[a.key := a.value]
  }

  lemma EnvMapNext(lines: seq<string>, i: nat)
    requires i < |lines|
    ensures EnvMap(Assignments(lines[..i + 1])) == Override(EnvMap(Assignments(lines[..i])), ParseLine(lines[i]))
  {
    hide ParseLine, EnvMap, Assignments;
    AssignmentsNext(lines, i);
    if ParseLine(lines[i]).Some? {
      EnvMapSnoc(Assignments(lines[..i]), ParseLine(lines[i]).value);
    } else {
      assert Assignments(lines[..i]) + [] == Assignments(lines[..i]);
    }
  }

  /** The steps that all three programs take on a line. */
  method ReadLine(rawLine: string) returns (read: Option<Assignment>)
    ensures read == ParseLine(rawLine)
  {
    hide TrimJs, Unquote, IndexOf;
    var line := TrimJs(rawLine);
    if line == "" || line[0] == '#' {
      return None;
    }
    var separator := IndexOf('=', line);
    if separator == |line| {
      return None;
    }
    var key := TrimJs(line[..separator]);
    var value := Unquote(TrimJs(line[separator + 1..]));
    return Some(Assignment(key, value));
  }

  /** `parseEnvFile` */
  method ParseEnvFile(contents: string) returns (values: map<string, string>)
    ensures values == EnvOf(contents)
  {
    hide *;
    var lines := SplitEnvLines(contents);
    values := map[];
    NothingAssigned();
    assert lines[..0] == [];
    for n := 0 to |lines|
      invariant values == EnvMap(Assignments(lines[..n]))
    {
      EnvMapNext(lines, n);
      var read := ReadLine(lines[n]);
      OverrideCases(values, read);
      if read.None? {
        continue;
      }
      values := values[read.value.key := read.value.value];
    }
    assert lines[..|lines|] == lines;
    EnvOfIs(contents);
  }

  lemma OverrideCases(m: map<string, string>, read: Option<Assignment>)
    ensures read.None? ==> Override(m, read) == m
    ensures read.Some? ==> Override(m, read) == m[read.value.key := read.value.value]
  {
  }

  lemma NothingAssigned()
    ensures Assignments([]) == [] && EnvMap([]) == map[]
  {
  }

  // ----- files joined

  lemma {:induction false} EnvMapAppend(a: seq<Assignment>, b: seq<Assignment>)
    ensures EnvMap(a + b) == EnvMap(a) + EnvMap(b)
  {
    if b == [] {
      assert a + b == a;
      assert EnvMap(a) + map[] == EnvMap(a);
    } else {
      var front, last := b[..|b| - 1], b[|b| - 1];
      assert (a + b)[..|a + b| - 1] == a + front;
      EnvMapAppend(a, front);
    }
  }

  lemma {:induction false} IndexOfFirst(c: char, a: string, b: string)
    requires c !in a
    ensures IndexOf(c, a + [c] + b) == |a|
  {
    if a != "" {
      assert (a + [c] + b)[1..] == a[1..] + [c] + b;
      assert a[0] != c;
      IndexOfFirst(c, a[1..], b);
    }
  }

  lemma TrimReturn(line: string)
    ensures TrimJs(DropReturn(line)) == TrimJs(line)
  {
    hide Trim;
    if DropReturn(line) != line {
      assert line == "" + DropReturn(line) + "\r";
      TrimIgnoresPadding(IsJsSpace, "", DropReturn(line), "\r");
    }
  }

  /** A carriage return at the end of a line does not matter, since lines are trimmed. */
  lemma ParseLineReturn(line: string)
    ensures ParseLine(DropReturn(line)) == ParseLine(line)
  {
    hide TrimJs, Unquote, IndexOf, DropReturn;
    TrimReturn(line);
  }

  lemma SplitFirst(a: string, b: string)
    requires '\n' !in a
    ensures SplitEnvLines(a + "\n" + b) == [DropReturn(a)] + SplitEnvLines(b)
  {
    var text := a + "\n" + b;
    IndexOfFirst('\n', a, b);
    assert text == a + ['\n'] + b;
    assert text[..|a|] == a && text[|a| + 1..] == b;
  }

  /** The assignments of a text. */
  function TextAssignments(text: string): seq<Assignment> {
    Assignments(SplitEnvLines(text))
  }

  function LineAssignments(line: string): seq<Assignment> {
    match ParseLine(line) case None => [] case Some(a) => [a]
  }

  lemma AssignmentsOfLine(line: string)
    requires '\n' !in line
    ensures TextAssignments(line) == LineAssignments(line)
  {
    hide ParseLine;
    assert IndexOf('\n', line) == |line|;
    assert SplitEnvLines(line) == [line];
    assert Assignments([line]) == LineAssignments(line) + Assignments([]);
  }

  lemma AssignmentsOfFirst(line: string, rest: string)
    requires '\n' !in line
    ensures TextAssignments(line + "\n" + rest) == LineAssignments(line) + TextAssignments(rest)
  {
    hide ParseLine, SplitEnvLines, DropReturn;
    SplitFirst(line, rest);
    ParseLineReturn(line);
    assert ([DropReturn(line)] + SplitEnvLines(rest))[1..] == SplitEnvLines(rest);
  }

  lemma {:induction false} JoinedAssignments(a: string, b: string)
    ensures TextAssignments(a + "\n" + b) == TextAssignments(a) + TextAssignments(b)
    decreases |a|
  {
    hide *;
    var n := IndexOf('\n', a);
    var first := a[..n];
    if n == |a| {
      assert first == a;
      AssignmentsOfLine(a);
      AssignmentsOfFirst(a, b);
    } else {
      var rest := a[n + 1..];
      assert a == first + "\n" + rest;
      assert a + "\n" + b == first + "\n" + (rest + "\n" + b);
      AssignmentsOfFirst(first, rest + "\n" + b);
      AssignmentsOfFirst(first, rest);
      JoinedAssignments(rest, b);
    }
  }

  /**
  Homomorphism: parsing two texts joined by a newline overrides the first map with the second, for all
  texts; a carriage return just before the joint changes nothing.
   */
  lemma EnvOfJoin(a: string, b: string)
    ensures EnvOf(a + "\n" + b) == EnvOf(a) + EnvOf(b)
  {
    hide *;
    JoinedAssignments(a, b);
    EnvMapAppend(TextAssignments(a), TextAssignments(b));
    EnvOfIs(a);
    EnvOfIs(b);
    EnvOfIs(a + "\n" + b);
  }

  lemma EnvOfIs(text: string)
    ensures EnvOf(text) == EnvMap(TextAssignments(text)) == EnvMap(Assignments(SplitEnvLines(text)))
  {
  }

  /** The map that a single line denotes. */
  lemma EnvOfLine(line: string)
    requires '\n' !in line
    ensures EnvOf(line) == match ParseLine(line) case None => map[] case Some(a) => map[a.key := a.value]
  {
    hide ParseLine;
    AssignmentsOfLine(line);
    if ParseLine(line).Some? {
      EnvMapSnoc([], ParseLine(line).value);
      assert [] + [ParseLine(line).value] == [ParseLine(line).value];
    }
  }

  lemma InertParses(line: string)
    requires TrimJs(line) == "" || TrimJs(line)[0] == '#' || '=' !in TrimJs(line)
    ensures ParseLine(line) == None
  {
    hide TrimJs, Unquote;
  }

  /** A line that is blank, a comment, or has no separator can be put anywhere without effect. */
  lemma InertLine(before: string, line: string, after: string)
    requires '\n' !in line
    requires TrimJs(line) == "" || TrimJs(line)[0] == '#' || '=' !in TrimJs(line)
    ensures EnvOf(before + "\n" + line + "\n" + after) == EnvOf(before + "\n" + after)
  {
    hide *;
    InertParses(line);
    assert before + "\n" + line + "\n" + after == before + "\n" + (line + "\n" + after);
    EnvOfLine(line);
    EnvOfJoin(line, after);
    EnvOfJoin(before, line + "\n" + after);
    EnvOfJoin(before, after);
    assert map[] + EnvOf(after) == EnvOf(after);
  }

  // ----- the round trip

  /** A key that the notation can express; any value on one line can be quoted. */
  ghost predicate Expressible(a: Assignment) {
    && Bare(IsJsSpace, a.key) && '=' !in a.key && '\n' !in a.key
    && (a.key != "" ==> a.key[0] != '#')
    && '\n' !in a.value
  }

  function Quoted(a: Assignment): string {
    a.key + "=\"" + a.value + "\""
  }

  function PrintEnv(assignments: seq<Assignment>): string {
    if assignments == [] then "" else Quoted(assignments[0]) + "\n" + PrintEnv(assignments[1..])
  }

  lemma UnquoteQuoted(v: string)
    ensures TrimJs("\"" + v + "\"") == "\"" + v + "\""
    ensures Unquote("\"" + v + "\"") == v
  {
    var q := "\"" + v + "\"";
    TrimBare(IsJsSpace, q);
    assert q[1..] == v + "\"";
    assert (v + "\"")[..|v|] == v;
  }

  /** Inner quotes and spaces at the edges of the value are kept. */
  lemma ParseQuoted(a: Assignment)
    requires Expressible(a)
    ensures ParseLine(Quoted(a)) == Some(a)
  {
    hide Trim, Unquote;
    var line := Quoted(a);
    TrimBare(IsJsSpace, line);
    var value := "\"" + a.value + "\"";
    assert line == a.key + ['='] + value;
    IndexOfFirst('=', a.key, value);
    assert line[..|a.key|] == a.key && line[|a.key| + 1..] == value;
    TrimBare(IsJsSpace, a.key);
    UnquoteQuoted(a.value);
  }

  /** Round trip: parsing printed assignments gives the map they denote. */
  lemma {:induction false} EnvOfPrint(assignments: seq<Assignment>)
    requires forall k :: 0 <= k < |assignments| ==> Expressible(assignments[k])
    ensures EnvOf(PrintEnv(assignments)) == EnvMap(assignments)
  {
    hide *;
    if assignments == [] {
      EmptyFile();
    } else {
      PrintEnvUnfold(assignments);
      var a, rest := assignments[0], assignments[1..];
      EnvOfPrint(rest);
      ParseQuoted(a);
      QuotedHasNoNewline(a);
      EnvOfLine(Quoted(a));
      EnvOfJoin(Quoted(a), PrintEnv(rest));
      assert assignments == [a] + rest;
      EnvMapAppend([a], rest);
      SingleAssignment(a);
    }
  }

  lemma EmptyFile()
    ensures PrintEnv([]) == "" && EnvOf("") == map[] && EnvMap([]) == map[]
  {
    TrimBare(IsJsSpace, "");
    EnvOfLine("");
  }

  lemma PrintEnvUnfold(assignments: seq<Assignment>)
    requires assignments != []
    ensures PrintEnv(assignments) == Quoted(assignments[0]) + "\n" + PrintEnv(assignments[1..])
  {
  }

  lemma SingleAssignment(a: Assignment)
    ensures EnvMap([a]) == map[a.key := a.value]
  {
    assert [] + [a] == [a];
    EnvMapSnoc([], a);
  }

  /** Every map with expressible entries is the meaning of some file. */
  lemma {:induction false} EveryMapHasAFile(m: map<string, string>) returns (text: string)
    requires forall k :: k in m ==> Expressible(Assignment(k, m[k]))
    ensures EnvOf(text) == m
    decreases |m|
  {
    hide *;
    if m == map[] {
      text := "";
      EmptyFile();
    } else {
      var k :| k in m;
      var rest := m - {k};
      assert |rest| < |m| by {
        assert rest.Keys == m.Keys - {k};
      }
      var before := EveryMapHasAFile(rest);
      var a := Assignment(k, m[k]);
      text := before + "\n" + Quoted(a);
      QuotedHasNoNewline(a);
      ParseQuoted(a);
      EnvOfLine(Quoted(a));
      EnvOfJoin(before, Quoted(a));
      assert rest + map[k := m[k]] == m;
    }
  }

  lemma QuotedHasNoNewline(a: Assignment)
    requires Expressible(a)
    ensures '\n' !in Quoted(a)
  {
  }

  // ----- reordering

  /** No two of the lines assign the same key. */
  ghost predicate DistinctKeys(lines: seq<string>) {
    forall i, j :: 0 <= i < j < |lines| && ParseLine(lines[i]).Some? && ParseLine(lines[j]).Some? ==>
      ParseLine(lines[i]).value.key != ParseLine(lines[j]).value.key
  }

  ghost predicate SomeLineAssigns(lines: seq<string>, a: Assignment) {
    exists i :: 0 <= i < |lines| && ParseLine(lines[i]) == Some(a)
  }

  /** The map holds for `key` exactly what some line assigns to it. */
  ghost predicate Matches(m: map<string, string>, lines: seq<string>, key: string) {
    && (key in m ==> SomeLineAssigns(lines, Assignment(key, m[key])))
    && (forall v :: SomeLineAssigns(lines, Assignment(key, v)) ==> key in m && m[key] == v)
  }

  lemma MatchesNext(m: map<string, string>, lines: seq<string>, line: string, key: string)
    requires Matches(m, lines, key)
    requires ParseLine(line).Some? ==> forall v :: !SomeLineAssigns(lines, Assignment(ParseLine(line).value.key, v))
    ensures Matches(Override(m, ParseLine(line)), lines + [line], key)
  {
    hide ParseLine;
    var all := lines + [line];
    assert all[|lines|] == line;
    assert forall i :: 0 <= i < |lines| ==> all[i] == lines[i];
    assert forall a :: SomeLineAssigns(all, a) <==> SomeLineAssigns(lines, a) || ParseLine(line) == Some(a);
  }

  lemma LastKeyIsNew(lines: seq<string>, line: string)
    requires DistinctKeys(lines + [line]) && ParseLine(line).Some?
    ensures forall v :: !SomeLineAssigns(lines, Assignment(ParseLine(line).value.key, v))
  {
    hide ParseLine;
    var all := lines + [line];
    assert all[|lines|] == line;
    assert forall i :: 0 <= i < |lines| ==> all[i] == lines[i];
  }

  lemma DistinctFront(lines: seq<string>)
    requires lines != [] && DistinctKeys(lines)
    ensures DistinctKeys(lines[..|lines| - 1])
  {
    hide ParseLine;
  }

  /** With distinct keys, it does not matter where the assigning line stands. */
  lemma {:induction false} EnvOfDistinct(lines: seq<string>, key: string)
    requires DistinctKeys(lines)
    ensures Matches(EnvMap(Assignments(lines)), lines, key)
  {
    if lines != [] {
      hide *;
      var n := |lines| - 1;
      assert lines == lines[..n] + [lines[n]];
      assert lines[..n + 1] == lines;
      DistinctFront(lines);
      EnvOfDistinct(lines[..n], key);
      EnvMapNext(lines, n);
      if ParseLine(lines[n]).Some? {
        LastKeyIsNew(lines[..n], lines[n]);
      }
      MatchesNext(EnvMap(Assignments(lines[..n])), lines[..n], lines[n], key);
    }
  }

  lemma {:induction false} TwiceInSeq(s: seq<string>, x: string) returns (i: nat, j: nat)
    requires multiset(s)[x] >= 2
    ensures i < j < |s| && s[i] == x == s[j]
  {
    var n := |s| - 1;
    assert s == s[..n] + [s[n]];
    if s[n] == x {
      assert x in multiset(s[..n]);
      i :| 0 <= i < n && s[..n][i] == x;
      j := n;
    } else {
      i, j := TwiceInSeq(s[..n], x);
    }
  }

  lemma TwiceInMultiset(s: seq<string>, i: nat, j: nat)
    requires i < j < |s| && s[i] == s[j]
    ensures multiset(s)[s[i]] >= 2
  {
    assert s == s[..j] + ([s[j]] + s[j + 1..]);
    assert s[..j][i] == s[i];
    assert s[i] in multiset(s[..j]);
  }

  lemma PermutedDistinct(a: seq<string>, b: seq<string>)
    requires multiset(a) == multiset(b) && DistinctKeys(a)
    ensures DistinctKeys(b)
  {
    hide ParseLine;
    forall i, j | 0 <= i < j < |b| && ParseLine(b[i]).Some? && ParseLine(b[j]).Some?
      ensures ParseLine(b[i]).value.key != ParseLine(b[j]).value.key
    {
      if b[i] == b[j] {
        TwiceInMultiset(b, i, j);
        var p, q := TwiceInSeq(a, b[i]);
      } else {
        assert b[i] in multiset(a) && b[j] in multiset(a);
        var p :| 0 <= p < |a| && a[p] == b[i];
        var q :| 0 <= q < |a| && a[q] == b[j];
        assert p != q;
      }
    }
  }

  lemma SameAssigned(a: seq<string>, b: seq<string>, x: Assignment)
    requires multiset(a) == multiset(b) && SomeLineAssigns(a, x)
    ensures SomeLineAssigns(b, x)
  {
    hide ParseLine;
    var i :| 0 <= i < |a| && ParseLine(a[i]) == Some(x);
    assert a[i] in multiset(b);
  }

  /** Reordering lines with distinct keys does not change the map. */
  lemma {:induction false} Reordering(a: seq<string>, b: seq<string>)
    requires multiset(a) == multiset(b) && DistinctKeys(a)
    ensures EnvMap(Assignments(a)) == EnvMap(Assignments(b))
  {
    hide ParseLine, EnvMap, Assignments, SomeLineAssigns, DistinctKeys;
    PermutedDistinct(a, b);
    var m, n := EnvMap(Assignments(a)), EnvMap(Assignments(b));
    forall key
      ensures key in m ==> key in n && n[key] == m[key]
      ensures key in n ==> key in m
    {
      EnvOfDistinct(a, key);
      EnvOfDistinct(b, key);
      if key in m { SameAssigned(a, b, Assignment(key, m[key])); }
      if key in n { SameAssigned(b, a, Assignment(key, n[key])); }
    }
  }
}
