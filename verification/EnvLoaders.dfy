/**
The two loaders that copy an env file into the process environment: `loadRootEnv` of
frontend/next.config.ts writes while it reads, `loadLocalEnv` of scripts/check-gemini-models.js parses
the whole file first. The environment is a map; a variable counts as set if it is not empty, and so does a
name that every object inherits.
 */
module EnvLoaders {
  import opened Basics
  import opened EnvFile

  type Env = map<string, string>

  /** The names that `process.env` inherits from `Object.prototype`; their values are objects, never empty. */
  const INHERITED: set<string> := {
    "constructor", "hasOwnProperty", "isPrototypeOf", "propertyIsEnumerable", "toLocaleString", "toString", "valueOf",
    "__proto__", "__defineGetter__", "__defineSetter__", "__lookupGetter__", "__lookupSetter__"
  }

  /** JavaScript's truth of `process.env[key]`. */
  predicate IsSet(env: Env, key: string) {
    if key in env then env[key] != "" else key in INHERITED
  }

  function Put(env: Env, a: Assignment): Env {
    if IsSet(env, a.key) then env else env[a.key := a.value]
  }

  /** The streaming loader. */
  function Stream(env: Env, assignments: seq<Assignment>): Env {
    if assignments == [] then env
    else Put(Stream(env, assignments[..|assignments| - 1]), assignments[|assignments| - 1])
  }

  /** The parse-then-merge loader. */
  function Merge(env: Env, parsed: Env): Env {
    env + map key | key in parsed && !IsSet(env, key) :: parsed[key]
  }

  // ----- the programs

  class Process {
    var env: Env

    constructor (initial: Env)
      ensures env == initial
    {
      env := initial;
    }

    /** `loadRootEnv`; `None` is a file that does not exist. */
    method LoadRootEnv(file: Option<string>)
      modifies this
      ensures env == if file.None? then old(env) else Stream(old(env), Assignments(SplitEnvLines(file.value)))
    {
      if file.None? {
        return;
      }
      hide *;
      var lines := SplitEnvLines(file.value);
      StreamNothing(env);
      assert lines[..0] == [];
      for n := 0 to |lines|
        invariant env == Stream(old(env), Assignments(lines[..n]))
      {
        StreamNext(old(env), lines, n);
        var read := ReadLine(lines[n]);
        PutCases(env, read);
        if read.None? {
          continue;
        }
        if !IsSet(env, read.value.key) {
          env := env[read.value.key := read.value.value];
        }
      }
      assert lines[..|lines|] == lines;
    }

    /** `loadLocalEnv`; the entries of the parsed file are visited in some order. */
    method LoadLocalEnv(file: Option<string>)
      modifies this
      ensures env == if file.None? then old(env) else Merge(old(env), EnvOf(file.value))
    {
      if file.None? {
        return;
      }
      var parsed := ParseEnvFile(file.value);
      hide *;
      MergeEnds(env, parsed);
      var remaining := parsed.Keys;
      while remaining != {}
        invariant remaining <= parsed.Keys
        invariant env == Merge(old(env), Visited(parsed, remaining))
        decreases |remaining|
      {
        var key :| key in remaining;
        MergeNext(old(env), parsed, remaining, key);
        PutCases(env, Some(Assignment(key, parsed[key])));
        remaining := remaining - {key};
        if !IsSet(env, key) {
          env := env[key := parsed[key]];
        }
      }
    }
  }

  function PutRead(env: Env, read: Option<Assignment>): Env {
    match read
    case None => env
    case Some(a) => Put(env, a)
  }

  lemma PutCases(env: Env, read: Option<Assignment>)
    ensures read.None? ==> PutRead(env, read) == env
    ensures read.Some? ==> PutRead(env, read) == Put(env, read.value)
    ensures read.Some? && IsSet(env, read.value.key) ==> PutRead(env, read) == env
    ensures read.Some? && !IsSet(env, read.value.key) ==> PutRead(env, read) == env[read.value.key := read.value.value]
  {
  }

  lemma StreamNext(env: Env, lines: seq<string>, i: nat)
    requires i < |lines|
    ensures Stream(env, Assignments(lines[..i + 1]))
         == PutRead(Stream(env, Assignments(lines[..i])), ParseLine(lines[i]))
  {
    hide ParseLine, Stream, Assignments;
    AssignmentsNext(lines, i);
    if ParseLine(lines[i]).Some? {
      StreamSnoc(env, Assignments(lines[..i]), ParseLine(lines[i]).value);
    } else {
      assert Assignments(lines[..i]) + [] == Assignments(lines[..i]);
    }
  }

  /** The entries of `parsed` that the merge loop has visited. */
  function Visited(parsed: Env, remaining: set<string>): Env {
    map key | key in parsed && key !in remaining :: parsed[key]
  }

  /** Visiting one more entry, in whatever order. */
  lemma MergeNext(env: Env, parsed: Env, remaining: set<string>, key: string)
    requires key in parsed && key in remaining
    ensures Merge(env, Visited(parsed, remaining - {key}))
         == Put(Merge(env, Visited(parsed, remaining)), Assignment(key, parsed[key]))
  {
  }

  lemma MergeEnds(env: Env, parsed: Env)
    ensures Merge(env, Visited(parsed, parsed.Keys)) == env
    ensures Visited(parsed, {}) == parsed
  {
  }

  lemma StreamNothing(env: Env)
    ensures Assignments([]) == [] && Stream(env, []) == env
  {
  }

  lemma StreamSnoc(env: Env, assignments: seq<Assignment>, a: Assignment)
    ensures Stream(env, assignments + [a]) == Put(Stream(env, assignments), a)
  {
    assert (assignments + [a])[..|assignments|] == assignments;
  }

  // ----- what each loader leaves in a variable

  ghost predicate Assigned(assignments: seq<Assignment>, key: string) {
    exists i :: 0 <= i < |assignments| && assignments[i].key == key
  }

  /** The first nonempty value given to `key`; empty if there is none. */
  function FirstValue(assignments: seq<Assignment>, key: string): string {
    if assignments == [] then ""
    else
      var before := FirstValue(assignments[..|assignments| - 1], key);
      var last := assignments[|assignments| - 1];
      if before == "" && last.key == key then last.value else before
  }

  lemma {:induction false} StreamAt(env: Env, assignments: seq<Assignment>, key: string)
    ensures var after := Stream(env, assignments);
            && (key in after <==> key in env || (Assigned(assignments, key) && !IsSet(env, key)))
            && (key in env && IsSet(env, key) ==> after[key] == env[key])
            && (!IsSet(env, key) && Assigned(assignments, key) ==> after[key] == FirstValue(assignments, key))
            && (key in env && !Assigned(assignments, key) ==> after[key] == env[key])
            && (!Assigned(assignments, key) ==> FirstValue(assignments, key) == "")
  {
    if assignments != [] {
      hide INHERITED;
      var n := |assignments| - 1;
      var front, last := assignments[..n], assignments[n];
      StreamAt(env, front, key);
      assert forall i :: 0 <= i < n ==> front[i] == assignments[i];
      assert Assigned(assignments, key) <==> Assigned(front, key) || last.key == key;
    }
  }

  lemma {:induction false} AssignedInMap(assignments: seq<Assignment>, key: string)
    ensures key in EnvMap(assignments) <==> Assigned(assignments, key)
  {
    if assignments != [] {
      var n := |assignments| - 1;
      var front, last := assignments[..n], assignments[n];
      AssignedInMap(front, key);
      assert forall i :: 0 <= i < n ==> front[i] == assignments[i];
      assert Assigned(assignments, key) <==> Assigned(front, key) || last.key == key;
    }
  }

  /**
  The loaders related: from one environment and one file they leave the same result if and only if, for
  every variable that is not set already, the first nonempty value in the file is also its last value.
   */
  lemma LoadersAgree(env: Env, assignments: seq<Assignment>)
    ensures Stream(env, assignments) == Merge(env, EnvMap(assignments))
       <==> forall key :: key in EnvMap(assignments) && !IsSet(env, key) ==>
              EnvMap(assignments)[key] == FirstValue(assignments, key)
  {
    hide Stream, EnvMap, FirstValue, Assigned, INHERITED;
    var s, last := Stream(env, assignments), EnvMap(assignments);
    var m := Merge(env, last);
    forall key
      ensures key in s <==> key in m
      ensures key in s ==>
                (s[key] == m[key] <==> (key in last && !IsSet(env, key) ==> last[key] == FirstValue(assignments, key)))
    {
      StreamAt(env, assignments, key);
      AssignedInMap(assignments, key);
    }
    assert forall key :: key in last && !IsSet(env, key) ==> key in m;
  }

  function TwoValues(): seq<Assignment> {
    [Assignment("A", "1"), Assignment("A", "2")]
  }

  /** A file that assigns a variable twice, and the two results. */
  lemma LoadersDiffer()
    ensures TextAssignments(Quoted(TwoValues()[0]) + "\n" + Quoted(TwoValues()[1])) == TwoValues()
    ensures Stream(map[], TwoValues()) == map["A" := "1"]
    ensures Merge(map[], EnvMap(TwoValues())) == map["A" := "2"]
  {
    AssignsOne(TwoValues()[0]);
    AssignsOne(TwoValues()[1]);
    StreamTwo();
    hide *;
    AssignmentsOfFirst(Quoted(TwoValues()[0]), Quoted(TwoValues()[1]));
    AssignmentsOfLine(Quoted(TwoValues()[1]));
    TwoAre();
  }

  lemma TwoAre()
    ensures [TwoValues()[0]] + [TwoValues()[1]] == TwoValues()
  {
  }

  lemma AssignsOne(a: Assignment)
    requires a.key == "A" && |a.value| == 1 && a.value[0] != '\n'
    ensures '\n' !in Quoted(a) && LineAssignments(Quoted(a)) == [a]
  {
    hide ParseLine;
    assert Expressible(a);
    ParseQuoted(a);
    QuotedHasNoNewline(a);
  }

  lemma StreamTwo()
    ensures Stream(map[], TwoValues()) == map["A" := "1"]
    ensures Merge(map[], EnvMap(TwoValues())) == map["A" := "2"]
  {
    var a, b := Assignment("A", "1"), Assignment("A", "2");
    StreamNothing(map[]);
    StreamSnoc(map[], [], a);
    StreamSnoc(map[], [a], b);
    EnvMapSnoc([], a);
    EnvMapSnoc([a], b);
    assert [] + [a] == [a] && [a] + [b] == TwoValues();
  }

  /** No key is assigned twice. */
  ghost predicate DistinctAssignments(assignments: seq<Assignment>) {
    forall i, j :: 0 <= i < j < |assignments| ==> assignments[i].key != assignments[j].key
  }

  lemma {:induction false} FirstIsLast(assignments: seq<Assignment>, key: string)
    requires DistinctAssignments(assignments) && key in EnvMap(assignments)
    ensures EnvMap(assignments)[key] == FirstValue(assignments, key)
  {
    var n := |assignments| - 1;
    var front, last := assignments[..n], assignments[n];
    assert forall i :: 0 <= i < n ==> front[i] == assignments[i];
    if last.key == key {
      assert !Assigned(front, key);
      StreamAt(map[], front, key);
    } else {
      FirstIsLast(front, key);
    }
  }

  /** In particular they agree on every file without repeated keys. */
  lemma LoadersAgreeOnDistinct(env: Env, assignments: seq<Assignment>)
    requires DistinctAssignments(assignments)
    ensures Stream(env, assignments) == Merge(env, EnvMap(assignments))
  {
    hide Stream, EnvMap, FirstValue, Merge;
    LoadersAgree(env, assignments);
    forall key | key in EnvMap(assignments) && !IsSet(env, key)
      ensures EnvMap(assignments)[key] == FirstValue(assignments, key)
    {
      FirstIsLast(assignments, key);
    }
  }

  /** Loading a file twice is loading it once, for both loaders. */
  lemma LoadingTwice(env: Env, assignments: seq<Assignment>)
    ensures Stream(Stream(env, assignments), assignments) == Stream(env, assignments)
    ensures Merge(Merge(env, EnvMap(assignments)), EnvMap(assignments)) == Merge(env, EnvMap(assignments))
  {
    hide Stream, EnvMap, FirstValue, Assigned, INHERITED;
    var once := Stream(env, assignments);
    var twice := Stream(once, assignments);
    forall key
      ensures key in once <==> key in twice
      ensures key in once ==> once[key] == twice[key]
    {
      StreamAt(env, assignments, key);
      StreamAt(once, assignments, key);
    }
  }

  /** A variable that is set before is never touched, by either loader. */
  lemma SetVariablesSurvive(env: Env, assignments: seq<Assignment>, key: string)
    requires IsSet(env, key)
    ensures var after := Stream(env, assignments);
            (key in after <==> key in env) && (key in env ==> after[key] == env[key])
    ensures var after := Merge(env, EnvMap(assignments));
            (key in after <==> key in env) && (key in env ==> after[key] == env[key])
  {
    hide INHERITED;
    StreamAt(env, assignments, key);
  }

  // ----- what the loaders leave, said from the lines

  /** Line `i` gives `key` a value, and no line before it does. */
  ghost predicate GivesFirst(assignments: seq<Assignment>, key: string, i: nat) {
    && i < |assignments| && assignments[i].key == key && assignments[i].value != ""
    && forall j: nat :: j < i && assignments[j].key == key ==> assignments[j].value == ""
  }

  lemma {:induction false} FirstValueIs(assignments: seq<Assignment>, key: string)
    ensures forall i: nat :: GivesFirst(assignments, key, i) ==> FirstValue(assignments, key) == assignments[i].value
    ensures (forall i: nat :: !GivesFirst(assignments, key, i)) ==> FirstValue(assignments, key) == ""
  {
    if assignments != [] {
      var n := |assignments| - 1;
      var front, last := assignments[..n], assignments[n];
      FirstValueIs(front, key);
      forall i: nat
        ensures i < n ==> (GivesFirst(front, key, i) <==> GivesFirst(assignments, key, i))
      {
        assert forall j :: 0 <= j < n ==> front[j] == assignments[j];
      }
      if before: nat :| GivesFirst(front, key, before) {
        assert !GivesFirst(assignments, key, n);
      } else {
        EmptyBefore(front, key, n);
        assert last.key == key && last.value != "" ==> GivesFirst(assignments, key, n);
      }
    }
  }

  /** Where no line gives a value first, none gives one. */
  lemma {:induction false} EmptyBefore(assignments: seq<Assignment>, key: string, n: nat)
    requires n <= |assignments| && forall i: nat :: !GivesFirst(assignments, key, i)
    ensures forall j: nat :: j < n && assignments[j].key == key ==> assignments[j].value == ""
  {
    if n > 0 {
      EmptyBefore(assignments, key, n - 1);
      assert !GivesFirst(assignments, key, n - 1);
    }
  }

  /**
  What both loaders leave in a variable of an ordinary name: a value that is there stays, empty or missing ones are
  replaced by the first value of the file with the streaming loader, and by the last assignment with the merging one.
   */
  lemma LoadedValue(env: Env, assignments: seq<Assignment>, key: string)
    requires key !in INHERITED && Assigned(assignments, key)
    ensures var streamed, merged := Stream(env, assignments), Merge(env, EnvMap(assignments));
            && key in streamed && key in merged
            && if key in env && env[key] != "" then streamed[key] == merged[key] == env[key]
               else
                 && (forall i: nat :: GivesFirst(assignments, key, i) ==> streamed[key] == assignments[i].value)
                 && ((forall i: nat :: !GivesFirst(assignments, key, i)) ==> streamed[key] == "")
                 && forall i :: 0 <= i < |assignments| && assignments[i].key == key
                                && (forall j :: i < j < |assignments| ==> assignments[j].key != key) ==>
                      merged[key] == assignments[i].value
  {
    hide INHERITED, Stream, EnvMap, FirstValue, Assigned, GivesFirst;
    StreamAt(env, assignments, key);
    FirstValueIs(assignments, key);
    AssignedInMap(assignments, key);
    forall i | 0 <= i < |assignments| && assignments[i].key == key
               && (forall j :: i < j < |assignments| ==> assignments[j].key != key)
      ensures EnvMap(assignments)[key] == assignments[i].value
    {
      LastValueIs(assignments, key, i);
    }
  }

  lemma {:induction false} LastValueIs(assignments: seq<Assignment>, key: string, i: nat)
    requires i < |assignments| && assignments[i].key == key
    requires forall j :: i < j < |assignments| ==> assignments[j].key != key
    ensures key in EnvMap(assignments) && EnvMap(assignments)[key] == assignments[i].value
  {
    var n := |assignments| - 1;
    if i < n {
      LastValueIs(assignments[..n], key, i);
    }
  }
}
