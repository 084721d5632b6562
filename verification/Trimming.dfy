/**
Removing characters of a class from the ends of a string: the common part of Python's `strip` with and
without an argument and of JavaScript's `trim`.
 */
module Trimming {
  type CharClass = char -> bool

  function TrimStart(p: CharClass, s: string): string {
    if s != "" && p(s[0]) then TrimStart(p, s[1..]) else s
  }

  function TrimEnd(p: CharClass, s: string): string {
    if s != "" && p(s[|s| - 1]) then TrimEnd(p, s[..|s| - 1]) else s
  }

  function Trim(p: CharClass, s: string): string {
    TrimEnd(p, TrimStart(p, s))
  }

  ghost predicate All(p: CharClass, s: string) {
    forall k :: 0 <= k < |s| ==> p(s[k])
  }

  /** No character of the class at either end. */
  predicate Bare(p: CharClass, s: string) {
    s == "" || (!p(s[0]) && !p(s[|s| - 1]))
  }

  lemma {:induction false} TrimStartSplits(p: CharClass, s: string) returns (left: string)
    ensures s == left + TrimStart(p, s)
    ensures All(p, left)
    ensures TrimStart(p, s) == "" || !p(TrimStart(p, s)[0])
  {
    if s != "" && p(s[0]) {
      var rest := TrimStartSplits(p, s[1..]);
      left := [s[0]] + rest;
      assert s == [s[0]] + s[1..];
    } else {
      left := "";
    }
  }

  lemma {:induction false} TrimEndSplits(p: CharClass, s: string) returns (right: string)
    ensures s == TrimEnd(p, s) + right
    ensures All(p, right)
    ensures TrimEnd(p, s) == "" || !p(TrimEnd(p, s)[|TrimEnd(p, s)| - 1])
  {
    if s != "" && p(s[|s| - 1]) {
      var rest := TrimEndSplits(p, s[..|s| - 1]);
      right := rest + [s[|s| - 1]];
      assert s == s[..|s| - 1] + [s[|s| - 1]];
    } else {
      right := "";
    }
  }

  /** Trimming removes exactly a prefix and a suffix of the class and leaves bare text. */
  lemma TrimSplits(p: CharClass, s: string) returns (left: string, right: string)
    ensures s == left + Trim(p, s) + right
    ensures All(p, left) && All(p, right)
    ensures Bare(p, Trim(p, s))
  {
    left := TrimStartSplits(p, s);
    right := TrimEndSplits(p, TrimStart(p, s));
    assert Trim(p, s) != "" ==> Trim(p, s)[0] == TrimStart(p, s)[0];
  }

  lemma {:induction false} TrimStartPadded(p: CharClass, left: string, s: string)
    requires All(p, left)
    ensures TrimStart(p, left + s) == TrimStart(p, s)
  {
    if left == "" {
      assert left + s == s;
    } else {
      assert (left + s)[1..] == left[1..] + s;
      TrimStartPadded(p, left[1..], s);
    }
  }

  lemma {:induction false} TrimEndPadded(p: CharClass, s: string, right: string)
    requires All(p, right)
    ensures TrimEnd(p, s + right) == TrimEnd(p, s)
  {
    if right == "" {
      assert s + right == s;
    } else {
      var n := |right| - 1;
      assert (s + right)[..|s + right| - 1] == s + right[..n];
      TrimEndPadded(p, s, right[..n]);
    }
  }

  /** The converse: bare text is recovered from any padding of it. */
  lemma TrimPadded(p: CharClass, left: string, s: string, right: string)
    requires All(p, left) && All(p, right) && Bare(p, s)
    ensures Trim(p, left + s + right) == s
  {
    assert left + s + right == left + (s + right);
    TrimStartPadded(p, left, s + right);
    if s == "" {
      assert s + right == right + "";
      TrimStartPadded(p, right, "");
    } else {
      assert TrimStart(p, s + right) == s + right;
      TrimEndPadded(p, s, right);
    }
  }

  lemma TrimBare(p: CharClass, s: string)
    requires Bare(p, s)
    ensures Trim(p, s) == s
  {
    TrimPadded(p, "", s, "");
    assert "" + s + "" == s;
  }

  /** Padding on either side makes no difference, whatever the text. */
  lemma TrimIgnoresPadding(p: CharClass, left: string, s: string, right: string)
    requires All(p, left) && All(p, right)
    ensures Trim(p, left + s + right) == Trim(p, s)
  {
    var l, r := TrimSplits(p, s);
    assert left + s + right == (left + l) + Trim(p, s) + (r + right);
    TrimPadded(p, left + l, Trim(p, s), r + right);
  }
}
