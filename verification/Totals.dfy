/** Sums over sequences, by a function of the elements. */
module Totals {

  function Total<T>(f: T -> int, s: seq<T>): int {
    if s == [] then 0 else Total(f, s[..|s| - 1]) + f(s[|s| - 1])
  }

  lemma TotalSnoc<T>(f: T -> int, s: seq<T>, x: T)
    ensures Total(f, s + [x]) == Total(f, s) + f(x)
  {
    assert (s + [x])[..|s|] == s;
  }

  lemma {:induction false} TotalUpdate<T>(f: T -> int, s: seq<T>, i: nat, x: T)
    requires i < |s|
    ensures Total(f, s[i := x]) == Total(f, s) - f(s[i]) + f(x)
  {
    var n := |s| - 1;
    if i == n {
      assert s[i := x][..n] == s[..n];
    } else {
      TotalUpdate(f, s[..n], i, x);
      assert s[i := x][..n] == s[..n][i := x];
    }
  }

  lemma {:induction false} TotalBounds<T>(f: T -> int, s: seq<T>)
    requires forall k :: 0 <= k < |s| ==> f(s[k]) >= 0
    ensures Total(f, s) >= 0
    ensures forall k :: 0 <= k < |s| ==> f(s[k]) <= Total(f, s)
  {
    if s != [] {
      TotalBounds(f, s[..|s| - 1]);
    }
  }

  lemma {:induction false} TotalSame<T>(f: T -> int, g: T -> int, s: seq<T>)
    requires forall k :: 0 <= k < |s| ==> f(s[k]) == g(s[k])
    ensures Total(f, s) == Total(g, s)
  {
    if s != [] {
      TotalSame(f, g, s[..|s| - 1]);
    }
  }

  /** Pointwise comparison of two sequences under two functions. */
  lemma {:induction false} TotalAtMost<T, U>(f: T -> int, s: seq<T>, g: U -> int, t: seq<U>)
    requires |s| == |t| && forall k :: 0 <= k < |s| ==> f(s[k]) <= g(t[k])
    ensures Total(f, s) <= Total(g, t)
  {
    if s != [] {
      TotalAtMost(f, s[..|s| - 1], g, t[..|t| - 1]);
    }
  }

  lemma {:induction false} TotalZero<T>(f: T -> int, s: seq<T>)
    requires forall k :: 0 <= k < |s| ==> f(s[k]) == 0
    ensures Total(f, s) == 0
  {
    if s != [] {
      TotalZero(f, s[..|s| - 1]);
    }
  }

  /** Elements added at the end that count for nothing, and the others replaced by ones that count the same. */
  lemma {:induction false} TotalExtends<T>(f: T -> int, s: seq<T>, t: seq<T>)
    requires |s| <= |t| && forall k :: 0 <= k < |s| ==> f(t[k]) == f(s[k])
    requires forall k :: |s| <= k < |t| ==> f(t[k]) == 0
    ensures Total(f, t) == Total(f, s)
  {
    if |s| < |t| {
      TotalExtends(f, s, t[..|t| - 1]);
    } else if s != [] {
      TotalExtends(f, s[..|s| - 1], t[..|t| - 1]);
    }
  }

  /** Where one element counts for more and none for less, and further ones for nothing less, the sum rises. */
  lemma {:induction false} TotalRises<T>(f: T -> int, s: seq<T>, t: seq<T>, r: nat)
    requires r < |s| <= |t| && forall k :: 0 <= k < |s| ==> f(s[k]) <= f(t[k])
    requires f(s[r]) < f(t[r]) && forall k :: |s| <= k < |t| ==> f(t[k]) >= 0
    ensures Total(f, s) < Total(f, t)
  {
    if |s| < |t| {
      TotalRises(f, s, t[..|t| - 1], r);
    } else if r == |s| - 1 {
      TotalAtMost(f, s[..r], f, t[..r]);
    } else {
      TotalRises(f, s[..|s| - 1], t[..|t| - 1], r);
    }
  }
}
