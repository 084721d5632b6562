/**
Which number rounding gives, ties included, and column widths said from the cells of the table alone.
 */
module PlanRules {
  import opened Rounding
  import opened Tables
  import opened Widths

  // ----- rounding

  lemma AtMostOneApart(x: int, y: int, num: int, den: int)
    requires den > 0
    requires -den <= 2 * (x * den - num) <= den && -den <= 2 * (y * den - num) <= den
    ensures x - y <= 1
    ensures x - y == 1 ==> 2 * (x * den - num) == den && 2 * (y * den - num) == -den
  {
    assert (x - y) * den == x * den - y * den;
    if x - y >= 2 {
      MulMonotone(2, x - y, den);
    }
  }

  /** The rounded quotient is the one integer within one half of it that is even if two are. */
  lemma RoundDivIs(num: int, den: int, r: int)
    requires den > 0
    ensures RoundDiv(num, den) == r <==>
            var off := 2 * (r * den - num);
            -den <= off <= den && (off == den || off == -den ==> r % 2 == 0)
  {
    RoundDivEven(num, den);
    var q := RoundDiv(num, den);
    hide RoundDiv;
    if -den <= 2 * (r * den - num) <= den {
      AtMostOneApart(q, r, num, den);
      AtMostOneApart(r, q, num, den);
    }
  }

  lemma RoundDivEven(num: int, den: int)
    requires den > 0
    ensures var off := 2 * (RoundDiv(num, den) * den - num);
            off == den || off == -den ==> RoundDiv(num, den) % 2 == 0
  {
    var q, m := num / den, num % den;
    assert num == q * den + m;
    assert (q + 1) * den == q * den + den;
  }

  /** The same for real numbers. */
  lemma RoundRealIs(x: real, r: int)
    ensures RoundReal(x) == r <==>
            -0.5 <= r as real - x <= 0.5 && (r as real - x == 0.5 || r as real - x == -0.5 ==> r % 2 == 0)
  {
  }

  // ----- widths from cells

  /** The largest of `least` and of what the cells of column `c` count for. */
  ghost predicate IsLargest(rows: seq<seq<string>>, c: nat, count: nat -> int, least: int, w: int) {
    && least <= w
    && (forall k :: 0 <= k < |rows| && c < |rows[k]| ==> count(|rows[k][c]|) <= w)
    && (w == least || exists k :: 0 <= k < |rows| && c < |rows[k]| && count(|rows[k][c]|) == w)
  }

  /** The weights of all columns. */
  ghost predicate AreLargest(rows: seq<seq<string>>, count: nat -> int, least: int, ws: seq<int>) {
    && (forall k :: 0 <= k < |rows| ==> |rows[k]| <= |ws|)
    && (ws != [] ==> exists k :: 0 <= k < |rows| && |rows[k]| == |ws|)
    && forall c :: 0 <= c < |ws| ==> IsLargest(rows, c, count, least, ws[c])
  }

  /** In the explainer a cell counts for its length, up to 42. */
  function UpTo42(): nat -> int {
    (n: nat) => if n <= 42 then n else 42
  }

  /** In the simple converter a cell counts for its length, and for 6 at least. */
  function AtLeast6(): nat -> int {
    (n: nat) => if n >= 6 then n else 6
  }

  lemma PlanWeightsAre(rows: seq<seq<string>>)
    ensures AreLargest(rows, UpTo42(), 8, Weights(PLAN_CLAMP, PLAN_INIT, rows))
  {
    forall c: nat | c < Columns(rows)
      ensures IsLargest(rows, c, UpTo42(), 8, Weight(PLAN_CLAMP, PLAN_INIT, rows, c))
    {
      WeightIsMaximum(PLAN_CLAMP, PLAN_INIT, rows, c);
      assert forall cell: string :: PLAN_CLAMP.Of(cell) == UpTo42()(|cell|);
    }
  }

  lemma RealWeightsAre(rows: seq<seq<string>>)
    ensures AreLargest(rows, AtLeast6(), 0, Weights(REAL_CLAMP, 0, rows))
  {
    forall c: nat | c < Columns(rows)
      ensures IsLargest(rows, c, AtLeast6(), 0, Weight(REAL_CLAMP, 0, rows, c))
    {
      WeightIsMaximum(REAL_CLAMP, 0, rows, c);
      assert forall cell: string :: REAL_CLAMP.Of(cell) == AtLeast6()(|cell|);
    }
  }

  /** A width is the part of the total that the weight is of all weights, rounded to the nearest, ties to even. */
  ghost predicate IsRounded(width: int, total: int, w: int, sum: int) {
    var off := 2 * (width * sum - total * w);
    -sum <= off <= sum && (off == sum || off == -sum ==> width % 2 == 0)
  }

  /**
  The plan of the explainer from the cells: a weight per column, at least 8 and otherwise the longest cell up to 42;
  every width but the last the rounded part of the total, the last one what is left.
   */
  lemma PlanFromCells(rows: seq<seq<string>>, total: int) returns (ws: seq<int>)
    ensures AreLargest(rows, UpTo42(), 8, ws)
    ensures Plan(rows, total).None? <==> ws == []
    ensures Plan(rows, total).Some? ==>
              var plan := Plan(rows, total).value;
              && |plan| == |ws| && Sum(ws) > 0
              && (forall c :: 0 <= c < |ws| - 1 ==> IsRounded(plan[c], total, ws[c], Sum(ws)))
              && plan[|ws| - 1] == total - Sum(plan[..|ws| - 1])
  {
    hide Weight, RoundDiv, AreLargest;
    ws := Weights(PLAN_CLAMP, PLAN_INIT, rows);
    PlanWeightsAre(rows);
    if ws != [] {
      PlanWeightsInRange(rows);
      SumBounds(ws);
      var plan := Apportion(ws, total);
      forall c | 0 <= c < |ws| - 1
        ensures IsRounded(plan[c], total, ws[c], Sum(ws))
      {
        RoundDivIs(total * ws[c], Sum(ws), plan[c]);
      }
      PlanSum(ws, total);
      SumUnfold(plan);
    }
  }

  /** The width is to the total as the weight to all weights. */
  ghost predicate InProportion(width: real, total: real, w: int, sum: int) {
    width * sum as real == total * w as real
  }

  /** The widths of the simple converter from the cells: in proportion to the longest cell, of at least 6. */
  lemma RealPlanFromCells(rows: seq<seq<string>>, total: real, widths: seq<real>) returns (ws: seq<int>)
    requires RealPlan(rows, total, widths)
    ensures AreLargest(rows, AtLeast6(), 0, ws) && |widths| == |ws|
    ensures ws != [] ==> Sum(ws) > 0
    ensures forall c :: 0 <= c < |ws| ==> InProportion(widths[c], total, ws[c], Sum(ws))
  {
    hide InProportion, RealShare;
    ws := Weights(REAL_CLAMP, 0, rows);
    RealWeightsAre(rows);
    assert |widths| == |ws| && (ws != [] ==> Sum(ws) > 0 && widths == RealWidths(ws, total, Sum(ws)));
    hide *;
    forall c | 0 <= c < |ws|
      ensures InProportion(widths[c], total, ws[c], Sum(ws))
    {
      WidthAt(ws, total, Sum(ws), c);
    }
  }

  lemma WidthAt(ws: seq<int>, total: real, divisor: int, c: nat)
    requires c < |ws| && divisor > 0
    ensures InProportion(RealWidths(ws, total, divisor)[c], total, ws[c], divisor)
  {
    hide RealShare, InProportion;
    ShareTimes(ws[c], total, divisor);
  }

  lemma ShareTimes(w: int, total: real, divisor: int)
    requires divisor > 0
    ensures InProportion(RealShare(w, total, divisor), total, w, divisor)
  {
  }

  /** Columns of weights 9 and 23: half of an odd number of twips, where rounding half up would differ. */
  lemma TieAtWork()
    ensures Apportion([9, 23], USABLE_DXA)[0] == 2632
  {
    assert [9, 23][..1] == [9] && [9][..0] == [];
    assert Sum([9]) == Sum([]) + 9;
    assert Sum([9, 23]) == 32;
    RoundDivIs(9360 * 9, 32, 2632);
  }
}
