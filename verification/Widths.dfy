/**
Column widths: `width_plan` of scripts/create_deep_tech_explainer_docx.py apportions a whole number of
twips; `compute_column_widths` of scripts/markdown_to_docx.py and `set_table_geometry` of
scripts/create_thesis_testcase_docx.py work on real numbers.
 */
module Widths {
  import opened Basics
  import opened Rounding
  import opened Tables

  const USABLE_DXA := 9360

  // ----- weights: a clamped maximum per column

  /** How the length of a cell counts: `min(cap, length)`, but at least `low`. */
  datatype Clamp = Clamp(low: int, cap: Option<int>) {
    function Of(cell: string): int {
      Max(low, if cap.Some? then Min(cap.value, |cell|) else |cell|)
    }
  }

  /** The weight of column `col` after the given rows, starting from `init`. */
  function Weight(clamp: Clamp, init: int, rows: seq<seq<string>>, col: nat): int {
    if rows == [] then init
    else
      var row := rows[|rows| - 1];
      var w := Weight(clamp, init, rows[..|rows| - 1], col);
      if col < |row| then Max(w, clamp.Of(row[col])) else w
  }

  function Weights(clamp: Clamp, init: int, rows: seq<seq<string>>): (ws: seq<int>)
    ensures |ws| == Columns(rows)
  {
    seq(Columns(rows), k requires 0 <= k < Columns(rows) => Weight(clamp, init, rows, k))
  }

  /** The weight is a maximum: of `init` and of what the cells of the column count for. */
  lemma {:induction false} WeightIsMaximum(clamp: Clamp, init: int, rows: seq<seq<string>>, col: nat)
    ensures Weight(clamp, init, rows, col) >= init
    ensures forall k :: 0 <= k < |rows| && col < |rows[k]| ==> clamp.Of(rows[k][col]) <= Weight(clamp, init, rows, col)
    ensures Weight(clamp, init, rows, col) == init
         || exists k :: 0 <= k < |rows| && col < |rows[k]| && clamp.Of(rows[k][col]) == Weight(clamp, init, rows, col)
  {
    if rows != [] {
      var front := rows[..|rows| - 1];
      WeightIsMaximum(clamp, init, front, col);
      assert forall k :: 0 <= k < |front| ==> front[k] == rows[k];
    }
  }

  lemma WeightOfPermutation(clamp: Clamp, init: int, a: seq<seq<string>>, b: seq<seq<string>>, col: nat)
    requires multiset(a) == multiset(b)
    ensures Weight(clamp, init, a, col) <= Weight(clamp, init, b, col)
  {
    WeightIsMaximum(clamp, init, a, col);
    WeightIsMaximum(clamp, init, b, col);
    var w := Weight(clamp, init, a, col);
    if w != init {
      var k :| 0 <= k < |a| && col < |a[k]| && clamp.Of(a[k][col]) == w;
      assert a[k] in multiset(b);
      var j :| 0 <= j < |b| && b[j] == a[k];
    }
  }

  lemma ColumnsOfPermutation(a: seq<seq<string>>, b: seq<seq<string>>)
    requires multiset(a) == multiset(b)
    ensures Columns(a) <= Columns(b)
  {
    if a != [] {
      var k :| 0 <= k < |a| && |a[k]| == Columns(a);
      assert a[k] in multiset(b);
    }
  }

  /** The order of the rows does not matter. */
  lemma WeightsOfPermutation(clamp: Clamp, init: int, a: seq<seq<string>>, b: seq<seq<string>>)
    requires multiset(a) == multiset(b)
    ensures Weights(clamp, init, a) == Weights(clamp, init, b)
  {
    ColumnsOfPermutation(a, b);
    ColumnsOfPermutation(b, a);
    forall col | 0 <= col < Columns(a)
      ensures Weight(clamp, init, a, col) == Weight(clamp, init, b, col)
    {
      WeightOfPermutation(clamp, init, a, b, col);
      WeightOfPermutation(clamp, init, b, a, col);
    }
  }

  /** One row of the weight loop, updating the weights in place. */
  method AddRow(weights: array<int>, clamp: Clamp, row: seq<string>)
    requires |row| <= weights.Length
    modifies weights
    ensures forall j :: 0 <= j < weights.Length ==>
              weights[j] == if j < |row| then Max(old(weights[j]), clamp.Of(row[j])) else old(weights[j])
  {
    for i := 0 to |row|
      invariant forall j :: 0 <= j < weights.Length ==>
                  weights[j] == if j < i then Max(old(weights[j]), clamp.Of(row[j])) else old(weights[j])
    {
      weights[i] := Max(weights[i], clamp.Of(row[i]));
    }
  }

  /** `weights = [init] * col_count` and the loop over all rows and cells. */
  method ComputeWeights(clamp: Clamp, init: int, rows: seq<seq<string>>) returns (weights: array<int>)
    ensures fresh(weights)
    ensures weights[..] == Weights(clamp, init, rows)
  {
    var n := Columns(rows);
    weights := new int[n](_ => init);
    for k := 0 to |rows|
      invariant fresh(weights) && weights.Length == n
      invariant forall j :: 0 <= j < n ==> weights[j] == Weight(clamp, init, rows[..k], j)
    {
      assert rows[..k + 1][..k] == rows[..k];
      AddRow(weights, clamp, rows[k]);
    }
    assert rows[..|rows|] == rows;
  }

  // ----- the integer plan

  const PLAN_CLAMP := Clamp(0, Some(42))
  const PLAN_INIT := 8

  function Shares(ws: seq<int>, total: int): (r: seq<int>)
    requires Sum(ws) > 0
    ensures |r| == |ws|
  {
    seq(|ws|, k requires 0 <= k < |ws| => RoundDiv(total * ws[k], Sum(ws)))
  }

  /** Rounded shares, with what rounding left over pushed into the last one. */
  function Apportion(ws: seq<int>, total: int): (r: seq<int>)
    requires ws != [] && Sum(ws) > 0
    ensures |r| == |ws|
  {
    var shares := Shares(ws, total);
    var n := |ws|;
    shares[n - 1 := shares[n - 1] + (total - Sum(shares))]
  }

  ghost predicate PlanWeights(ws: seq<int>) {
    forall k :: 0 <= k < |ws| ==> 8 <= ws[k] <= 42
  }

  lemma {:induction false} SumBounds(ws: seq<int>)
    requires PlanWeights(ws)
    ensures 8 * |ws| <= Sum(ws) <= 42 * |ws|
  {
    if ws != [] {
      SumBounds(ws[..|ws| - 1]);
    }
  }

  lemma PlanWeightsInRange(rows: seq<seq<string>>)
    ensures PlanWeights(Weights(PLAN_CLAMP, PLAN_INIT, rows))
  {
    forall k | 0 <= k < Columns(rows)
      ensures 8 <= Weight(PLAN_CLAMP, PLAN_INIT, rows, k) <= 42
    {
      WeightIsMaximum(PLAN_CLAMP, PLAN_INIT, rows, k);
    }
  }

  /** The plan for a table; `None` where the program raises: no rows, or no cell in any row. */
  function Plan(rows: seq<seq<string>>, total: int): Option<seq<int>> {
    if Columns(rows) == 0 then None
    else
      var ws := Weights(PLAN_CLAMP, PLAN_INIT, rows);
      PlanWeightsInRange(rows);
      SumBounds(ws);
      Some(Apportion(ws, total))
  }

  /** `width_plan`. */
  method WidthPlan(rows: seq<seq<string>>, total: int) returns (plan: Option<seq<int>>)
    ensures plan == Plan(rows, total)
  {
    if Columns(rows) == 0 {
      return None;
    }
    var weights := ComputeWeights(PLAN_CLAMP, PLAN_INIT, rows);
    var ws := weights[..];
    PlanWeightsInRange(rows);
    SumBounds(ws);
    var weightSum := Sum(ws);
    var result := seq(|ws|, k requires 0 <= k < |ws| => RoundDiv(total * ws[k], weightSum));
    assert result == Shares(ws, total);
    result := result[|ws| - 1 := result[|ws| - 1] + (total - Sum(result))];
    return Some(result);
  }

  lemma SumButLast(s: seq<int>, x: int)
    requires s != []
    ensures Sum(s[|s| - 1 := x]) == Sum(s) - s[|s| - 1] + x
  {
    var t := s[|s| - 1 := x];
    assert t[..|t| - 1] == s[..|s| - 1];
  }

  /** The widths add up to the total exactly. */
  lemma PlanSum(ws: seq<int>, total: int)
    requires ws != [] && Sum(ws) > 0
    ensures Sum(Apportion(ws, total)) == total
  {
    var shares := Shares(ws, total);
    SumButLast(shares, shares[|ws| - 1] + (total - Sum(shares)));
  }

  /** One more share adds at most half a unit to the error. */
  lemma ErrorStep(n: nat, w: int, total: int, a: int, b: int, c: int, d: int)
    requires -(n * w) <= 2 * (a * w - total * c) <= n * w
    requires -w <= 2 * (b * w - total * d) <= w
    ensures -((n + 1) * w) <= 2 * ((a + b) * w - total * (c + d)) <= (n + 1) * w
  {
    assert (a + b) * w == a * w + b * w;
    assert total * (c + d) == total * c + total * d;
    assert (n + 1) * w == n * w + w;
  }

  /** The sum of the rounding errors, multiplied out by twice the sum of the weights. */
  lemma {:induction false} ShareErrors(ws: seq<int>, total: int, weightSum: int, shares: seq<int>, n: nat)
    requires n <= |ws| == |shares| && weightSum > 0
    requires forall k :: 0 <= k < |ws| ==> shares[k] == RoundDiv(total * ws[k], weightSum)
    ensures -(n * weightSum) <= 2 * (Sum(shares[..n]) * weightSum - total * Sum(ws[..n])) <= n * weightSum
  {
    if n == 0 {
      assert shares[..0] == [] && ws[..0] == [];
    } else {
      hide RoundDiv;
      ShareErrors(ws, total, weightSum, shares, n - 1);
      assert shares[..n] == shares[..n - 1] + [shares[n - 1]];
      assert ws[..n] == ws[..n - 1] + [ws[n - 1]];
      SumSnoc(shares[..n - 1], shares[n - 1]);
      SumSnoc(ws[..n - 1], ws[n - 1]);
      ErrorStep(n - 1, weightSum, total, Sum(shares[..n - 1]), shares[n - 1], Sum(ws[..n - 1]), ws[n - 1]);
    }
  }

  /**
  Every width but the last is within one half of its exact share; the last, which takes up all the
  rounding, within (n - 1) / 2 of its own. (Multiplied out by twice the sum of the weights.)
   */
  lemma PlanNear(ws: seq<int>, total: int, k: nat)
    requires k < |ws| && Sum(ws) > 0
    ensures var error := 2 * (Apportion(ws, total)[k] * Sum(ws) - total * ws[k]);
            var bound := if k < |ws| - 1 then Sum(ws) else (|ws| - 1) * Sum(ws);
            -bound <= error <= bound
  {
    hide *;
    ApportionAt(ws, total, k);
    if k == |ws| - 1 {
      var shares, w, n := Shares(ws, total), Sum(ws), |ws|;
      ShareErrors(ws, total, w, shares, n - 1);
      ResidueError(n - 1, w, total, Sum(shares[..n - 1]), Sum(ws[..n - 1]), ws[n - 1]);
    }
  }

  lemma ApportionAt(ws: seq<int>, total: int, k: nat)
    requires k < |ws| && Sum(ws) > 0
    ensures forall j :: 0 <= j < |ws| ==> Shares(ws, total)[j] == RoundDiv(total * ws[j], Sum(ws))
    ensures Sum(ws) == Sum(ws[..|ws| - 1]) + ws[|ws| - 1]
    ensures Apportion(ws, total)[k]
         == if k < |ws| - 1 then RoundDiv(total * ws[k], Sum(ws)) else total - Sum(Shares(ws, total)[..k])
  {
    hide RoundDiv, Sum;
    SumUnfold(ws);
    SumUnfold(Shares(ws, total));
  }

  lemma SumUnfold(s: seq<int>)
    requires s != []
    ensures Sum(s) == Sum(s[..|s| - 1]) + s[|s| - 1]
  {
  }

  lemma ResidueError(n: nat, w: int, total: int, others: int, weights: int, last: int)
    requires w == weights + last
    requires -(n * w) <= 2 * (others * w - total * weights) <= n * w
    ensures -(n * w) <= 2 * ((total - others) * w - total * last) <= n * w
  {
    assert (total - others) * w == total * w - others * w;
    assert total * w == total * weights + total * last;
  }

  lemma LastWeightBound(ws: seq<int>)
    requires ws != [] && PlanWeights(ws)
    ensures Sum(ws) <= ws[|ws| - 1] + 42 * (|ws| - 1)
  {
    SumBounds(ws[..|ws| - 1]);
  }

  lemma PositiveArithmetic(n: int, w: int, last: int, width: int)
    requires 1 <= n <= 60 && 8 <= last <= 42 && 0 < w <= last + 42 * (n - 1)
    requires 2 * (width * w - 9360 * last) >= -((n - 1) * w)
    ensures width > 0
  {
    MulMonotone(n - 1, 59, w);
    var p := width * w;
    assert 2 * p >= 18720 * last - 59 * w > 0;
    PositiveFactor(width, w);
  }

  lemma PositiveFactor(x: int, y: int)
    requires y > 0 && x * y > 0
    ensures x > 0
  {
  }

  /** At the usable width of the page, every column of a plan of at most 60 columns is visible. */
  lemma PlanPositive(ws: seq<int>, k: nat)
    requires k < |ws| <= 60 && PlanWeights(ws)
    ensures Sum(ws) > 0
    ensures Apportion(ws, USABLE_DXA)[k] > 0
  {
    SumBounds(ws);
    PlanNear(ws, USABLE_DXA, k);
    var n, w := |ws|, Sum(ws);
    var width := Apportion(ws, USABLE_DXA)[k];
    if k == n - 1 {
      LastWeightBound(ws);
      PositiveArithmetic(n, w, ws[k], width);
    } else {
      assert 2 * (width * w) >= 18720 * 8 - w > 0;
      PositiveFactor(width, w);
    }
  }

  function Repeat(x: int, n: nat): seq<int> {
    seq(n, _ => x)
  }

  lemma {:induction false} SumRepeat(x: int, n: nat)
    ensures Sum(Repeat(x, n)) == x * n
  {
    if n > 0 {
      SumRepeat(x, n - 1);
      assert Repeat(x, n)[..n - 1] == Repeat(x, n - 1);
    }
  }

  /** Among the columns before the last, a heavier one is never narrower. */
  lemma PlanMonotone(ws: seq<int>, total: nat, i: nat, j: nat)
    requires Sum(ws) > 0 && i < |ws| - 1 && j < |ws| - 1 && ws[i] <= ws[j]
    ensures Apportion(ws, total)[i] <= Apportion(ws, total)[j]
  {
    MulMonotone(ws[i], ws[j], total);
    RoundDivMonotone(total * ws[i], total * ws[j], Sum(ws));
  }

  /** The plan of a table in one statement: exact total, bounded errors, and no dependence on row order. */
  lemma PlanOfTable(rows: seq<seq<string>>, total: int)
    ensures Plan(rows, total).None? <==> forall k :: 0 <= k < |rows| ==> rows[k] == []
    ensures Plan(rows, total).Some? ==>
              |Plan(rows, total).value| == Columns(rows) && Sum(Plan(rows, total).value) == total
    ensures forall other :: multiset(other) == multiset(rows) ==> Plan(other, total) == Plan(rows, total)
  {
    forall other | multiset(other) == multiset(rows)
      ensures Plan(other, total) == Plan(rows, total)
    {
      ColumnsOfPermutation(rows, other);
      ColumnsOfPermutation(other, rows);
      WeightsOfPermutation(PLAN_CLAMP, PLAN_INIT, rows, other);
    }
    if Columns(rows) > 0 {
      var ws := Weights(PLAN_CLAMP, PLAN_INIT, rows);
      PlanWeightsInRange(rows);
      SumBounds(ws);
      PlanSum(ws, total);
    }
  }

  // ----- the widths that the table really gets

  lemma {:induction false} SumPositive(s: seq<int>)
    requires forall k :: 0 <= k < |s| ==> s[k] > 0
    ensures s == [] || Sum(s) > 0
  {
    if |s| > 1 {
      SumPositive(s[..|s| - 1]);
    }
  }

  lemma {:induction false} SumSplit(s: seq<int>, n: nat)
    requires n <= |s|
    ensures Sum(s) == Sum(s[..n]) + Sum(s[n..])
  {
    if n < |s| {
      SumSplit(s[..|s| - 1], n);
      assert s[..|s| - 1][..n] == s[..n];
      assert s[n..][..|s| - n - 1] == s[..|s| - 1][n..];
    } else {
      assert s[..n] == s && s[n..] == [];
    }
  }

  /**
  `render_table` starts with a column per header cell but plans for the longest row: with at most 60 planned
  columns the header cells fill the page exactly if and only if no row is longer than the header.
   */
  lemma UsedWidths(rows: seq<seq<string>>)
    requires rows != [] && rows[0] != [] && Columns(rows) <= 60
    ensures Plan(rows, USABLE_DXA).Some?
    ensures Sum(Plan(rows, USABLE_DXA).value[..|rows[0]|]) == USABLE_DXA
       <==> forall k :: 0 <= k < |rows| ==> |rows[k]| <= |rows[0]|
  {
    var ws := Weights(PLAN_CLAMP, PLAN_INIT, rows);
    PlanWeightsInRange(rows);
    SumBounds(ws);
    PlanSum(ws, USABLE_DXA);
    var plan := Apportion(ws, USABLE_DXA);
    var h := |rows[0]|;
    forall k | 0 <= k < |plan|
      ensures plan[k] > 0
    {
      PlanPositive(ws, k);
    }
    SumSplit(plan, h);
    SumPositive(plan[h..]);
    var longest :| 0 <= longest < |rows| && |rows[longest]| == Columns(rows);
    if h == Columns(rows) {
      assert plan[h..] == [];
    }
  }

  // ----- the real-valued widths

  const REAL_CLAMP := Clamp(6, None)

  function SumReal(s: seq<real>): real {
    if s == [] then 0.0 else SumReal(s[..|s| - 1]) + s[|s| - 1]
  }

  function RealShare(w: int, total: real, divisor: int): real
    requires divisor != 0
  {
    total * w as real / divisor as real
  }

  function RealWidths(ws: seq<int>, total: real, divisor: int): (r: seq<real>)
    requires divisor != 0 || ws == []
    ensures |r| == |ws|
  {
    seq(|ws|, k requires 0 <= k < |ws| => RealShare(ws[k], total, divisor))
  }

  lemma ShareOfSum(a: int, b: int, total: real, divisor: int)
    requires divisor != 0
    ensures RealShare(a + b, total, divisor) == RealShare(a, total, divisor) + RealShare(b, total, divisor)
  {
    assert total * (a + b) as real == total * a as real + total * b as real;
  }

  lemma {:induction false} RealSum(ws: seq<int>, total: real, divisor: int)
    requires divisor != 0
    ensures SumReal(RealWidths(ws, total, divisor)) == RealShare(Sum(ws), total, divisor)
  {
    if ws != [] {
      hide RealShare;
      var n := |ws| - 1;
      var front := ws[..n];
      RealSum(front, total, divisor);
      assert RealWidths(ws, total, divisor)[..n] == RealWidths(front, total, divisor);
      ShareOfSum(Sum(front), ws[n], total, divisor);
    } else {
      assert RealShare(0, total, divisor) == 0.0;
    }
  }

  lemma RealWeightsPositive(rows: seq<seq<string>>, col: nat)
    requires col < Columns(rows)
    ensures Weight(REAL_CLAMP, 0, rows, col) >= 6
  {
    var k :| 0 <= k < |rows| && |rows[k]| == Columns(rows);
    WeightIsMaximum(REAL_CLAMP, 0, rows, col);
    assert REAL_CLAMP.Of(rows[k][col]) >= 6;
  }

  /** What the real-valued widths are to be: proportional to the weights, positive, and exactly the total. */
  ghost predicate RealPlan(rows: seq<seq<string>>, total: real, widths: seq<real>) {
    var ws := Weights(REAL_CLAMP, 0, rows);
    && |widths| == |ws|
    && (total > 0.0 ==> forall k :: 0 <= k < |ws| ==> widths[k] > 0.0)
    && (ws != [] ==> Sum(ws) > 0 && widths == RealWidths(ws, total, Sum(ws)) && SumReal(widths) == total)
  }

  /** The divisor `sum(weights) or col_count` is always the sum, unless there are no columns to divide for. */
  lemma RealPlanHolds(rows: seq<seq<string>>, total: real)
    ensures var ws := Weights(REAL_CLAMP, 0, rows);
            if ws == [] then Sum(ws) == 0 && RealPlan(rows, total, [])
            else Sum(ws) > 0 && RealPlan(rows, total, RealWidths(ws, total, Sum(ws)))
  {
    hide RealShare;
    var ws := Weights(REAL_CLAMP, 0, rows);
    forall k | 0 <= k < |ws|
      ensures ws[k] >= 6
    {
      RealWeightsPositive(rows, k);
    }
    SumPositive(ws);
    if ws != [] {
      RealSum(ws, total, Sum(ws));
      WholeShare(Sum(ws), total);
      forall k | 0 <= k < |ws| && total > 0.0
        ensures RealShare(ws[k], total, Sum(ws)) > 0.0
      {
        SharePositive(total, ws[k], Sum(ws));
      }
    }
  }

  lemma WholeShare(w: int, total: real)
    requires w != 0
    ensures RealShare(w, total, w) == total
  {
  }

  lemma SharePositive(total: real, w: int, divisor: int)
    requires total > 0.0 && w > 0 && divisor > 0
    ensures RealShare(w, total, divisor) > 0.0
  {
    assert total * w as real > 0.0;
  }

  /** `compute_column_widths`; `None` where the program raises, for no rows at all. */
  method ComputeColumnWidths(rows: seq<seq<string>>, total: real) returns (widths: Option<seq<real>>)
    ensures widths.None? <==> rows == []
    ensures widths.Some? ==> RealPlan(rows, total, widths.value)
  {
    if rows == [] {
      return None;
    }
    var weights := ComputeWeights(REAL_CLAMP, 0, rows);
    var ws := weights[..];
    RealPlanHolds(rows, total);
    var divisor := if Sum(ws) != 0 then Sum(ws) else Columns(rows);
    return Some(RealWidths(ws, total, divisor));
  }

  // ----- independent rounding

  function Twips(cm: real): int {
    RoundReal(cm / 2.54 * 1440.0)
  }

  function GridColumns(widths: seq<real>): (grid: seq<int>)
    ensures |grid| == |widths|
  {
    seq(|widths|, k requires 0 <= k < |widths| => Twips(widths[k]))
  }

  lemma {:induction false} GridError(widths: seq<real>)
    ensures var exact := SumReal(widths) / 2.54 * 1440.0;
            -0.5 * |widths| as real <= Sum(GridColumns(widths)) as real - exact <= 0.5 * |widths| as real
  {
    if widths != [] {
      var front, last := widths[..|widths| - 1], widths[|widths| - 1];
      GridError(front);
      assert GridColumns(widths)[..|widths| - 1] == GridColumns(front);
      assert (SumReal(front) + last) / 2.54 * 1440.0 == SumReal(front) / 2.54 * 1440.0 + last / 2.54 * 1440.0;
    }
  }

  /**
  The part of `set_table_geometry` that rounds: the declared table width from the sum, each grid column
  on its own, and each cell like its column. The declared width and the grid differ by at most
  (n + 1) / 2 twips.
   */
  method SetTableGeometry(widths: seq<real>, rowLengths: seq<nat>)
      returns (declared: int, grid: seq<int>, cells: seq<seq<int>>)
    requires forall r :: 0 <= r < |rowLengths| ==> rowLengths[r] <= |widths|
    ensures declared == Twips(SumReal(widths))
    ensures grid == GridColumns(widths)
    ensures -(|widths| + 1) <= 2 * (declared - Sum(grid)) <= |widths| + 1
    ensures |cells| == |rowLengths|
    ensures forall r :: 0 <= r < |cells| ==> cells[r] == grid[..rowLengths[r]]
  {
    declared := Twips(SumReal(widths));
    grid := [];
    for i := 0 to |widths|
      invariant grid == GridColumns(widths)[..i]
    {
      grid := grid + [RoundReal(widths[i] / 2.54 * 1440.0)];
    }
    GridError(widths);
    cells := [];
    for r := 0 to |rowLengths|
      invariant |cells| == r
      invariant forall q :: 0 <= q < r ==> cells[q] == grid[..rowLengths[q]]
    {
      var row: seq<int> := [];
      for i := 0 to rowLengths[r]
        invariant row == grid[..i]
      {
        row := row + [RoundReal(widths[i] / 2.54 * 1440.0)];
      }
      cells := cells + [row];
    }
  }
}
