/**
The limit of `width_plan`: at the usable width of the page every table of n columns gets visible columns if
and only if n is at most 60. For every larger n there is a header that starves a column.
 */
module WidthLimits {
  import opened Basics
  import opened Rounding
  import opened Tables
  import opened Widths

  // ----- tables with given weights

  function Letters(n: nat): string {
    seq(n, _ => 'x')
  }

  /** A header whose cells have the given lengths. */
  function HeaderOf(ws: seq<int>): (row: seq<string>)
    requires PlanWeights(ws)
    ensures |row| == |ws|
  {
    seq(|ws|, k requires 0 <= k < |ws| => Letters(ws[k]))
  }

  lemma {:induction false} HeaderPlan(ws: seq<int>, total: int)
    requires ws != [] && PlanWeights(ws)
    ensures IsRow(HeaderOf(ws)) && Columns([HeaderOf(ws)]) == |ws| && Sum(ws) > 0
    ensures Plan([HeaderOf(ws)], total) == Some(Apportion(ws, total))
  {
    var row := HeaderOf(ws);
    SumBounds(ws);
    forall k | 0 <= k < |ws|
      ensures Weight(PLAN_CLAMP, PLAN_INIT, [row], k) == ws[k] && IsCell(row[k])
    {
      assert Weight(PLAN_CLAMP, PLAN_INIT, [], k) == PLAN_INIT;
    }
    assert Weights(PLAN_CLAMP, PLAN_INIT, [row]) == ws;
  }

  // ----- one cell of a given length between many long and many short ones

  /** `x` cells of length 42, one of length `c`, and `y + 1` of length 8. */
  function Mixed(x: nat, c: int, y: nat): seq<int> {
    Repeat(42, x) + [c] + Repeat(8, y) + [8]
  }

  function MixedSum(x: nat, c: int, y: nat): int { 42 * x + c + 8 * y + 8 }

  /** What rounding gives to the columns before the last. */
  function Given(x: nat, c: nat, y: nat): int {
    var w := MixedSum(x, c, y);
    x * RoundDiv(9360 * 42, w) + RoundDiv(9360 * c, w) + y * RoundDiv(9360 * 8, w)
  }

  lemma SumAppend(a: seq<int>, b: seq<int>)
    ensures Sum(a + b) == Sum(a) + Sum(b)
  {
    SumSplit(a + b, |a|);
  }

  lemma MixedTotal(x: nat, c: int, y: nat)
    ensures Sum(Mixed(x, c, y)) == MixedSum(x, c, y)
  {
    SumRepeat(42, x);
    SumRepeat(8, y);
    SumAppend(Repeat(42, x), [c]);
    SumAppend(Repeat(42, x) + [c], Repeat(8, y));
    SumSnoc(Repeat(42, x) + [c] + Repeat(8, y), 8);
    assert Sum([c]) == c by { SumSnoc([], c); assert [] + [c] == [c]; }
  }

  lemma LastOfMixed(x: nat, c: int, y: nat)
    requires 8 <= c <= 42
    ensures var ws := Mixed(x, c, y);
            PlanWeights(ws) && Sum(ws) > 0 && Apportion(ws, USABLE_DXA)[|ws| - 1] == USABLE_DXA - Given(x, c, y)
  {
    hide RoundDiv;
    var ws := Mixed(x, c, y);
    var w := MixedSum(x, c, y);
    MixedTotal(x, c, y);
    var a, b, d := RoundDiv(9360 * 42, w), RoundDiv(9360 * c, w), RoundDiv(9360 * 8, w);
    var n := |ws| - 1;
    ApportionAt(ws, USABLE_DXA, n);
    var front := Shares(ws, USABLE_DXA)[..n];
    assert front == Repeat(a, x) + [b] + Repeat(d, y);
    SumAppend(Repeat(a, x) + [b], Repeat(d, y));
    SumAppend(Repeat(a, x), [b]);
    SumRepeat(a, x);
    SumRepeat(d, y);
    assert Sum([b]) == b by { SumSnoc([], b); assert [] + [b] == [b]; }
  }

  /** A table of `n` columns one of which is not visible. */
  ghost predicate Starves(n: nat) {
    exists rows: seq<seq<string>> :: StarvesIn(rows, n)
  }

  ghost predicate StarvesIn(rows: seq<seq<string>>, n: nat) {
    && rows != [] && (forall k :: 0 <= k < |rows| ==> IsRow(rows[k])) && Columns(rows) == n
    && Plan(rows, USABLE_DXA).Some?
    && exists k :: 0 <= k < |Plan(rows, USABLE_DXA).value| && Plan(rows, USABLE_DXA).value[k] <= 0
  }

  lemma HeaderStarves(ws: seq<int>, k: nat)
    requires PlanWeights(ws) && k < |ws| && Sum(ws) > 0 && Apportion(ws, USABLE_DXA)[k] <= 0
    ensures StarvesIn([HeaderOf(ws)], |ws|)
  {
    hide Apportion, Plan, Columns, IsRow, HeaderOf;
    HeaderPlan(ws, USABLE_DXA);
  }

  lemma MixedStarves(x: nat, c: int, y: nat)
    requires 8 <= c <= 42 && Given(x, c, y) >= USABLE_DXA
    ensures Starves(x + y + 2)
  {
    hide Given, Apportion, StarvesIn;
    LastOfMixed(x, c, y);
    HeaderStarves(Mixed(x, c, y), x + y + 1);
  }

  // ----- tables that starve their last column

  lemma {:induction false} RoundsUpTo(num: int, den: int, a: int)
    requires den > 0 && (2 * a - 1) * den < 2 * num
    ensures a <= RoundDiv(num, den)
  {
    var r := RoundDiv(num, den);
    hide RoundDiv;
    if r < a {
      assert (2 * r + 1) * den <= (2 * a - 1) * den by { MulMonotone(2 * r + 1, 2 * a - 1, den); }
    }
  }

  /** Long cells that round up to `a`, the odd one to `b` and short ones to `d` leave nothing for the last. */
  lemma Certified(x: nat, c: int, y: nat, a: nat, b: nat, d: nat)
    requires 8 <= c <= 42
    requires (2 * a - 1) * MixedSum(x, c, y) < 2 * 9360 * 42
    requires (2 * b - 1) * MixedSum(x, c, y) < 2 * 9360 * c
    requires (2 * d - 1) * MixedSum(x, c, y) < 2 * 9360 * 8
    requires x * a + b + y * d >= 9360
    ensures Starves(x + y + 2)
  {
    hide RoundDiv, Starves;
    var w := MixedSum(x, c, y);
    RoundsUpTo(9360 * 42, w, a);
    RoundsUpTo(9360 * c, w, b);
    RoundsUpTo(9360 * 8, w, d);
    MulMonotone(a, RoundDiv(9360 * 42, w), x);
    MulMonotone(d, RoundDiv(9360 * 8, w), y);
    MixedStarves(x, c, y);
  }

  /** Tables whose weights are tuned so that the roundings add up. */
  lemma FewColumns(n: nat)
    requires 61 <= n <= 95
    ensures Starves(n)
  {
    hide Starves;
    match n
    case 61 => Certified(59, 42, 0, 156, 156, 0);
    case 62 => Certified(60, 33, 0, 154, 121, 0);
    case 63 => Certified(61, 42, 0, 151, 151, 0);
    case 64 => Certified(62, 35, 0, 149, 124, 0);
    case 65 => Certified(63, 29, 0, 147, 101, 0);
    case 66 => Certified(64, 42, 0, 144, 144, 0);
    case 67 => Certified(65, 40, 0, 142, 135, 0);
    case 68 => Certified(66, 38, 0, 140, 126, 0);
    case 69 => Certified(67, 37, 0, 138, 121, 0);
    case 70 => Certified(68, 37, 0, 136, 119, 0);
    case 71 => Certified(69, 38, 0, 134, 121, 0);
    case 72 => Certified(70, 41, 0, 132, 128, 0);
    case 73 => Certified(71, 42, 0, 130, 130, 0);
    case 74 => Certified(72, 27, 0, 129, 83, 0);
    case 75 => Certified(73, 33, 0, 127, 99, 0);
    case 76 => Certified(74, 41, 0, 125, 122, 0);
    case 77 => Certified(75, 25, 0, 124, 74, 0);
    case 78 => Certified(76, 35, 0, 122, 101, 0);
    case 79 => Certified(77, 42, 0, 120, 120, 0);
    case 80 => Certified(78, 33, 0, 119, 93, 0);
    case 81 => Certified(79, 42, 0, 117, 117, 0);
    case 82 => Certified(80, 35, 0, 116, 96, 0);
    case 83 => Certified(81, 23, 0, 115, 63, 0);
    case 84 => Certified(82, 42, 0, 113, 113, 0);
    case 85 => Certified(83, 31, 0, 112, 82, 0);
    case 86 => Certified(84, 21, 0, 111, 55, 0);
    case 87 => Certified(85, 42, 0, 109, 109, 0);
    case 88 => Certified(86, 36, 0, 108, 92, 0);
    case 89 => Certified(87, 29, 0, 107, 74, 0);
    case 90 => Certified(88, 22, 0, 106, 55, 0);
    case 91 => Certified(89, 42, 0, 104, 104, 0);
    case 92 => Certified(90, 42, 0, 103, 103, 0);
    case 93 => Certified(91, 42, 0, 102, 102, 0);
    case 94 => Certified(92, 39, 0, 101, 93, 0);
    case 95 => Certified(93, 36, 0, 100, 85, 0);
  }

  lemma MoreColumns(n: nat)
    requires 96 <= n <= 130
    ensures Starves(n)
  {
    hide Starves;
    match n
    case 96 => Certified(94, 35, 0, 99, 82, 0);
    case 97 => Certified(95, 33, 0, 98, 77, 0);
    case 98 => Certified(96, 33, 0, 97, 76, 0);
    case 99 => Certified(97, 34, 0, 96, 77, 0);
    case 100 => Certified(98, 35, 0, 95, 79, 0);
    case 101 => Certified(99, 38, 0, 94, 85, 0);
    case 102 => Certified(100, 41, 0, 93, 90, 0);
    case 103 => Certified(101, 42, 0, 92, 92, 0);
    case 104 => Certified(102, 42, 0, 91, 91, 0);
    case 105 => Certified(103, 42, 0, 90, 90, 0);
    case 106 => Certified(104, 16, 0, 90, 34, 0);
    case 107 => Certified(105, 24, 0, 89, 51, 0);
    case 108 => Certified(106, 32, 0, 88, 67, 0);
    case 109 => Certified(107, 42, 0, 87, 87, 0);
    case 110 => Certified(108, 42, 0, 86, 86, 0);
    case 111 => Certified(109, 11, 0, 86, 22, 0);
    case 112 => Certified(110, 24, 0, 85, 48, 0);
    case 113 => Certified(111, 38, 0, 84, 76, 0);
    case 114 => Certified(112, 42, 0, 83, 83, 0);
    case 115 => Certified(113, 11, 0, 83, 22, 0);
    case 116 => Certified(114, 27, 0, 82, 52, 0);
    case 117 => Certified(115, 42, 0, 81, 81, 0);
    case 118 => Certified(116, 42, 0, 80, 80, 0);
    case 119 => Certified(117, 22, 0, 80, 42, 0);
    case 120 => Certified(118, 42, 0, 79, 79, 0);
    case 121 => Certified(119, 42, 0, 78, 78, 0);
    case 122 => Certified(120, 24, 0, 78, 44, 0);
    case 123 => Certified(121, 42, 0, 77, 77, 0);
    case 124 => Certified(121, 40, 1, 77, 73, 15);
    case 125 => Certified(123, 32, 0, 76, 58, 0);
    case 126 => Certified(124, 42, 0, 75, 75, 0);
    case 127 => Certified(125, 18, 0, 75, 32, 0);
    case 128 => Certified(126, 42, 0, 74, 74, 0);
    case 129 => Certified(126, 40, 1, 74, 70, 14);
    case 130 => Certified(128, 38, 0, 73, 66, 0);
  }

  /** How many cells of length 42 use up the page if each gets `k` twips. */
  function Needed(k: nat): nat
    requires k > 0
  {
    (9360 + k - 1) / k
  }

  /** A table of `n` columns has that many, and short cells enough for all of them to round up to `k`. */
  predicate Fits(n: nat, k: nat)
    requires k > 0
  {
    Needed(k) < n && (2 * k - 1) * (34 * Needed(k) + 8 * n) < 786240
  }

  lemma NeededBounds(k: nat)
    requires k > 0
    ensures 9360 <= Needed(k) * k < 9360 + k
  {
    var num := 9360 + k - 1;
    assert num == (num / k) * k + num % k;
  }

  lemma FitStarves(n: nat, k: nat)
    requires k > 0 && Fits(n, k)
    ensures Starves(n)
  {
    NeededBounds(k);
    hide Starves, Needed;
    var m := Needed(k);
    assert m > 0;
    var x, y := m - 1, n - m - 1;
    assert MixedSum(x, 42, y) == 34 * m + 8 * n;
    assert x * k + k == m * k;
    assert y * 0 == 0;
    Certified(x, 42, y, k, k, 0);
  }

  lemma {:induction false} NeededIs(k: nat, m: nat)
    requires k > 0 && 9360 <= m * k < 9360 + k
    ensures Needed(k) == m
  {
    var q := Needed(k);
    NeededBounds(k);
    hide *;
    assert (m - q) * k == m * k - q * k && (q - m) * k == q * k - m * k;
    SmallMultiple(m - q, k);
    SmallMultiple(q - m, k);
  }

  /** The tables for `k` twips reach up to those for one twip less. */
  lemma {:induction false} Reaches(k: nat, m: nat, next: nat)
    requires k > 1 && 9360 <= m * k < 9360 + k && 9360 <= next * (k - 1) < 9360 + k - 1
    requires m < next && (2 * k - 1) * (34 * m + 8 * next) < 786240
    ensures Fits(Needed(k - 1), k)
  {
    hide Needed;
    NeededIs(k, m);
    NeededIs(k - 1, next);
  }

  lemma {:induction false} TwipsFrom2(k: nat)
    requires 2 <= k <= 19
    ensures Fits(Needed(k - 1), k)
  {
    hide *;
    match k
    case 2 => Reaches(2, 4680, 9360);
    case 3 => Reaches(3, 3120, 4680);
    case 4 => Reaches(4, 2340, 3120);
    case 5 => Reaches(5, 1872, 2340);
    case 6 => Reaches(6, 1560, 1872);
    case 7 => Reaches(7, 1338, 1560);
    case 8 => Reaches(8, 1170, 1338);
    case 9 => Reaches(9, 1040, 1170);
    case 10 => Reaches(10, 936, 1040);
    case 11 => Reaches(11, 851, 936);
    case 12 => Reaches(12, 780, 851);
    case 13 => Reaches(13, 720, 780);
    case 14 => Reaches(14, 669, 720);
    case 15 => Reaches(15, 624, 669);
    case 16 => Reaches(16, 585, 624);
    case 17 => Reaches(17, 551, 585);
    case 18 => Reaches(18, 520, 551);
    case 19 => Reaches(19, 493, 520);
  }

  lemma {:induction false} TwipsFrom20(k: nat)
    requires 20 <= k <= 37
    ensures Fits(Needed(k - 1), k)
  {
    hide *;
    match k
    case 20 => Reaches(20, 468, 493);
    case 21 => Reaches(21, 446, 468);
    case 22 => Reaches(22, 426, 446);
    case 23 => Reaches(23, 407, 426);
    case 24 => Reaches(24, 390, 407);
    case 25 => Reaches(25, 375, 390);
    case 26 => Reaches(26, 360, 375);
    case 27 => Reaches(27, 347, 360);
    case 28 => Reaches(28, 335, 347);
    case 29 => Reaches(29, 323, 335);
    case 30 => Reaches(30, 312, 323);
    case 31 => Reaches(31, 302, 312);
    case 32 => Reaches(32, 293, 302);
    case 33 => Reaches(33, 284, 293);
    case 34 => Reaches(34, 276, 284);
    case 35 => Reaches(35, 268, 276);
    case 36 => Reaches(36, 260, 268);
    case 37 => Reaches(37, 253, 260);
  }

  lemma {:induction false} TwipsFrom38(k: nat)
    requires 38 <= k <= 55
    ensures Fits(Needed(k - 1), k)
  {
    hide *;
    match k
    case 38 => Reaches(38, 247, 253);
    case 39 => Reaches(39, 240, 247);
    case 40 => Reaches(40, 234, 240);
    case 41 => Reaches(41, 229, 234);
    case 42 => Reaches(42, 223, 229);
    case 43 => Reaches(43, 218, 223);
    case 44 => Reaches(44, 213, 218);
    case 45 => Reaches(45, 208, 213);
    case 46 => Reaches(46, 204, 208);
    case 47 => Reaches(47, 200, 204);
    case 48 => Reaches(48, 195, 200);
    case 49 => Reaches(49, 192, 195);
    case 50 => Reaches(50, 188, 192);
    case 51 => Reaches(51, 184, 188);
    case 52 => Reaches(52, 180, 184);
    case 53 => Reaches(53, 177, 180);
    case 54 => Reaches(54, 174, 177);
    case 55 => Reaches(55, 171, 174);
  }

  lemma {:induction false} TwipsFrom56(k: nat)
    requires 56 <= k <= 72
    ensures Fits(Needed(k - 1), k)
  {
    hide *;
    match k
    case 56 => Reaches(56, 168, 171);
    case 57 => Reaches(57, 165, 168);
    case 58 => Reaches(58, 162, 165);
    case 59 => Reaches(59, 159, 162);
    case 60 => Reaches(60, 156, 159);
    case 61 => Reaches(61, 154, 156);
    case 62 => Reaches(62, 151, 154);
    case 63 => Reaches(63, 149, 151);
    case 64 => Reaches(64, 147, 149);
    case 65 => Reaches(65, 144, 147);
    case 66 => Reaches(66, 142, 144);
    case 67 => Reaches(67, 140, 142);
    case 68 => Reaches(68, 138, 140);
    case 69 => Reaches(69, 136, 138);
    case 70 => Reaches(70, 134, 136);
    case 71 => Reaches(71, 132, 134);
    case 72 => Reaches(72, 130, 132);
  }

  lemma {:induction false} ManyColumns(n: nat, k: nat)
    requires 0 < k <= 72 && Needed(k) < n <= 9360
    ensures Starves(n)
    decreases k
  {
    hide Starves;
    if k > 1 {
      if Needed(k - 1) < n {
        ManyColumns(n, k - 1);
      } else {
        if k < 20 {
          TwipsFrom2(k);
        } else if k < 38 {
          TwipsFrom20(k);
        } else if k < 56 {
          TwipsFrom38(k);
        } else {
          TwipsFrom56(k);
        }
        MulMonotone(34 * Needed(k) + 8 * n, 34 * Needed(k) + 8 * Needed(k - 1), 2 * k - 1);
        FitStarves(n, k);
      }
    }
  }

  lemma ShortFirst(n: nat)
    requires n > 1
    ensures var ws := [8] + Repeat(42, n - 1);
            && Sum(ws) == 42 * n - 34
            && Apportion(ws, USABLE_DXA)[0] == RoundDiv(9360 * 8, Sum(ws))
  {
    hide RoundDiv;
    var ws := [8] + Repeat(42, n - 1);
    SumAppend([8], Repeat(42, n - 1));
    SumRepeat(42, n - 1);
    assert Sum([8]) == 8 by { SumSnoc([], 8); assert [] + [8] == [8]; }
    ApportionAt(ws, USABLE_DXA, 0);
  }

  lemma ShareOfNothing(num: nat, den: nat)
    requires 2 * num < den
    ensures RoundDiv(num, den) == 0
  {
  }

  /** In very wide tables a short cell beside long ones gets nothing. */
  lemma WideStarves(n: nat)
    requires n > 9360
    ensures Starves(n)
  {
    hide StarvesIn, Apportion, RoundDiv, Sum;
    var ws := [8] + Repeat(42, n - 1);
    ShortFirst(n);
    assert PlanWeights(ws);
    ShareOfNothing(9360 * 8, Sum(ws));
    HeaderStarves(ws, 0);
  }

  lemma AllStarve(n: nat)
    requires n > 60
    ensures Starves(n)
  {
    hide Starves;
    if n <= 95 {
      FewColumns(n);
    } else if n <= 130 {
      MoreColumns(n);
    } else if n <= 9360 {
      ManyColumns(n, 72);
    } else {
      WideStarves(n);
    }
  }

  /**
  The exact limit: whatever the cells, all columns of a table of `n` columns are visible, if and only if `n`
  is at most 60.
   */
  lemma SixtyIsTheLimit(n: nat)
    requires n > 0
    ensures (forall rows: seq<seq<string>> :: !StarvesIn(rows, n)) <==> n <= 60
  {
    if n <= 60 {
      forall rows: seq<seq<string>>
        ensures !StarvesIn(rows, n)
      {
        if Columns(rows) == n {
          var ws := Weights(PLAN_CLAMP, PLAN_INIT, rows);
          PlanWeightsInRange(rows);
          SumBounds(ws);
          forall k | 0 <= k < |ws|
            ensures Apportion(ws, USABLE_DXA)[k] > 0
          {
            PlanPositive(ws, k);
          }
        }
      }
    } else {
      AllStarve(n);
    }
  }

  /** With sixty cells of 42 letters and one of 8, the last column gets exactly nothing. */
  lemma SixtyOneColumns()
    ensures var ws := Mixed(59, 42, 0);
            && PlanWeights(ws) && |ws| == 61
            && Plan([HeaderOf(ws)], USABLE_DXA).Some? && |Plan([HeaderOf(ws)], USABLE_DXA).value| == 61
            && Plan([HeaderOf(ws)], USABLE_DXA).value[60] == 0
  {
    hide HeaderOf, Apportion, Plan, IsRow, Columns;
    var ws := Mixed(59, 42, 0);
    LastOfMixed(59, 42, 0);
    assert Given(59, 42, 0) == 9360;
    HeaderPlan(ws, USABLE_DXA);
  }

  /** Rows for which the header does not fill the page. */
  function LongRow(): seq<seq<string>> {
    [["a"], ["b", "c"]]
  }

  /** The header cell gets one half of the page only, since a column is planned for the second cell below it. */
  lemma HeaderTooNarrow()
    ensures Plan(LongRow(), USABLE_DXA) == Some([4680, 4680])
    ensures Sum([4680, 4680][..1]) == 4680
  {
    var rows := LongRow();
    forall k | 0 <= k < 2
      ensures Weight(PLAN_CLAMP, PLAN_INIT, rows, k) == 8
    {
      WeightIsMaximum(PLAN_CLAMP, PLAN_INIT, rows, k);
    }
    TwoColumns();
    assert Weights(PLAN_CLAMP, PLAN_INIT, rows) == [8, 8];
    HalfEach();
  }

  lemma TwoColumns()
    ensures Columns(LongRow()) == 2
  {
    var longest :| 0 <= longest < |LongRow()| && |LongRow()[longest]| == Columns(LongRow());
    assert |LongRow()[1]| <= Columns(LongRow());
  }

  lemma HalfEach()
    ensures Sum([8, 8]) == 16 && Apportion([8, 8], USABLE_DXA) == [4680, 4680]
    ensures Sum([4680, 4680][..1]) == 4680
  {
    SumSnoc([], 8);
    SumSnoc([8], 8);
    assert [] + [8] == [8] && [8] + [8] == [8, 8];
    ApportionAt([8, 8], USABLE_DXA, 0);
    ApportionAt([8, 8], USABLE_DXA, 1);
    var shares := Shares([8, 8], USABLE_DXA);
    assert shares[..1] == [4680] && [4680, 4680][..1] == [4680];
    SumSnoc([], 4680);
    assert [] + [4680] == [4680];
  }
}
