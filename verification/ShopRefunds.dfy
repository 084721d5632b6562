/**
What an order gets back through returns, in any run: exactly the rounded shares of its returns, up to what
its goods cost. From this law follow the interval around the fair share and the bounds for single rows.
 */
module ShopRefunds {
  import opened Basics
  import opened Totals
  import opened ShopState
  import opened ShopMoney
  import opened ShopTransactions
  import opened ShopInvariants
  import opened ShopReturns
  import opened ShopRuns

  // ----- what came back for an order

  function GrossLine(): ReturnLine -> int {
    (l: ReturnLine) => if l.disposition.Some? && l.disposition.value != Rejected then l.gross else 0
  }

  /** The price before discount of the accepted rows. */
  function AcceptedPrice(lines: seq<ReturnLine>): nat {
    TotalBounds(GrossLine(), lines);
    Total(GrossLine(), lines)
  }

  function BackFor(o: nat): Return -> int {
    (r: Return) => if r.order == o && IsReceived(r.status) then AcceptedPrice(r.lines) else 0
  }

  function ReceiptFor(o: nat): Return -> int {
    (r: Return) => if r.order == o && IsReceived(r.status) then 1 else 0
  }

  function ShareFor(order: Order, o: nat): Return -> int {
    (r: Return) =>
      if r.order == o && IsReceived(r.status) then Share(AcceptedPrice(r.lines), order.subtotal, order.discount) else 0
  }

  /** The price before discount of all goods accepted back for an order. */
  function Back(requests: seq<Return>, o: nat): int { Total(BackFor(o), requests) }

  /** How many returns of an order were received. */
  function Receipts(requests: seq<Return>, o: nat): int { Total(ReceiptFor(o), requests) }

  /** The shares of the received returns, each rounded on its own. */
  function RoundedShares(requests: seq<Return>, order: Order, o: nat): int { Total(ShareFor(order, o), requests) }

  // ----- the exact law

  ghost predicate Exact(s: State, o: nat)
    requires o < |s.orders|
  {
    Approved(s.requests, o) == Min(Merchandise(s.orders[o]), RoundedShares(s.requests, s.orders[o], o))
  }

  ghost predicate AllExact(s: State) {
    forall o :: 0 <= o < |s.orders| ==> Exact(s, o)
  }

  lemma AcceptedRow(order: Order, lines: seq<ReturnLine>, choices: map<nat, Disposition>, amount: nat, k: nat)
    requires k < |lines| && forall j :: 0 <= j < |lines| ==> j in choices
    ensures GrossLine()(ReceivedLines(order, lines, choices, amount)[k])
         == if choices[k] == Rejected then 0 else lines[k].gross
  {
    hide Allocate, AcceptedShares, Rank;
  }

  lemma GrossSteps(lines: seq<ReturnLine>, choices: map<nat, Disposition>, n: nat)
    requires n <= |lines| && forall k :: 0 <= k < |lines| ==> k in choices
    ensures n == 0 ==> AcceptedGross(lines, choices, n) == 0 && Total(GrossLine(), []) == 0
    ensures n > 0 ==> AcceptedGross(lines, choices, n)
                      == AcceptedGross(lines, choices, n - 1)
                          + (if choices[n - 1] == Rejected then 0 else lines[n - 1].gross)
  {
  }

  /** What the received rows count as accepted is what the refund was calculated from. */
  lemma {:induction false} AcceptedRows(
      order: Order, lines: seq<ReturnLine>, choices: map<nat, Disposition>, amount: nat, n: nat)
    requires n <= |lines| && forall k :: 0 <= k < |lines| ==> k in choices
    ensures Total(GrossLine(), ReceivedLines(order, lines, choices, amount)[..n]) == AcceptedGross(lines, choices, n)
  {
    hide *;
    var rows := ReceivedLines(order, lines, choices, amount);
    GrossSteps(lines, choices, n);
    if n == 0 {
      assert rows[..0] == [];
    } else {
      AcceptedRows(order, lines, choices, amount, n - 1);
      AcceptedRow(order, lines, choices, amount, n - 1);
      assert rows[..n] == rows[..n - 1] + [rows[n - 1]];
      TotalSnoc(GrossLine(), rows[..n - 1], rows[n - 1]);
    }
  }

  /** No return is received between the two states. */
  ghost predicate NoReceipt(s: State, t: State) {
    && |s.requests| <= |t.requests|
    && forall r :: 0 <= r < |t.requests| && IsReceived(t.requests[r].status) ==>
         r < |s.requests| && IsReceived(s.requests[r].status)
  }

  /** All transactions but the receipt of approved goods leave the accepted goods alone. */
  lemma {:induction false} OnlyReceiptReceives(s: State, a: Action)
    requires Inv(s) && Execute(s, a).Done?
    requires a.AReceive? ==> s.requests[a.ret].status != AskApproved
    ensures NoReceipt(s, Execute(s, a).state)
  {
    hide Inv, Transition, ReleaseVoucher, PickLines, GiftRule, Available, HasActive, ValidPicks;
    hide Reserve, VoucherUsable, Discount, Replayed, Paid, Merchandise, RestockAll, ReceivedLines, Refund;
    if a.ADispatched? {
      AwaitingIsReceived(s, a.ret);
    } else if a.APayment? {
      OrderKeepsRequests(s, a.order);
    } else if a.AStatus? {
      OrderKeepsRequests(s, a.order);
    }
  }

  lemma OrderKeepsRequests(s: State, o: nat)
    ensures o < |s.orders| ==>
              && (Transition(s, o, Committed).Done? ==> Transition(s, o, Committed).state.requests == s.requests)
              && (Cancelling(s, o).Done? ==> Cancelling(s, o).state.requests == s.requests)
  {
    hide Shift, RowsAllow;
  }

  lemma SameSums(s: State, t: State, order: Order, o: nat)
    requires ReturnInv(s) && ReturnInv(t) && Later(s, t) && NoReceipt(s, t)
    ensures Approved(t.requests, o) == Approved(s.requests, o)
    ensures RoundedShares(t.requests, order, o) == RoundedShares(s.requests, order, o)
  {
    hide LimitsHold, OneActive, Total, Share, AcceptedPrice;
    forall r | 0 <= r < |s.requests|
      ensures ApprovedFor(o)(t.requests[r]) == ApprovedFor(o)(s.requests[r])
      ensures ShareFor(order, o)(t.requests[r]) == ShareFor(order, o)(s.requests[r])
    {
      assert RequestLater(s.requests[r], t.requests[r]);
      assert ReturnFits(s.orders, s.requests[r]) && ReturnFits(t.orders, t.requests[r]);
    }
    forall r | |s.requests| <= r < |t.requests|
      ensures ApprovedFor(o)(t.requests[r]) == 0
    {
      assert ReturnFits(t.orders, t.requests[r]);
    }
    TotalExtends(ApprovedFor(o), s.requests, t.requests);
    TotalExtends(ShareFor(order, o), s.requests, t.requests);
  }

  /** Orders that do not exist yet have no returns. */
  lemma NothingBackYet(s: State, order: Order, o: nat)
    requires ReturnInv(s) && o >= |s.orders|
    ensures Approved(s.requests, o) == 0 && RoundedShares(s.requests, order, o) == 0
  {
    hide OneActive, LimitsHold, Share, AcceptedPrice;
    NoReturnsYet(s, o);
    assert forall r :: 0 <= r < |s.requests| ==> ReturnFits(s.orders, s.requests[r]);
    TotalZero(ShareFor(order, o), s.requests);
  }

  lemma OtherStepExact(s: State, t: State)
    requires ReturnInv(s) && ReturnInv(t) && Later(s, t) && NoReceipt(s, t) && AllExact(s)
    ensures AllExact(t)
  {
    hide ReturnInv, NoReceipt, Approved, RoundedShares;
    forall o | 0 <= o < |t.orders|
      ensures Exact(t, o)
    {
      SameSums(s, t, t.orders[o], o);
      if o < |s.orders| {
        assert Exact(s, o);
        assert OrderLater(s.orders[o], t.orders[o]);
        SameSaleShares(s.requests, s.orders[o], t.orders[o], o);
      } else {
        NothingBackYet(s, t.orders[o], o);
      }
    }
  }

  lemma SameSaleShares(requests: seq<Return>, x: Order, y: Order, o: nat)
    requires SameSale(y, x)
    ensures RoundedShares(requests, y, o) == RoundedShares(requests, x, o)
  {
    hide Share, AcceptedPrice;
    TotalSame(ShareFor(y, o), ShareFor(x, o), requests);
  }

  lemma SumsAfterReceipt(requests: seq<Return>, r: nat, y: Return, order: Order, o: nat)
    requires r < |requests| && y.order == requests[r].order && !IsReceived(requests[r].status) && IsReceived(y.status)
    requires requests[r].approved == 0
    ensures Approved(requests[r := y], o) == Approved(requests, o) + (if o == y.order then y.approved else 0)
    ensures RoundedShares(requests[r := y], order, o)
         == RoundedShares(requests, order, o)
            + (if o == y.order then Share(AcceptedPrice(y.lines), order.subtotal, order.discount) else 0)
  {
    hide Total, Share, AcceptedPrice;
    TotalUpdate(ApprovedFor(o), requests, r, y);
    TotalUpdate(ShareFor(order, o), requests, r, y);
  }

  lemma ReceivedReturn(s: State, r: nat, choices: seq<Choice>, provider: bool)
    requires Inv(s) && Receive(s, r, choices, provider).Done? && s.requests[r].status == AskApproved
    ensures var x := s.requests[r];
            var m := ChoiceMap(choices);
            var t := Receive(s, r, choices, provider).state;
            && x.order < |s.orders| && x.approved == 0
            && (forall k :: 0 <= k < |x.lines| ==> k in m)
            && |t.requests| == |s.requests| && t.orders == s.orders
            && var y := t.requests[r];
            && t.requests == s.requests[r := y] && y.order == x.order && IsReceived(y.status)
            && y.approved == Refund(s, r, m)
            && AcceptedPrice(y.lines) == AcceptedGross(x.lines, m, |x.lines|)
  {
    hide Refund, ReceivedLines, ChoiceMap, AcceptedGross, Total, RestockAll, OrderInv, OneActive, LimitsHold;
    var x := s.requests[r];
    assert ReturnFits(s.orders, x);
    var m := ChoiceMap(choices);
    AcceptedRows(s.orders[x.order], x.lines, m, Refund(s, r, m), |x.lines|);
    var lines := ReceivedLines(s.orders[x.order], x.lines, m, Refund(s, r, m));
    assert lines[..|x.lines|] == lines;
  }

  lemma RefundIs(s: State, r: nat, m: map<nat, Disposition>)
    requires Inv(s) && r < |s.requests| && s.requests[r].status == AskApproved && s.requests[r].order < |s.orders|
    requires forall k :: 0 <= k < |s.requests[r].lines| ==> k in m
    ensures var x := s.requests[r];
            var order := s.orders[x.order];
            var a := Approved(s.requests, x.order);
            && 0 <= a <= Merchandise(order)
            && Refund(s, r, m)
               == Min(Share(AcceptedGross(x.lines, m, |x.lines|), order.subtotal, order.discount),
                      Merchandise(order) - a)
  {
    hide OrderInv, ReturnsFit, OneActive, Share, AcceptedGross, Merchandise, Approved, Paid;
    PaidIsApproved(s, r);
    ApprovedNonnegative(s, s.requests[r].order);
    MoneyAt(s, s.requests[r].order);
  }

  lemma ApprovedNonnegative(s: State, o: nat)
    requires ReturnInv(s)
    ensures Approved(s.requests, o) >= 0
  {
    hide OneActive, LimitsHold;
    assert forall r :: 0 <= r < |s.requests| ==> ReturnFits(s.orders, s.requests[r]);
    TotalBounds(ApprovedFor(o), s.requests);
  }

  lemma {:induction false} ReceiptExact(s: State, r: nat, choices: seq<Choice>, provider: bool)
    requires Inv(s) && AllExact(s) && r < |s.requests|
    requires Receive(s, r, choices, provider).Done? && s.requests[r].status == AskApproved
    ensures AllExact(Receive(s, r, choices, provider).state)
  {
    hide Inv, Refund, ChoiceMap, AcceptedGross, Receive, Approved, RoundedShares, Share, AcceptedPrice;
    ReceivedReturn(s, r, choices, provider);
    var t := Receive(s, r, choices, provider).state;
    RefundIs(s, r, ChoiceMap(choices));
    ApprovedLines(s, r);
    forall o | 0 <= o < |t.orders|
      ensures Exact(t, o)
    {
      assert Exact(s, o);
      SumsAfterReceipt(s.requests, r, t.requests[r], s.orders[o], o);
    }
  }

  lemma ApprovedLines(s: State, r: nat)
    requires r < |s.requests|
    ensures s.requests[r].status == AskApproved ==> !IsReceived(s.requests[r].status)
  {
  }

  lemma ApplyExact(s: State, a: Action)
    requires Inv(s) && AllExact(s)
    ensures AllExact(Apply(s, a))
  {
    hide OrderInv, ReturnInv, AllExact, Execute, Later;
    ApplyKeeps(s, a);
    if Execute(s, a).Done? {
      ReceiveIsKnown(s, a);
      if a.AReceive? && s.requests[a.ret].status == AskApproved {
        ExecuteReceive(s, a);
        ReceiptExact(s, a.ret, a.choices, a.provider);
      } else {
        OnlyReceiptReceives(s, a);
        OtherStepExact(s, Execute(s, a).state);
      }
    }
  }

  lemma ReceiveIsKnown(s: State, a: Action)
    requires Execute(s, a).Done?
    ensures a.AReceive? ==> a.ret < |s.requests|
  {
    hide ExactChoices, RestockAll, ReceivedLines, Refund;
  }

  lemma ExecuteReceive(s: State, a: Action)
    requires a.AReceive?
    ensures Execute(s, a) == Receive(s, a.ret, a.choices, a.provider)
  {
    hide Receive;
  }

  lemma {:induction false} RunExact(s: State, actions: seq<Action>)
    requires Inv(s) && AllExact(s)
    ensures AllExact(Run(s, actions))
  {
    hide Inv, AllExact, Apply;
    if actions != [] {
      var before := actions[..|actions| - 1];
      RunExact(s, before);
      RunKeeps(s, before);
      ApplyExact(Run(s, before), actions[|actions| - 1]);
    }
  }

  lemma OpeningExact(s: State)
    requires Opening(s)
    ensures AllExact(s)
  {
  }

  lemma ExactAt(s: State, o: nat)
    requires AllExact(s) && o < |s.orders|
    ensures Exact(s, o)
  {
  }

  /**
  The law of refunds: in any run, what is approved for an order through returns is the sum of the rounded
  shares of the received returns, limited to what its goods cost. So the returns bring back all that the
  goods cost if and only if the rounded shares reach it.
   */
  lemma {:induction false} RefundsAreExact(s: State, actions: seq<Action>, o: nat)
    requires Opening(s) && o < |Run(s, actions).orders|
    ensures var t := Run(s, actions);
            var order := t.orders[o];
            && Approved(t.requests, o) == Min(Merchandise(order), RoundedShares(t.requests, order, o))
            && (Approved(t.requests, o) == Merchandise(order)
                <==> RoundedShares(t.requests, order, o) >= Merchandise(order))
  {
    hide Run, Merchandise, Approved, RoundedShares, AllExact, Opening, Inv;
    OpeningInv(s);
    OpeningExact(s);
    RunExact(s, actions);
    ExactAt(Run(s, actions), o);
  }

  // ----- the interval around the fair share

  lemma Distribute(a: int, b: int, d: int)
    ensures (a + b) * d == a * d + b * d
  {
  }

  lemma NotMore(a: int, b: int, d: nat)
    requires a <= b
    ensures a * d <= b * d
  {
  }

  lemma ShareNear(gross: nat, subtotal: nat, discount: nat)
    ensures var kept := Max(subtotal - discount, 0);
            0 - subtotal <= 2 * (gross * kept - Share(gross, subtotal, discount) * subtotal) <= subtotal
  {
    hide HalfUp;
  }

  /** `2 * |a - e / d| <= n` */
  predicate Within(a: int, e: int, d: int, n: int) {
    2 * (a * d) <= 2 * e + n * d && 2 * e <= 2 * (a * d) + n * d
  }

  lemma WithinSum(a: int, e: int, b: int, f: int, d: int, n: int, m: int)
    requires Within(a, e, d, n) && Within(b, f, d, m)
    ensures Within(a + b, e + f, d, n + m)
  {
    assert (a + b) * d == a * d + b * d by { hide *; Distribute(a, b, d); }
    assert (n + m) * d == n * d + m * d by { hide *; Distribute(n, m, d); }
  }

  lemma WithinNothing(d: int)
    ensures Within(0, 0, d, 0)
  {
  }

  lemma ShareWithin(gross: nat, subtotal: nat, discount: nat)
    ensures Within(Share(gross, subtotal, discount), gross * Max(subtotal - discount, 0), subtotal, 1)
  {
    hide Share;
    ShareNear(gross, subtotal, discount);
  }

  lemma SumsUnfold(requests: seq<Return>, order: Order, o: nat)
    ensures requests == [] ==>
              RoundedShares(requests, order, o) == 0 && Back(requests, o) == 0 && Receipts(requests, o) == 0
    ensures requests != [] ==>
              var before, r := requests[..|requests| - 1], requests[|requests| - 1];
              && RoundedShares(requests, order, o) == RoundedShares(before, order, o) + ShareFor(order, o)(r)
              && Back(requests, o) == Back(before, o) + BackFor(o)(r)
              && Receipts(requests, o) == Receipts(before, o) + ReceiptFor(o)(r)
  {
    hide ShareFor, BackFor, ReceiptFor;
  }

  lemma OneReturnNear(r: Return, order: Order, o: nat)
    ensures Within(ShareFor(order, o)(r), BackFor(o)(r) * Merchandise(order), order.subtotal, ReceiptFor(o)(r))
  {
    hide Share, AcceptedPrice, Within;
    ShareWithin(AcceptedPrice(r.lines), order.subtotal, order.discount);
    WithinNothing(order.subtotal);
    assert 0 * Merchandise(order) == 0;
  }

  /** The rounded shares are within half a hundredth per return of the share of all accepted goods. */
  lemma {:induction false} SharesNear(requests: seq<Return>, order: Order, o: nat)
    ensures Within(RoundedShares(requests, order, o), Back(requests, o) * Merchandise(order),
                   order.subtotal, Receipts(requests, o))
  {
    hide *;
    SumsUnfold(requests, order, o);
    if requests == [] {
      WithinNothing(order.subtotal);
      assert 0 * Merchandise(order) == 0;
    } else {
      var before, r := requests[..|requests| - 1], requests[|requests| - 1];
      SharesNear(before, order, o);
      OneReturnNear(r, order, o);
      WithinSum(RoundedShares(before, order, o), Back(before, o) * Merchandise(order),
        ShareFor(order, o)(r), BackFor(o)(r) * Merchandise(order),
        order.subtotal, Receipts(before, o), ReceiptFor(o)(r));
      Distribute(Back(before, o), BackFor(o)(r), Merchandise(order));
    }
  }

  /**
  The interval: in any run, the refunds approved for an order are within half a hundredth per return of the
  share of the accepted goods in what was paid, and below that only if they are all that the goods cost.
   */
  lemma {:induction false} RefundsAreFair(s: State, actions: seq<Action>, o: nat)
    requires Opening(s) && o < |Run(s, actions).orders|
    ensures var t := Run(s, actions);
            var a, n := Approved(t.requests, o), Receipts(t.requests, o);
            var e := Back(t.requests, o) * Merchandise(t.orders[o]);
            && 2 * (a * t.orders[o].subtotal) <= 2 * e + n * t.orders[o].subtotal
            && (a == Merchandise(t.orders[o]) || Within(a, e, t.orders[o].subtotal, n))
  {
    hide *;
    var t := Run(s, actions);
    RefundsAreExact(s, actions, o);
    SharesNear(t.requests, t.orders[o], o);
    var a, shares := Approved(t.requests, o), RoundedShares(t.requests, t.orders[o], o);
    MinIs(Merchandise(t.orders[o]), shares);
    NotMore(a, shares, t.orders[o].subtotal);
    WithinIs(shares, Back(t.requests, o) * Merchandise(t.orders[o]), t.orders[o].subtotal, Receipts(t.requests, o));
  }

  lemma MinIs(a: int, b: int)
    ensures Min(a, b) <= b && (Min(a, b) == a || Min(a, b) == b)
  {
  }

  lemma WithinIs(a: int, e: int, d: int, n: int)
    requires Within(a, e, d, n)
    ensures 2 * (a * d) <= 2 * e + n * d && 2 * e <= 2 * (a * d) + n * d
  {
  }

  lemma NoReceiptsBelow(requests: seq<Return>, o: nat)
    ensures Receipts(requests, o) >= 0
  {
    TotalBounds(ReceiptFor(o), requests);
  }

  // ----- refunds of the items of one return

  function SumGross(grosses: seq<nat>): nat {
    if grosses == [] then 0 else grosses[0] + SumGross(grosses[1..])
  }

  function Shares(grosses: seq<nat>, subtotal: nat, discount: nat): (r: seq<nat>)
    ensures |r| == |grosses|
  {
    if grosses == [] then [] else [Share(grosses[0], subtotal, discount)] + Shares(grosses[1..], subtotal, discount)
  }

  /** One item paid, its own share or all that is left: the item and the rest stay near their shares. */
  lemma {:induction false} ItemStep(amount: nat, share: nat, e: nat, rest: nat, d: nat, n: nat)
    requires d > 0 && n > 0 && Within(amount, e + rest, d, n) && Within(share, e, d, 1)
    ensures var part := Min(share, amount);
            Within(part, e, d, n) && Within(amount - part, rest, d, n + 1)
  {
    var ad, sd, nd := amount * d, share * d, n * d;
    assert (n + 1) * d == nd + d by { hide *; Distribute(n, 1, d); }
    assert nd >= d by { NotMore(1, n, d); }
    assert (amount - share) * d == ad - sd by { hide *; Distribute(amount - share, share, d); }
    if amount < share {
      assert ad <= sd - d by { hide *; NotMore(amount, share - 1, d); Distribute(share - 1, 1, d); }
      assert Within(0, rest, d, n + 1);
    }
  }

  /** Every item of a return gets its share, up to half a hundredth per item of the return. */
  lemma {:induction false} ItemsNear(grosses: seq<nat>, subtotal: nat, discount: nat, amount: nat, n: nat, k: nat)
    requires subtotal > 0 && n > 0 && k < |grosses|
    requires Within(amount, SumGross(grosses) * Max(subtotal - discount, 0), subtotal, n)
    ensures Within(Allocate(Shares(grosses, subtotal, discount), amount)[k],
                   grosses[k] * Max(subtotal - discount, 0), subtotal, n + |grosses| - 1)
    decreases |grosses|
  {
    hide Within, Share;
    var kept := Max(subtotal - discount, 0);
    var rest := SumGross(grosses[1..]) * kept;
    assert SumGross(grosses) * kept == grosses[0] * kept + rest;
    if |grosses| == 1 {
      assert grosses[1..] == [];
    } else {
      var share := Share(grosses[0], subtotal, discount);
      ShareWithin(grosses[0], subtotal, discount);
      ItemStep(amount, share, grosses[0] * kept, rest, subtotal, n);
      var part := Min(share, amount);
      if k > 0 {
        ItemsNear(grosses[1..], subtotal, discount, amount - part, n + 1, k - 1);
      } else {
        Widen(part, grosses[0] * kept, subtotal, n, n + |grosses| - 1);
      }
    }
  }

  lemma Widen(a: int, e: int, d: nat, n: int, m: int)
    requires Within(a, e, d, n) && n <= m
    ensures Within(a, e, d, m)
  {
    assert n * d <= m * d;
  }

  /** The prices of the accepted rows, in order. */
  function Accepted(lines: seq<ReturnLine>, choices: map<nat, Disposition>, n: nat): (r: seq<nat>)
    requires n <= |lines| && forall k :: 0 <= k < |lines| ==> k in choices
    ensures |r| == Rank(choices, n)
  {
    if n == 0 then []
    else Accepted(lines, choices, n - 1) + (if choices[n - 1] == Rejected then [] else [lines[n - 1].gross])
  }

  lemma {:induction false} SharesSnoc(grosses: seq<nat>, gross: nat, subtotal: nat, discount: nat)
    ensures Shares(grosses + [gross], subtotal, discount)
         == Shares(grosses, subtotal, discount) + [Share(gross, subtotal, discount)]
    ensures SumGross(grosses + [gross]) == SumGross(grosses) + gross
  {
    hide Share;
    if grosses == [] {
      assert [gross][1..] == [];
    } else {
      assert (grosses + [gross])[1..] == grosses[1..] + [gross];
      SharesSnoc(grosses[1..], gross, subtotal, discount);
    }
  }

  lemma AcceptedNone(order: Order, lines: seq<ReturnLine>, choices: map<nat, Disposition>)
    requires forall k :: 0 <= k < |lines| ==> k in choices
    ensures AcceptedShares(order, lines, choices, 0)
         == Shares(Accepted(lines, choices, 0), order.subtotal, order.discount)
    ensures SumGross(Accepted(lines, choices, 0)) == AcceptedGross(lines, choices, 0)
  {
  }

  lemma AcceptedStep(order: Order, lines: seq<ReturnLine>, choices: map<nat, Disposition>, n: nat)
    requires n < |lines| && forall k :: 0 <= k < |lines| ==> k in choices
    ensures var gross := lines[n].gross;
            if choices[n] == Rejected then
              && AcceptedShares(order, lines, choices, n + 1) == AcceptedShares(order, lines, choices, n)
              && Accepted(lines, choices, n + 1) == Accepted(lines, choices, n)
              && AcceptedGross(lines, choices, n + 1) == AcceptedGross(lines, choices, n)
            else
              && AcceptedShares(order, lines, choices, n + 1)
                 == AcceptedShares(order, lines, choices, n) + [Share(gross, order.subtotal, order.discount)]
              && Accepted(lines, choices, n + 1) == Accepted(lines, choices, n) + [gross]
              && AcceptedGross(lines, choices, n + 1) == AcceptedGross(lines, choices, n) + gross
  {
    hide Share;
  }

  lemma {:induction false} AcceptedSharesAre(
      order: Order, lines: seq<ReturnLine>, choices: map<nat, Disposition>, n: nat)
    requires n <= |lines| && forall k :: 0 <= k < |lines| ==> k in choices
    ensures AcceptedShares(order, lines, choices, n)
         == Shares(Accepted(lines, choices, n), order.subtotal, order.discount)
    ensures SumGross(Accepted(lines, choices, n)) == AcceptedGross(lines, choices, n)
  {
    hide *;
    if n == 0 {
      AcceptedNone(order, lines, choices);
    } else {
      AcceptedSharesAre(order, lines, choices, n - 1);
      AcceptedStep(order, lines, choices, n - 1);
      SharesSnoc(Accepted(lines, choices, n - 1), lines[n - 1].gross, order.subtotal, order.discount);
    }
  }

  lemma {:induction false} AcceptedAt(lines: seq<ReturnLine>, choices: map<nat, Disposition>, n: nat, k: nat)
    requires k < n <= |lines| && (forall j :: 0 <= j < |lines| ==> j in choices) && choices[k] != Rejected
    ensures Rank(choices, k) < |Accepted(lines, choices, n)|
    ensures Accepted(lines, choices, n)[Rank(choices, k)] == lines[k].gross
  {
    RankMonotone(choices, k + 1, n);
    if k < n - 1 {
      RankMonotone(choices, k + 1, n - 1);
      AcceptedAt(lines, choices, n - 1, k);
    }
  }

  /** Handing an amount near the fair one to the rows keeps every row near its own, and rejected rows at nothing. */
  lemma {:induction false} RowsNear(
      order: Order, lines: seq<ReturnLine>, choices: map<nat, Disposition>, amount: nat, n: nat, k: nat)
    requires k < |lines| && (forall j :: 0 <= j < |lines| ==> j in choices) && order.subtotal > 0 && n > 0
    requires Within(amount, AcceptedGross(lines, choices, |lines|) * Merchandise(order), order.subtotal, n)
    ensures var row := ReceivedLines(order, lines, choices, amount)[k];
            if choices[k] == Rejected then row.refund == 0
            else Within(row.refund, lines[k].gross * Merchandise(order), order.subtotal, n + Rank(choices, |lines|) - 1)
  {
    hide Share, Within, Allocate, Shares, SumGross, AcceptedShares, ReceivedLines, AcceptedGross;
    RowRefund(order, lines, choices, amount, k);
    if choices[k] != Rejected {
      AcceptedSharesAre(order, lines, choices, |lines|);
      AcceptedAt(lines, choices, |lines|, k);
      ItemsNear(Accepted(lines, choices, |lines|), order.subtotal, order.discount, amount, n, Rank(choices, k));
    }
  }

  lemma LimitedSums(ad: int, sd: int, hd: int, kd: int, bk: int, gk: int, nd: int, d: int, whole: bool)
    requires 2 * hd <= 2 * bk + nd && 2 * sd <= 2 * gk + d && 2 * gk <= 2 * sd + d && nd >= 0
    requires ad <= sd && (whole ==> ad == sd) && (!whole ==> kd - hd <= ad) && bk + gk <= kd && d >= 0
    ensures 2 * ad <= 2 * gk + (nd + d) && 2 * gk <= 2 * ad + (nd + d)
  {
  }

  lemma WithinFrom(a: int, e: int, d: int, n: int)
    requires 2 * (a * d) <= 2 * e + n * d && 2 * e <= 2 * (a * d) + n * d
    ensures Within(a, e, d, n)
  {
  }

  lemma Limits(share: int, kept: int, shares: int)
    ensures var amount := Min(share, kept - Min(kept, shares));
            amount <= share && (amount < share ==> kept - shares <= amount)
  {
  }

  lemma LimitedProducts(a: int, share: int, kept: nat, shares: int, back: nat, gross: nat, d: nat)
    requires a <= share && (a < share ==> kept - shares <= a) && back + gross <= d
    ensures a * d <= share * d && (a < share ==> d * kept - shares * d <= a * d)
    ensures back * kept + gross * kept <= d * kept
  {
    hide *;
    NotMore(a, share, d);
    assert back * kept + gross * kept <= d * kept by {
      NotMore(back + gross, d, kept);
      Distribute(back, gross, kept);
    }
    if a < share {
      NotMore(kept - shares, a, d);
      Distribute(kept - shares, shares, d);
    }
  }

  lemma OneMore(n: nat, d: nat)
    ensures (n + 1) * d == n * d + d && n * d >= 0
  {
  }

  /** A refund limited to what is left is near its share, as long as no more comes back than was bought. */
  lemma {:induction false} LimitedNear(
      kept: int, shares: int, back: nat, gross: nat, d: nat, n: nat, share: int)
    requires Within(shares, back * kept, d, n) && Within(share, gross * kept, d, 1)
    requires back + gross <= d && kept >= 0
    ensures Within(Min(share, kept - Min(kept, shares)), gross * kept, d, n + 1)
  {
    hide *;
    var a := Min(share, kept - Min(kept, shares));
    Limits(share, kept, shares);
    WithinIs(shares, back * kept, d, n);
    WithinIs(share, gross * kept, d, 1);
    LimitedProducts(a, share, kept, shares, back, gross, d);
    OneMore(n, d);
    LimitedSums(a * d, share * d, shares * d, d * kept, back * kept, gross * kept, n * d, d, a >= share);
    WithinFrom(a, gross * kept, d, n + 1);
  }
}
