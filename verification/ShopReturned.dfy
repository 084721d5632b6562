/**
From quantities to prices: what the goods that came back cost, and the bounds for orders whose subtotal is
the sum of their lines.
 */
module ShopReturned {
  import opened Basics
  import opened Totals
  import opened ShopState
  import opened ShopMoney
  import opened ShopTransactions
  import opened ShopInvariants
  import opened ShopReturns
  import opened ShopRuns
  import opened ShopRefunds
  import opened ShopSettled

  // ----- the worth of quantities

  /** The price of `q(idx)` pieces of each of the first `n` lines. */
  function Worth(lines: seq<Line>, q: nat -> int, n: nat): int
    requires n <= |lines|
  {
    if n == 0 then 0 else Worth(lines, q, n - 1) + lines[n - 1].unitPrice * q(n - 1)
  }

  lemma {:induction false} WorthSum(lines: seq<Line>, f: nat -> int, g: nat -> int, h: nat -> int, n: nat)
    requires n <= |lines| && forall idx: nat :: idx < n ==> h(idx) == f(idx) + g(idx)
    ensures Worth(lines, h, n) == Worth(lines, f, n) + Worth(lines, g, n)
  {
    if n > 0 {
      WorthSum(lines, f, g, h, n - 1);
      Distribute(f(n - 1), g(n - 1), lines[n - 1].unitPrice);
    }
  }

  lemma {:induction false} WorthOne(lines: seq<Line>, q: nat -> int, i: nat, n: nat)
    requires n <= |lines| && i < |lines| && forall idx: nat :: idx < n && idx != i ==> q(idx) == 0
    ensures Worth(lines, q, n) == if i < n then lines[i].unitPrice * q(i) else 0
  {
    if n > 0 {
      WorthOne(lines, q, i, n - 1);
    }
  }

  lemma {:induction false} WorthZero(lines: seq<Line>, q: nat -> int, n: nat)
    requires n <= |lines| && forall idx: nat :: idx < n ==> q(idx) == 0
    ensures Worth(lines, q, n) == 0
  {
    if n > 0 {
      WorthZero(lines, q, n - 1);
    }
  }

  lemma {:induction false} WorthAtMost(lines: seq<Line>, f: nat -> int, g: nat -> int, n: nat)
    requires n <= |lines| && forall idx: nat :: idx < n ==> f(idx) <= g(idx)
    ensures Worth(lines, f, n) <= Worth(lines, g, n)
  {
    if n > 0 {
      WorthAtMost(lines, f, g, n - 1);
      NotMore(f(n - 1), g(n - 1), lines[n - 1].unitPrice);
    }
  }

  // ----- what came back, line by line

  function TakenOf(idx: nat): ReturnLine -> int {
    (l: ReturnLine) => if l.line == idx && l.accepted.Some? then l.accepted.value else 0
  }

  function TakenFor(o: nat, idx: nat): Return -> int {
    (r: Return) => if r.order == o && IsReceived(r.status) then Total(TakenOf(idx), r.lines) else 0
  }

  /** How much of a line of an order was accepted back. */
  function Taken(requests: seq<Return>, o: nat, idx: nat): int { Total(TakenFor(o, idx), requests) }

  function RowsTaken(rows: seq<ReturnLine>): nat -> int {
    (idx: nat) => Total(TakenOf(idx), rows)
  }

  function RowTaken(l: ReturnLine): nat -> int {
    (idx: nat) => TakenOf(idx)(l)
  }

  function ReturnTaken(r: Return, o: nat): nat -> int {
    (idx: nat) => TakenFor(o, idx)(r)
  }

  function AllTaken(requests: seq<Return>, o: nat): nat -> int {
    (idx: nat) => Taken(requests, o, idx)
  }

  lemma RowWorth(order: Order, r: Return, l: ReturnLine)
    requires RowFits(order, r, l) && IsReceived(r.status)
    ensures Worth(order.lines, RowTaken(l), |order.lines|) == GrossLine()(l)
  {
    forall idx: nat
      ensures RowTaken(l)(idx) == if idx == l.line then l.accepted.value else 0
    {
      assert RowTaken(l)(idx) == TakenOf(idx)(l);
    }
    WorthOne(order.lines, RowTaken(l), l.line, |order.lines|);
  }

  lemma {:induction false} RowsWorth(order: Order, r: Return, rows: seq<ReturnLine>)
    requires IsReceived(r.status) && forall k :: 0 <= k < |rows| ==> RowFits(order, r, rows[k])
    ensures Worth(order.lines, RowsTaken(rows), |order.lines|) == Total(GrossLine(), rows)
  {
    var n := |order.lines|;
    if rows == [] {
      WorthZero(order.lines, RowsTaken(rows), n);
    } else {
      hide RowFits;
      var front, l := rows[..|rows| - 1], rows[|rows| - 1];
      RowsWorth(order, r, front);
      RowWorth(order, r, l);
      WorthSum(order.lines, RowsTaken(front), RowTaken(l), RowsTaken(rows), n);
    }
  }

  lemma ReturnWorth(order: Order, r: Return, o: nat)
    requires r.order == o ==> forall k :: 0 <= k < |r.lines| ==> RowFits(order, r, r.lines[k])
    ensures Worth(order.lines, ReturnTaken(r, o), |order.lines|) == BackFor(o)(r)
  {
    hide RowFits;
    forall idx: nat
      ensures ReturnTaken(r, o)(idx) == if r.order == o && IsReceived(r.status) then RowsTaken(r.lines)(idx) else 0
    {
      assert ReturnTaken(r, o)(idx) == TakenFor(o, idx)(r);
    }
    if r.order == o && IsReceived(r.status) {
      RowsWorth(order, r, r.lines);
      WorthAtMost(order.lines, ReturnTaken(r, o), RowsTaken(r.lines), |order.lines|);
      WorthAtMost(order.lines, RowsTaken(r.lines), ReturnTaken(r, o), |order.lines|);
    } else {
      WorthZero(order.lines, ReturnTaken(r, o), |order.lines|);
    }
  }

  /** The price of all that came back is the worth of the quantities that came back. */
  lemma {:induction false} BackIsWorth(order: Order, requests: seq<Return>, o: nat)
    requires forall r, k :: 0 <= r < |requests| && requests[r].order == o && 0 <= k < |requests[r].lines| ==>
               RowFits(order, requests[r], requests[r].lines[k])
    ensures Worth(order.lines, AllTaken(requests, o), |order.lines|) == Back(requests, o)
  {
    var n := |order.lines|;
    if requests == [] {
      WorthZero(order.lines, AllTaken(requests, o), n);
    } else {
      hide RowFits, BackFor, TakenFor;
      var front, r := requests[..|requests| - 1], requests[|requests| - 1];
      BackIsWorth(order, front, o);
      ReturnWorth(order, r, o);
      WorthSum(order.lines, AllTaken(front, o), ReturnTaken(r, o), AllTaken(requests, o), n);
    }
  }

  lemma RowsOfReturn(s: State, o: nat)
    requires ReturnInv(s) && o < |s.orders|
    ensures forall r, k :: 0 <= r < |s.requests| && s.requests[r].order == o && 0 <= k < |s.requests[r].lines| ==>
              RowFits(s.orders[o], s.requests[r], s.requests[r].lines[k])
  {
    hide RowFits, OneActive, LimitsHold;
    forall r, k | 0 <= r < |s.requests| && s.requests[r].order == o && 0 <= k < |s.requests[r].lines|
      ensures RowFits(s.orders[o], s.requests[r], s.requests[r].lines[k])
    {
      assert ReturnFits(s.orders, s.requests[r]);
    }
  }

  /** What came back counts as returned. */
  lemma TakenAtMostPrior(s: State, o: nat, idx: nat)
    requires ReturnInv(s)
    ensures Taken(s.requests, o, idx) <= Prior(s.requests, o, idx)
  {
    hide OneActive, LimitsHold;
    forall r | 0 <= r < |s.requests|
      ensures TakenFor(o, idx)(s.requests[r]) <= CountedFor(o, idx)(s.requests[r])
    {
      assert ReturnFits(s.orders, s.requests[r]);
      TakenAtMostCounted(s.orders, s.requests[r], o, idx);
    }
    TotalAtMost(TakenFor(o, idx), s.requests, CountedFor(o, idx), s.requests);
  }

  lemma TakenAtMostCounted(orders: seq<Order>, x: Return, o: nat, idx: nat)
    requires ReturnFits(orders, x)
    ensures TakenFor(o, idx)(x) <= CountedFor(o, idx)(x)
  {
    RequestedNonnegative(x.lines, idx);
    if IsReceived(x.status) {
      assert forall k :: 0 <= k < |x.lines| ==> RowFits(orders[x.order], x, x.lines[k]);
      TotalAtMost(TakenOf(idx), x.lines, AcceptedOf(idx), x.lines);
    }
  }

  // ----- orders whose subtotal is the sum of their lines

  function LinePrice(): Line -> int {
    (l: Line) => l.unitPrice * l.quantity
  }

  predicate Priced(order: Order) {
    order.subtotal == Total(LinePrice(), order.lines)
  }

  function Bought(lines: seq<Line>): nat -> int {
    (idx: nat) => if idx < |lines| then lines[idx].quantity else 0
  }

  lemma {:induction false} WorthOfAll(lines: seq<Line>, n: nat)
    requires n <= |lines|
    ensures Worth(lines, Bought(lines), n) == Total(LinePrice(), lines[..n])
  {
    if n > 0 {
      WorthOfAll(lines, n - 1);
      assert lines[..n][..n - 1] == lines[..n - 1];
    }
  }

  /** Every line of the order was accepted back in full. */
  ghost predicate AllBackFor(s: State, o: nat)
    requires o < |s.orders|
  {
    var lines := s.orders[o].lines;
    forall idx :: 0 <= idx < |lines| ==> Taken(s.requests, o, idx) == lines[idx].quantity
  }

  // ----- runs of checkouts that send the sum of their lines

  /** The cart sends the sum of its lines, gifts included, as its subtotal. */
  predicate CartsPriced(actions: seq<Action>) {
    forall k :: 0 <= k < |actions| && actions[k].ACreate? ==>
      actions[k].c.subtotal == Total(LinePrice(), actions[k].c.lines)
  }

  ghost predicate AllPriced(orders: seq<Order>) {
    forall o :: 0 <= o < |orders| ==> Priced(orders[o])
  }

  lemma NewOrderPriced(s: State, user: Id, c: Checkout, now: int)
    requires CreateOrder(s, user, c, now).Done? && AllPriced(s.orders) && c.subtotal == Total(LinePrice(), c.lines)
    ensures AllPriced(CreateOrder(s, user, c, now).state.orders)
  {
    hide Total, Reserve, VoucherUsable, Discount, Replayed, Insertable;
  }

  /** Only a checkout adds an order. */
  lemma OnlyCheckoutAdds(s: State, a: Action)
    requires Execute(s, a).Done? && !a.ACreate?
    ensures |Execute(s, a).state.orders| == |s.orders|
  {
    hide Transition, Cancelling, PickLines, GiftRule, Available, HasActive, ValidPicks;
    hide Paid, Merchandise, RestockAll, ReceivedLines, Refund, ExactChoices, CompleteWaiting;
    if a.APayment? {
      OrderKeepsStatus(s, a.order);
    } else if a.AStatus? {
      OrderKeepsStatus(s, a.order);
    }
  }

  lemma ApplyPriced(s: State, a: Action)
    requires Inv(s) && AllPriced(s.orders)
    requires a.ACreate? ==> a.c.subtotal == Total(LinePrice(), a.c.lines)
    ensures AllPriced(Apply(s, a).orders)
  {
    hide Inv, Total, CreateOrder;
    ApplyKeeps(s, a);
    if Execute(s, a).Done? {
      if a.ACreate? {
        NewOrderPriced(s, a.user, a.c, a.now);
      } else {
        hide Execute;
        OnlyCheckoutAdds(s, a);
        LaterPriced(s, Apply(s, a));
      }
    }
  }

  lemma LaterPriced(s: State, t: State)
    requires Later(s, t) && |t.orders| == |s.orders| && AllPriced(s.orders)
    ensures AllPriced(t.orders)
  {
    hide Total;
    forall o | 0 <= o < |t.orders|
      ensures Priced(t.orders[o])
    {
      assert OrderLater(s.orders[o], t.orders[o]);
    }
  }

  lemma {:induction false} RunPriced(s: State, actions: seq<Action>)
    requires Opening(s) && CartsPriced(actions)
    ensures AllPriced(Run(s, actions).orders)
  {
    if actions != [] {
      hide Inv, Apply, AllPriced, Total;
      var before, a := actions[..|actions| - 1], actions[|actions| - 1];
      assert forall k :: 0 <= k < |before| ==> before[k] == actions[k];
      OpeningInv(s);
      RunKeeps(s, before);
      RunPriced(s, before);
      ApplyPriced(Run(s, before), a);
    }
  }

  lemma PricedAt(orders: seq<Order>, o: nat)
    requires AllPriced(orders) && o < |orders|
    ensures Priced(orders[o])
  {
  }

  /** No order gets more goods accepted back than it bought; their price is its subtotal once every line came back. */
  lemma BackAtMostSubtotal(s: State, o: nat)
    requires ReturnInv(s) && o < |s.orders| && Priced(s.orders[o])
    ensures Back(s.requests, o) <= s.orders[o].subtotal
    ensures AllBackFor(s, o) ==> Back(s.requests, o) == s.orders[o].subtotal
  {
    hide RowFits, Prior, Taken, Back, ReturnsFit, OneActive;
    var lines := s.orders[o].lines;
    RowsOfReturn(s, o);
    BackIsWorth(s.orders[o], s.requests, o);
    WorthOfAll(lines, |lines|);
    assert lines[..|lines|] == lines;
    forall idx: nat | idx < |lines|
      ensures AllTaken(s.requests, o)(idx) <= Bought(lines)(idx)
    {
      TakenAtMostPrior(s, o, idx);
      assert QuantityFits(s, o, idx);
    }
    WorthAtMost(lines, AllTaken(s.requests, o), Bought(lines), |lines|);
    if AllBackFor(s, o) {
      WorthAtMost(lines, Bought(lines), AllTaken(s.requests, o), |lines|);
    }
  }

  /**
  An order of which every line was accepted back, in n returns, in a run whose carts send the sum of their
  lines: the refunds are what the goods cost, or short of it by n / 2 hundredths at most, namely by what the
  rounded shares fall short of it.
   */
  lemma {:induction false} WhollyReturned(s: State, actions: seq<Action>, o: nat)
    requires Opening(s) && CartsPriced(actions) && o < |Run(s, actions).orders|
    requires AllBackFor(Run(s, actions), o)
    ensures var t := Run(s, actions);
            var order := t.orders[o];
            var a, shares := Approved(t.requests, o), RoundedShares(t.requests, order, o);
            && a == Min(Merchandise(order), shares)
            && 0 <= 2 * (Merchandise(order) - a) <= Receipts(t.requests, o)
  {
    hide *;
    var t := Run(s, actions);
    OpeningInv(s);
    RunKeeps(s, actions);
    RunPriced(s, actions);
    PricedAt(t.orders, o);
    InvReturns(t);
    RefundsAreExact(s, actions, o);
    BackAtMostSubtotal(t, o);
    SharesNear(t.requests, t.orders[o], o);
    NoReceiptsBelow(t.requests, o);
    NoSharesBelow(t.requests, t.orders[o], o);
    ShortBy(t.orders[o], RoundedShares(t.requests, t.orders[o], o), Back(t.requests, o), Receipts(t.requests, o));
  }

  lemma InvReturns(s: State)
    requires Inv(s)
    ensures ReturnInv(s)
  {
    hide OrderInv, ReturnInv;
  }

  lemma NoSharesBelow(requests: seq<Return>, order: Order, o: nat)
    ensures RoundedShares(requests, order, o) >= 0
  {
    hide Share, AcceptedPrice;
    TotalBounds(ShareFor(order, o), requests);
  }

  lemma ShortBy(order: Order, shares: int, back: int, n: int)
    requires Within(shares, back * Merchandise(order), order.subtotal, n)
    requires back == order.subtotal && n >= 0 && shares >= 0
    ensures 0 <= 2 * (Merchandise(order) - Min(Merchandise(order), shares)) <= n
  {
    var d, kept := order.subtotal, Merchandise(order);
    if d > 0 && shares < kept {
      assert (2 * (kept - shares)) * d == 2 * (d * kept) - 2 * (shares * d);
      CancelFactor(2 * (kept - shares), n, d);
    }
  }

  // ----- rows

  lemma BackAfterReceipt(requests: seq<Return>, r: nat, y: Return)
    requires r < |requests| && y.order == requests[r].order && !IsReceived(requests[r].status) && IsReceived(y.status)
    ensures Back(requests[r := y], y.order) == Back(requests, y.order) + AcceptedPrice(y.lines)
  {
    hide Total, AcceptedPrice;
    TotalUpdate(BackFor(y.order), requests, r, y);
  }

  lemma BackNonnegative(requests: seq<Return>, o: nat)
    ensures Back(requests, o) >= 0 && Receipts(requests, o) >= 0
  {
    hide AcceptedPrice;
    TotalBounds(BackFor(o), requests);
    TotalBounds(ReceiptFor(o), requests);
  }

  /** The amount of a receipt, limited or not, is near its share. */
  lemma AmountNear(s: State, r: nat, choices: seq<Choice>, provider: bool)
    requires Inv(s) && AllExact(s) && r < |s.requests| && s.requests[r].status == AskApproved
    requires Receive(s, r, choices, provider).Done?
    requires s.requests[r].order < |s.orders| && Priced(s.orders[s.requests[r].order])
    requires forall k :: 0 <= k < |s.requests[r].lines| ==> k in ChoiceMap(choices)
    ensures var x, m := s.requests[r], ChoiceMap(choices);
            var order := s.orders[x.order];
            Within(Refund(s, r, m), AcceptedGross(x.lines, m, |x.lines|) * Merchandise(order), order.subtotal,
                   Receipts(s.requests, x.order) + 1)
  {
    hide Inv, Receive, Refund, AcceptedGross, Share, Within, Back, Receipts, RoundedShares, Approved;
    hide AcceptedPrice, ChoiceMap;
    hide Priced, Merchandise;
    var x, m := s.requests[r], ChoiceMap(choices);
    var o, order := x.order, s.orders[x.order];
    var t := Receive(s, r, choices, provider).state;
    var gross := AcceptedGross(x.lines, m, |x.lines|);
    ReceivedReturn(s, r, choices, provider);
    ApprovedLines(s, r);
    BackAfterReceipt(s.requests, r, t.requests[r]);
    ReceiveStep(s, r, choices, provider);
    GoodInv(s, t);
    InvReturns(t);
    BackAtMostSubtotal(t, o);
    RefundIs(s, r, m);
    ExactAt(s, o);
    SharesNear(s.requests, order, o);
    ShareWithin(gross, order.subtotal, order.discount);
    BackNonnegative(s.requests, o);
    MerchandiseIs(order);
    LimitedNear(Merchandise(order), RoundedShares(s.requests, order, o), Back(s.requests, o), gross, order.subtotal,
      Receipts(s.requests, o), Share(gross, order.subtotal, order.discount));
  }

  lemma MerchandiseIs(order: Order)
    ensures Merchandise(order) == Max(order.subtotal - order.discount, 0) >= 0
  {
  }

  /**
  When goods come in, in any run whose carts send the sum of their lines, every accepted row gets its share
  in what was paid, up to half a hundredth for each accepted row and for each earlier return of the order,
  whether or not the refund is limited by what is left of the order; a rejected row gets nothing.
   */
  lemma RowsAreFair(s: State, actions: seq<Action>, r: nat, choices: seq<Choice>, provider: bool, k: nat)
    requires Opening(s) && CartsPriced(actions) && r < |Run(s, actions).requests|
    requires var t := Run(s, actions);
             var x := t.requests[r];
             x.status == AskApproved && Receive(t, r, choices, provider).Done? && k < |x.lines|
    ensures var t := Run(s, actions);
            var x, m := t.requests[r], ChoiceMap(choices);
            && x.order < |t.orders|
            && var order := t.orders[x.order];
            && (forall j :: 0 <= j < |x.lines| ==> j in m)
            && var u := Receive(t, r, choices, provider).state;
            && r < |u.requests| && k < |u.requests[r].lines|
            && var row := u.requests[r].lines[k];
            if m[k] == Rejected then row.refund == 0
            else Within(row.refund, x.lines[k].gross * Merchandise(order), order.subtotal,
                        Receipts(t.requests, x.order) + Rank(m, |x.lines|))
  {
    hide Run, Inv, AllExact, Opening, Within, AcceptedGross, Refund, Rank, Receipts, Priced, Merchandise, ChoiceMap;
    hide CartsPriced, AllPriced, Closed;
    hide ReceivedLines, ExactChoices, RestockAll;
    var t := Run(s, actions);
    OpeningInv(s);
    OpeningExact(s);
    RunKeeps(s, actions);
    RunExact(s, actions);
    var x, m := t.requests[r], ChoiceMap(choices);
    AwaitingIsReceived(t, r);
    RunPriced(s, actions);
    PricedAt(t.orders, x.order);
    ExactCovered(choices, |x.lines|);
    AmountNear(t, r, choices, provider);
    BackNonnegative(t.requests, x.order);
    if t.orders[x.order].subtotal > 0 {
      RowsNear(t.orders[x.order], x.lines, m, Refund(t, r, m), Receipts(t.requests, x.order) + 1, k);
    } else {
      RowIs(t.orders[x.order], x.lines, m, Refund(t, r, m), k);
      var row := Receive(t, r, choices, provider).state.requests[r].lines[k];
      var n := Receipts(t.requests, x.order) + Rank(m, |x.lines|);
      NothingToShare(t.orders[x.order], row.refund, x.lines[k].gross, n);
    }
  }

  lemma NothingToShare(order: Order, a: int, gross: nat, n: int)
    requires order.subtotal == 0
    ensures Within(a, gross * Merchandise(order), order.subtotal, n)
  {
  }

  lemma ExactCovered(choices: seq<Choice>, n: nat)
    ensures ExactChoices(choices, n) ==> forall k :: 0 <= k < n ==> k in ChoiceMap(choices)
  {
    hide ChoiceMap;
  }
}
