/**
Return requests: at most one is open per order, no line goes back more often than it was bought, no order
gets more refunded through them than its goods cost, and the refunds of the items always add up to the approved amount.
 */
module ShopReturns {
  import opened Basics
  import opened Totals
  import opened ShopState
  import opened ShopMoney
  import opened ShopTransactions
  import opened ShopInvariants

  // ----- the invariants of returns

  /** The goods of a return have come in and been classified. */
  predicate IsReceived(status: ReturnStatus) {
    status != AskPending && status != AskApproved && status != AskRejected
  }

  /** The goods are in, and the refund is still to be made. */
  predicate IsWaiting(r: Return) { IsReceived(r.status) && r.status != AskCompleted }

  function RefundOf(): ReturnLine -> int {
    (l: ReturnLine) => l.refund
  }

  /** A row is classified when the goods come in, and then counts in full or not at all. */
  predicate Classified(received: bool, l: ReturnLine) {
    if received then
      && l.accepted.Some? && l.disposition.Some?
      && l.accepted.value == if l.disposition.value == Rejected then 0 else l.requested
    else l.accepted == None && l.disposition == None
  }

  ghost predicate RowFits(order: Order, r: Return, l: ReturnLine) {
    && l.line < |order.lines| && l.variant == order.lines[l.line].variant
    && l.gross == order.lines[l.line].unitPrice * l.requested
    && Classified(IsReceived(r.status), l)
    && 0 <= l.refund
  }

  predicate Closed(o: Order) {
    (o.status == Delivered || o.status == Refunded) && o.inventory == Committed
  }

  ghost predicate ReturnFits(orders: seq<Order>, r: Return) {
    && r.order < |orders| && Closed(orders[r.order])
    && (forall k :: 0 <= k < |r.lines| ==> RowFits(orders[r.order], r, r.lines[k]))
    && r.approved >= 0 && (r.transfer.Some? ==> r.status == AskCompleted)
    && (!IsReceived(r.status) ==> r.approved == 0 && !r.awaiting)
    && (IsReceived(r.status) ==> Total(RefundOf(), r.lines) == r.approved)
  }

  ghost predicate ReturnsFit(s: State) {
    forall r :: 0 <= r < |s.requests| ==> ReturnFits(s.orders, s.requests[r])
  }

  ghost predicate OneActive(requests: seq<Return>) {
    forall i, j :: 0 <= i < j < |requests| && requests[i].order == requests[j].order ==>
      !(IsActive(requests[i]) && IsActive(requests[j]))
  }

  ghost predicate QuantityFits(s: State, o: nat, idx: nat)
    requires o < |s.orders| && idx < |s.orders[o].lines|
  {
    Prior(s.requests, o, idx) <= s.orders[o].lines[idx].quantity
  }

  ghost predicate MoneyFits(s: State, o: nat)
    requires o < |s.orders|
  {
    Approved(s.requests, o) <= Merchandise(s.orders[o])
  }

  ghost predicate LimitsHold(s: State) {
    && (forall o, idx :: 0 <= o < |s.orders| && 0 <= idx < |s.orders[o].lines| ==> QuantityFits(s, o, idx))
    && (forall o :: 0 <= o < |s.orders| ==> MoneyFits(s, o))
  }

  ghost predicate ReturnInv(s: State) {
    ReturnsFit(s) && OneActive(s.requests) && LimitsHold(s)
  }

  // ----- steps on orders

  /** Delivered and refunded orders stay what they are for returns. */
  ghost predicate ClosedStay(a: seq<Order>, b: seq<Order>) {
    |a| <= |b| && forall k :: 0 <= k < |a| ==> SameSale(b[k], a[k]) && (Closed(a[k]) ==> Closed(b[k]))
  }

  /** New orders have no returns yet. */
  lemma NoReturnsYet(s: State, o: nat)
    requires ReturnsFit(s) && o >= |s.orders|
    ensures Approved(s.requests, o) == 0
    ensures forall idx: nat :: Prior(s.requests, o, idx) == 0
  {
    assert forall r :: 0 <= r < |s.requests| ==> ReturnFits(s.orders, s.requests[r]);
    TotalZero(ApprovedFor(o), s.requests);
    forall idx: nat
      ensures Prior(s.requests, o, idx) == 0
    {
      TotalZero(CountedFor(o, idx), s.requests);
    }
  }

  lemma OrderStepKeepsReturns(s: State, t: State)
    requires ReturnInv(s) && t.requests == s.requests && ClosedStay(s.orders, t.orders)
    ensures ReturnInv(t)
  {
    hide Prior, Approved, Total, Closed;
    forall r | 0 <= r < |t.requests|
      ensures ReturnFits(t.orders, t.requests[r])
    {
      assert ReturnFits(s.orders, s.requests[r]);
      assert forall k :: 0 <= k < |s.requests[r].lines| ==>
        RowFits(s.orders[s.requests[r].order], s.requests[r], s.requests[r].lines[k]);
    }
    forall o, idx | 0 <= o < |t.orders| && 0 <= idx < |t.orders[o].lines|
      ensures QuantityFits(t, o, idx)
    {
      if o < |s.orders| { assert QuantityFits(s, o, idx); } else { NoReturnsYet(s, o); }
    }
    forall o | 0 <= o < |t.orders|
      ensures MoneyFits(t, o)
    {
      if o < |s.orders| { assert MoneyFits(s, o); } else { NoReturnsYet(s, o); }
    }
  }

  // ----- replacing one return

  /** What replacing a return does to the sums. */
  lemma ReturnSums(requests: seq<Return>, r: nat, y: Return, o: nat)
    requires r < |requests|
    ensures Approved(requests[r := y], o) == Approved(requests, o) - ApprovedFor(o)(requests[r]) + ApprovedFor(o)(y)
    ensures forall idx: nat :: Prior(requests[r := y], o, idx)
              == Prior(requests, o, idx) - CountedFor(o, idx)(requests[r]) + CountedFor(o, idx)(y)
  {
    hide ApprovedFor, CountedFor, Total;
    TotalUpdate(ApprovedFor(o), requests, r, y);
    forall idx: nat
      ensures Prior(requests[r := y], o, idx)
           == Prior(requests, o, idx) - CountedFor(o, idx)(requests[r]) + CountedFor(o, idx)(y)
    {
      TotalUpdate(CountedFor(o, idx), requests, r, y);
    }
  }

  /** The replacement takes up no more goods, and leaves its order enough money. */
  ghost predicate NoMoreThan(s: State, r: nat, y: Return)
    requires r < |s.requests|
  {
    && y.order == s.requests[r].order
    && (forall idx: nat :: CountedFor(y.order, idx)(y) <= CountedFor(y.order, idx)(s.requests[r]))
    && (y.order < |s.orders| ==>
          Approved(s.requests, y.order) - s.requests[r].approved + y.approved <= Merchandise(s.orders[y.order]))
  }

  lemma ReplaceKeepsLimits(s: State, r: nat, y: Return)
    requires r < |s.requests| && LimitsHold(s) && NoMoreThan(s, r, y)
    ensures LimitsHold(WithReturn(s, r, y))
  {
    hide Prior, Approved, Total;
    var t := WithReturn(s, r, y);
    forall o, idx | 0 <= o < |t.orders| && 0 <= idx < |t.orders[o].lines|
      ensures QuantityFits(t, o, idx)
    {
      ReturnSums(s.requests, r, y, o);
      assert QuantityFits(s, o, idx);
    }
    forall o | 0 <= o < |t.orders|
      ensures MoneyFits(t, o)
    {
      ReturnSums(s.requests, r, y, o);
      assert MoneyFits(s, o);
    }
  }

  lemma ReplaceKeeps(s: State, r: nat, y: Return)
    requires r < |s.requests| && ReturnInv(s) && ReturnFits(s.orders, y) && NoMoreThan(s, r, y)
    requires IsActive(y) ==> IsActive(s.requests[r])
    ensures ReturnInv(WithReturn(s, r, y))
  {
    hide LimitsHold, ReturnFits, NoMoreThan, IsActive;
    assert y.order == s.requests[r].order by { SameOrder(s, r, y); }
    ReplaceKeepsLimits(s, r, y);
  }

  lemma SameOrder(s: State, r: nat, y: Return)
    requires r < |s.requests| && NoMoreThan(s, r, y)
    ensures y.order == s.requests[r].order
  {
  }

  /** A change of status among the states after receipt changes nothing that counts. */
  lemma ReceivedStatusKeeps(s: State, r: nat, status: ReturnStatus, awaiting: bool, transfer: Option<string>)
    requires r < |s.requests| && ReturnInv(s)
    requires IsReceived(s.requests[r].status) && IsReceived(status)
    requires s.requests[r].status == AskCompleted ==> status == AskCompleted
    requires transfer.Some? ==> status == AskCompleted
    ensures ReturnInv(WithReturn(s, r, s.requests[r].(status := status, awaiting := awaiting, transfer := transfer)))
  {
    hide Approved, Total, LimitsHold;
    var x := s.requests[r];
    var y := x.(status := status, awaiting := awaiting, transfer := transfer);
    assert ReturnFits(s.orders, x);
    assert forall k :: 0 <= k < |x.lines| ==> RowFits(s.orders[x.order], x, x.lines[k]);
    assert MoneyFits(s, x.order) by { MoneyAt(s, x.order); }
    ReplaceKeeps(s, r, y);
  }

  lemma MoneyAt(s: State, o: nat)
    requires LimitsHold(s) && o < |s.orders|
    ensures MoneyFits(s, o)
  {
  }

  // ----- review

  lemma RequestedNonnegative(lines: seq<ReturnLine>, idx: nat)
    ensures Total(RequestedOf(idx), lines) >= 0
  {
    TotalBounds(RequestedOf(idx), lines);
  }

  lemma ReviewKeeps(s: State, r: nat, approve: bool)
    requires r < |s.requests| && ReturnInv(s) && s.requests[r].status == AskPending
    ensures ReturnInv(WithReturn(s, r, s.requests[r].(status := if approve then AskApproved else AskRejected)))
  {
    hide Approved, Total, LimitsHold;
    var x := s.requests[r];
    var y := x.(status := if approve then AskApproved else AskRejected);
    assert ReturnFits(s.orders, x);
    assert forall k :: 0 <= k < |x.lines| ==> RowFits(s.orders[x.order], x, x.lines[k]);
    MoneyAt(s, x.order);
    forall idx: nat { RequestedNonnegative(x.lines, idx); }
    ReplaceKeeps(s, r, y);
  }

  // ----- asking

  /** The row of line `n - 1`, if it was picked. */
  function PickRow(order: Order, picks: seq<Pick>, n: nat): seq<ReturnLine>
    requires 0 < n <= |order.lines|
  {
    var l, q := order.lines[n - 1], Picked(picks, n - 1);
    if q > 0 then [ReturnLine(n - 1, l.variant, q, l.unitPrice * q, None, None, 0)] else []
  }

  lemma PickUnfold(order: Order, picks: seq<Pick>, n: nat, idx: nat)
    requires n <= |order.lines|
    ensures n == 0 ==> Total(RequestedOf(idx), PickLines(order, picks, n)) == 0
    ensures n > 0 ==> PickLines(order, picks, n) == PickLines(order, picks, n - 1) + PickRow(order, picks, n)
  {
    hide Picked;
  }

  lemma PickRowCounts(order: Order, picks: seq<Pick>, n: nat, idx: nat, front: seq<ReturnLine>)
    requires 0 < n <= |order.lines|
    ensures Total(RequestedOf(idx), front + PickRow(order, picks, n))
         == Total(RequestedOf(idx), front) + (if idx == n - 1 then Picked(picks, idx) else 0)
  {
    hide Picked, Total;
    var row := PickRow(order, picks, n);
    if row == [] {
      assert front + row == front;
    } else {
      assert row == [row[0]];
      TotalSnoc(RequestedOf(idx), front, row[0]);
    }
  }

  /** The rows of a new return ask, line by line, for what was picked. */
  lemma {:induction false} PickTotals(order: Order, picks: seq<Pick>, n: nat, idx: nat)
    requires n <= |order.lines|
    ensures Total(RequestedOf(idx), PickLines(order, picks, n)) == if idx < n then Picked(picks, idx) else 0
  {
    hide *;
    PickUnfold(order, picks, n, idx);
    if n > 0 {
      PickTotals(order, picks, n - 1, idx);
      PickRowCounts(order, picks, n, idx, PickLines(order, picks, n - 1));
    }
  }

  lemma {:induction false} PickedRows(order: Order, picks: seq<Pick>, n: nat)
    requires n <= |order.lines|
    ensures forall k :: 0 <= k < |PickLines(order, picks, n)| ==>
              var l := PickLines(order, picks, n)[k];
              && l.line < n && l.variant == order.lines[l.line].variant && l.refund == 0
              && l.gross == order.lines[l.line].unitPrice * l.requested && Classified(false, l)
  {
    if n > 0 {
      hide Picked;
      PickedRows(order, picks, n - 1);
    }
  }

  lemma AskSums(requests: seq<Return>, y: Return, o: nat)
    ensures Approved(requests + [y], o) == Approved(requests, o) + ApprovedFor(o)(y)
    ensures forall idx: nat :: Prior(requests + [y], o, idx) == Prior(requests, o, idx) + CountedFor(o, idx)(y)
  {
    hide ApprovedFor, CountedFor, Total;
    TotalSnoc(ApprovedFor(o), requests, y);
    forall idx: nat
      ensures Prior(requests + [y], o, idx) == Prior(requests, o, idx) + CountedFor(o, idx)(y)
    {
      TotalSnoc(CountedFor(o, idx), requests, y);
    }
  }

  lemma AskKeepsLimits(s: State, o: nat, picks: seq<Pick>, y: Return)
    requires o < |s.orders| && LimitsHold(s) && Available(s, o, picks)
    requires y == NewReturn(s.orders[o], o, picks)
    ensures LimitsHold(s.(requests := s.requests + [y]))
  {
    hide Prior, Approved, Total, PickLines, Picked;
    var t := s.(requests := s.requests + [y]);
    forall p, idx | 0 <= p < |t.orders| && 0 <= idx < |t.orders[p].lines|
      ensures QuantityFits(t, p, idx)
    {
      AskSums(s.requests, y, p);
      PickTotals(s.orders[o], picks, |s.orders[o].lines|, idx);
      assert QuantityFits(s, p, idx);
    }
    forall p | 0 <= p < |t.orders|
      ensures MoneyFits(t, p)
    {
      AskSums(s.requests, y, p);
      assert MoneyFits(s, p);
    }
  }

  lemma AskKeeps(s: State, o: nat, user: Id, picks: seq<Pick>, inTime: bool, images: nat)
    requires ReturnInv(s) && AskReturn(s, o, user, picks, inTime, images).Done?
    requires o < |s.orders| ==> StatusFits(s.orders[o])
    ensures ReturnInv(AskReturn(s, o, user, picks, inTime, images).state)
  {
    hide LimitsHold, Available, GiftRule, PickLines, Total;
    var t := AskReturn(s, o, user, picks, inTime, images).state;
    var y := t.requests[|s.requests|];
    AskKeepsLimits(s, o, picks, y);
    PickedRows(s.orders[o], picks, |s.orders[o].lines|);
    assert ReturnFits(s.orders, y);
    forall r | 0 <= r < |t.requests|
      ensures ReturnFits(t.orders, t.requests[r])
    {
      if r < |s.requests| { assert ReturnFits(s.orders, s.requests[r]); }
    }
  }

  // ----- receiving the goods

  /** The item refunds are not negative and add up to the amount, if any item was accepted. */
  lemma {:induction false} AllocateSums(shares: seq<nat>, amount: nat)
    ensures shares != [] ==> SumNat(Allocate(shares, amount)) == amount
    ensures forall k :: 0 <= k < |shares| - 1 ==> Allocate(shares, amount)[k] <= shares[k]
  {
    if |shares| > 1 {
      var part := Min(shares[0], amount);
      AllocateSums(shares[1..], amount - part);
      var rest := Allocate(shares[1..], amount - part);
      assert ([part] + rest)[1..] == rest;
      assert forall k :: 0 < k < |shares| - 1 ==> shares[k] == shares[1..][k - 1] && ([part] + rest)[k] == rest[k - 1];
    } else if |shares| == 1 {
      assert [amount][1..] == [];
    }
  }

  function SumNat(s: seq<nat>): nat {
    if s == [] then 0 else s[0] + SumNat(s[1..])
  }

  lemma {:induction false} SumNatSnoc(s: seq<nat>, n: nat)
    requires n < |s|
    ensures SumNat(s[..n + 1]) == SumNat(s[..n]) + s[n]
  {
    if n == 0 {
      assert s[..1] == [s[0]] && s[..0] == [];
    } else {
      assert s[..n + 1][1..] == s[1..][..n] && s[..n][1..] == s[1..][..n - 1];
      SumNatSnoc(s[1..], n - 1);
    }
  }

  lemma {:induction false} RankOfAll(order: Order, lines: seq<ReturnLine>, choices: map<nat, Disposition>, n: nat)
    requires n <= |lines| && forall k :: 0 <= k < |lines| ==> k in choices
    ensures Rank(choices, n) == |AcceptedShares(order, lines, choices, n)|
  {
    hide Share;
    if n > 0 {
      RankOfAll(order, lines, choices, n - 1);
    }
  }

  lemma {:induction false} RankMonotone(choices: map<nat, Disposition>, k: nat, n: nat)
    requires k <= n && forall j :: 0 <= j < n ==> j in choices
    ensures Rank(choices, k) <= Rank(choices, n)
  {
    if k < n {
      RankMonotone(choices, k, n - 1);
    }
  }

  lemma RowStep(rows: seq<ReturnLine>, parts: seq<nat>, n: nat, k: nat, taken: bool)
    requires n < |rows| && k <= |parts| && (taken ==> k < |parts|)
    requires RefundOf()(rows[n]) == if taken then parts[k] else 0
    requires Total(RefundOf(), rows[..n]) == SumNat(parts[..k])
    ensures Total(RefundOf(), rows[..n + 1]) == SumNat(parts[..if taken then k + 1 else k])
  {
    hide *;
    assert rows[..n + 1] == rows[..n] + [rows[n]];
    TotalSnoc(RefundOf(), rows[..n], rows[n]);
    if taken {
      SumNatSnoc(parts, k);
    }
  }

  lemma RankStep(choices: map<nat, Disposition>, n: nat)
    requires forall j :: 0 <= j < n + 1 ==> j in choices
    ensures Rank(choices, n + 1) == Rank(choices, n) + (if choices[n] == Rejected then 0 else 1)
  {
  }

  /** Handing the parts to the accepted rows in order uses up the first `Rank` of them. */
  lemma {:induction false} PartsGivenOut(
      order: Order, lines: seq<ReturnLine>, choices: map<nat, Disposition>, amount: nat, n: nat)
    requires n <= |lines| && forall k :: 0 <= k < |lines| ==> k in choices
    ensures var parts := Allocate(AcceptedShares(order, lines, choices, |lines|), amount);
            && Rank(choices, n) <= |parts|
            && Total(RefundOf(), ReceivedLines(order, lines, choices, amount)[..n]) == SumNat(parts[..Rank(choices, n)])
  {
    hide *;
    var parts := Allocate(AcceptedShares(order, lines, choices, |lines|), amount);
    var rows := ReceivedLines(order, lines, choices, amount);
    RankOfAll(order, lines, choices, |lines|);
    RankMonotone(choices, n, |lines|);
    if n == 0 {
      EmptyTotals(choices);
      assert parts[..0] == [] && rows[..0] == [];
    } else {
      PartsGivenOut(order, lines, choices, amount, n - 1);
      RowRefund(order, lines, choices, amount, n - 1);
      RankStep(choices, n - 1);
      RowStep(rows, parts, n - 1, Rank(choices, n - 1), choices[n - 1] != Rejected);
    }
  }

  lemma EmptyTotals(choices: map<nat, Disposition>)
    ensures Total(RefundOf(), []) == 0 && SumNat([]) == 0 && Rank(choices, 0) == 0
  {
  }

  lemma {:induction false} RowIs(order: Order, lines: seq<ReturnLine>, m: map<nat, Disposition>, amount: nat, k: nat)
    requires k < |lines| && forall j :: 0 <= j < |lines| ==> j in m
    ensures var parts := Allocate(AcceptedShares(order, lines, m, |lines|), amount);
            && (m[k] != Rejected ==> Rank(m, k) < |parts|)
            && ReceivedLines(order, lines, m, amount)[k]
               == ReceivedLine(lines[k], m[k], if m[k] == Rejected then 0 else parts[Rank(m, k)])
  {
    hide Allocate, AcceptedShares, ReceivedLine;
    RankOfAll(order, lines, m, |lines|);
    RankMonotone(m, k + 1, |lines|);
  }

  lemma RowRefund(order: Order, lines: seq<ReturnLine>, choices: map<nat, Disposition>, amount: nat, k: nat)
    requires k < |lines| && forall j :: 0 <= j < |lines| ==> j in choices
    ensures var parts := Allocate(AcceptedShares(order, lines, choices, |lines|), amount);
            && (choices[k] != Rejected ==> Rank(choices, k) < |parts|)
            && RefundOf()(ReceivedLines(order, lines, choices, amount)[k])
               == if choices[k] == Rejected then 0 else parts[Rank(choices, k)]
  {
    hide Allocate, AcceptedShares, ReceivedLines, Rank;
    RowIs(order, lines, choices, amount, k);
  }

  lemma {:induction false} NothingAccepted(order: Order, lines: seq<ReturnLine>, choices: map<nat, Disposition>, n: nat)
    requires n <= |lines| && forall k :: 0 <= k < |lines| ==> k in choices
    ensures AcceptedShares(order, lines, choices, n) == [] ==> AcceptedGross(lines, choices, n) == 0
  {
    hide Share;
    if n > 0 {
      NothingAccepted(order, lines, choices, n - 1);
    }
  }

  lemma ShareOfNothing(subtotal: nat, discount: nat)
    ensures Share(0, subtotal, discount) == 0
  {
  }

  /** The refunds of the received rows add up to the refund of the return. */
  lemma {:induction false} ReceivedRefunds(s: State, r: nat, choices: map<nat, Disposition>)
    requires r < |s.requests| && s.requests[r].order < |s.orders|
    requires forall k :: 0 <= k < |s.requests[r].lines| ==> k in choices
    ensures var x := s.requests[r];
            var amount := Refund(s, r, choices);
            Total(RefundOf(), ReceivedLines(s.orders[x.order], x.lines, choices, amount)) == amount
  {
    hide Share, Allocate, AcceptedShares, AcceptedGross, Paid, Merchandise, ReceivedLines;
    var x := s.requests[r];
    var order := s.orders[x.order];
    var n := |x.lines|;
    var amount := Refund(s, r, choices);
    var shares := AcceptedShares(order, x.lines, choices, n);
    var parts := Allocate(shares, amount);
    PartsGivenOut(order, x.lines, choices, amount, n);
    RankOfAll(order, x.lines, choices, n);
    assert parts[..|parts|] == parts;
    var rows := ReceivedLines(order, x.lines, choices, amount);
    assert rows[..n] == rows;
    AllocateSums(shares, amount);
    if shares == [] {
      NothingAccepted(order, x.lines, choices, n);
      ShareOfNothing(order.subtotal, order.discount);
      assert parts == [] && SumNat([]) == 0;
    }
  }

  /** Nothing that was received counts for more than it was asked for. */
  lemma {:induction false} ReceivedCounts(
      order: Order, lines: seq<ReturnLine>, choices: map<nat, Disposition>, amount: nat, idx: nat)
    requires forall k :: 0 <= k < |lines| ==> k in choices
    ensures Total(AcceptedOf(idx), ReceivedLines(order, lines, choices, amount)) <= Total(RequestedOf(idx), lines)
  {
    hide Allocate, AcceptedShares, Rank;
    TotalAtMost(AcceptedOf(idx), ReceivedLines(order, lines, choices, amount), RequestedOf(idx), lines);
  }

  /** While a return is being received, all other returns of its order are settled. */
  lemma PaidIsApproved(s: State, r: nat)
    requires r < |s.requests| && ReturnInv(s) && s.requests[r].status == AskApproved
    ensures Paid(s.requests, s.requests[r].order) == Approved(s.requests, s.requests[r].order)
  {
    var o := s.requests[r].order;
    forall k | 0 <= k < |s.requests|
      ensures PaidFor(o)(s.requests[k]) == ApprovedFor(o)(s.requests[k])
    {
      assert ReturnFits(s.orders, s.requests[k]);
      assert k < r ==> !(s.requests[k].order == o && IsActive(s.requests[k]) && IsActive(s.requests[r]));
      assert k > r ==> !(s.requests[k].order == o && IsActive(s.requests[r]) && IsActive(s.requests[k]));
    }
    TotalSame(PaidFor(o), ApprovedFor(o), s.requests);
  }

  /** What is paid out was approved. */
  lemma PaidBelow(s: State, o: nat)
    requires ReturnsFit(s)
    ensures 0 <= Paid(s.requests, o) <= Approved(s.requests, o)
  {
    forall r | 0 <= r < |s.requests|
      ensures 0 <= PaidFor(o)(s.requests[r]) <= ApprovedFor(o)(s.requests[r])
    {
      assert ReturnFits(s.orders, s.requests[r]);
    }
    TotalAtMost(PaidFor(o), s.requests, ApprovedFor(o), s.requests);
    TotalBounds(PaidFor(o), s.requests);
  }

  lemma ReceivedRowsFit(order: Order, x: Return, choices: map<nat, Disposition>, amount: nat, y: Return)
    requires forall k :: 0 <= k < |x.lines| ==> k in choices && RowFits(order, x, x.lines[k])
    requires y.lines == ReceivedLines(order, x.lines, choices, amount) && IsReceived(y.status)
    ensures forall k :: 0 <= k < |y.lines| ==> RowFits(order, y, y.lines[k])
  {
    hide Allocate, AcceptedShares, Rank;
    forall k | 0 <= k < |y.lines|
      ensures RowFits(order, y, y.lines[k])
    {
      assert RowFits(order, x, x.lines[k]);
    }
  }

  lemma ReceiveKeeps(s: State, r: nat, m: map<nat, Disposition>, y: Return)
    requires r < |s.requests| && ReturnInv(s) && s.requests[r].status == AskApproved
    requires s.requests[r].order < |s.orders|
    requires forall k :: 0 <= k < |s.requests[r].lines| ==> k in m
    requires y.order == s.requests[r].order && y.approved == Refund(s, r, m) && IsReceived(y.status)
    requires y.lines == ReceivedLines(s.orders[y.order], s.requests[r].lines, m, Refund(s, r, m))
    requires y.transfer == s.requests[r].transfer
    ensures ReturnInv(WithReturn(s, r, y))
  {
    hide ReceivedLines, Total, LimitsHold, Paid, Approved, Share, AcceptedGross, OneActive;
    var x := s.requests[r];
    assert ReturnFits(s.orders, x);
    MoneyAt(s, x.order);
    PaidIsApproved(s, r);
    ReceivedRefunds(s, r, m);
    ReceivedRowsFit(s.orders[x.order], x, m, y.approved, y);
    forall idx: nat
      ensures CountedFor(y.order, idx)(y) <= CountedFor(y.order, idx)(x)
    {
      ReceivedCounts(s.orders[x.order], x.lines, m, y.approved, idx);
    }
    assert NoMoreThan(s, r, y);
    ReplaceKeeps(s, r, y);
  }

  // ----- goods that come back into the stock

  lemma RestockSums(requests: seq<Return>, r: nat, y: Return, v: Id)
    requires r < |requests|
    ensures Restocked(requests[r := y], v) == Restocked(requests, v) - RestockBy(v)(requests[r]) + RestockBy(v)(y)
  {
    TotalUpdate(RestockBy(v), requests, r, y);
  }

  lemma NothingRestocked(orders: seq<Order>, x: Return, v: Id)
    requires ReturnFits(orders, x) && !IsReceived(x.status)
    ensures RestockBy(v)(x) == 0
  {
    forall k | 0 <= k < |x.lines|
      ensures RestockLine(v)(x.lines[k]) == 0
    {
      assert RowFits(orders[x.order], x, x.lines[k]);
    }
    TotalZero(RestockLine(v), x.lines);
  }

  lemma RestockNonnegative(lines: seq<ReturnLine>, v: Id)
    ensures Total(RestockLine(v), lines) >= 0
  {
    TotalBounds(RestockLine(v), lines);
  }

  // ----- refunds reported with the payment

  /** `f` looks at a return after receipt no further than its order, rows and amount. */
  ghost predicate BlindToStatus(f: Return -> int) {
    forall x: Return, status: ReturnStatus {:trigger x.(status := status)} ::
      IsReceived(x.status) && IsReceived(status) ==> f(x.(status := status)) == f(x)
  }

  lemma {:induction false} CompleteWaitingSums(requests: seq<Return>, o: nat, f: Return -> int)
    requires BlindToStatus(f)
    ensures Total(f, CompleteWaiting(requests, o)) == Total(f, requests)
  {
    if requests != [] {
      var n := |requests| - 1;
      CompleteWaitingSums(requests[..n], o, f);
      assert CompleteWaiting(requests, o)[..n] == CompleteWaiting(requests[..n], o);
      assert CompleteWaiting(requests, o)[n] == requests[n].(status := CompleteWaiting(requests, o)[n].status);
    }
  }

  lemma CompleteWaitingKeeps(s: State, o: nat)
    requires ReturnInv(s)
    ensures ReturnInv(s.(requests := CompleteWaiting(s.requests, o)))
    ensures forall v :: Restocked(CompleteWaiting(s.requests, o), v) == Restocked(s.requests, v)
  {
    hide Total;
    var t := s.(requests := CompleteWaiting(s.requests, o));
    forall r | 0 <= r < |t.requests|
      ensures ReturnFits(t.orders, t.requests[r])
    {
      var x := s.requests[r];
      assert ReturnFits(s.orders, x);
      assert forall k :: 0 <= k < |x.lines| ==> RowFits(s.orders[x.order], x, x.lines[k]);
    }
    forall p: nat
      ensures Approved(t.requests, p) == Approved(s.requests, p)
    {
      CompleteWaitingSums(s.requests, o, ApprovedFor(p));
    }
    forall p: nat, idx: nat
      ensures Prior(t.requests, p, idx) == Prior(s.requests, p, idx)
    {
      CompleteWaitingSums(s.requests, o, CountedFor(p, idx));
    }
    forall v
      ensures Restocked(t.requests, v) == Restocked(s.requests, v)
    {
      CompleteWaitingSums(s.requests, o, RestockBy(v));
    }
    forall p, idx | 0 <= p < |t.orders| && 0 <= idx < |t.orders[p].lines|
      ensures QuantityFits(t, p, idx)
    {
      assert QuantityFits(s, p, idx);
    }
    forall p | 0 <= p < |t.orders|
      ensures MoneyFits(t, p)
    {
      assert MoneyFits(s, p);
    }
  }
}
