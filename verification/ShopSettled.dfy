/**
When an order counts as refunded: unless the payment service reports its payment as refunded, exactly when
its returns have paid back all that its goods cost.
 */
module ShopSettled {
  import opened Basics
  import opened Totals
  import opened ShopState
  import opened ShopMoney
  import opened ShopTransactions
  import opened ShopInvariants
  import opened ShopReturns
  import opened ShopRuns
  import opened ShopRefunds

  // ----- refunds that wait are never nothing

  ghost predicate WaitingPositive(requests: seq<Return>) {
    forall r :: 0 <= r < |requests| && IsWaiting(requests[r]) ==> requests[r].approved > 0
  }

  lemma OtherStepWaits(s: State, t: State)
    requires Later(s, t) && NoReceipt(s, t) && WaitingPositive(s.requests)
    ensures WaitingPositive(t.requests)
  {
    forall r | 0 <= r < |t.requests| && IsWaiting(t.requests[r])
      ensures t.requests[r].approved > 0
    {
      assert RequestLater(s.requests[r], t.requests[r]);
    }
  }

  lemma ReceiptWaits(s: State, r: nat, choices: seq<Choice>, provider: bool)
    requires Inv(s) && WaitingPositive(s.requests) && r < |s.requests| && s.requests[r].status == AskApproved
    requires Receive(s, r, choices, provider).Done?
    ensures WaitingPositive(Receive(s, r, choices, provider).state.requests)
    ensures var y := Receive(s, r, choices, provider).state.requests;
            |y| == |s.requests| && (y[r].status == AskCompleted ==> y[r].approved == 0)
  {
    hide Inv, ReceivedLines, Refund, RestockAll, ExactChoices, ChoiceMap;
  }

  // ----- what has been paid back

  /** Between the states, no return of the order is completed with money. */
  ghost predicate NothingPaid(s: State, t: State, o: nat) {
    forall r :: 0 <= r < |t.requests| && t.requests[r].order == o && t.requests[r].status == AskCompleted ==>
      t.requests[r].approved == 0 || (r < |s.requests| && s.requests[r].status == AskCompleted)
  }

  lemma PaidSame(s: State, t: State, o: nat)
    requires Later(s, t) && NothingPaid(s, t, o)
    ensures Paid(t.requests, o) == Paid(s.requests, o)
  {
    forall r | 0 <= r < |s.requests|
      ensures PaidFor(o)(t.requests[r]) == PaidFor(o)(s.requests[r])
    {
      assert RequestLater(s.requests[r], t.requests[r]);
    }
    TotalExtends(PaidFor(o), s.requests, t.requests);
  }

  ghost predicate StaysUnrefunded(s: State, t: State, o: nat)
    requires o < |t.orders|
  {
    t.orders[o].status == Refunded ==> o < |s.orders| && s.orders[o].status == Refunded
  }

  /** The report that the payment of the order was refunded. */
  predicate IsPayback(a: Action, o: nat) {
    a.APayment? && a.order == o && a.payment == PaidBack
  }

  /** Apart from that report and from the end of a refund, nothing pays and nothing makes an order refunded. */
  lemma PaymentUnrefunded(s: State, o: nat, p: nat, payment: PaymentStatus, want: Option<Status>, settled: bool)
    requires UpdatePayment(s, p, payment, want, settled).Done? && !(p == o && payment == PaidBack)
    requires o < |UpdatePayment(s, p, payment, want, settled).state.orders|
    ensures var t := UpdatePayment(s, p, payment, want, settled).state;
            StaysUnrefunded(s, t, o) && NothingPaid(s, t, o)
  {
    hide Transition, Cancelling;
    OrderKeepsRequests(s, p);
    OrderKeepsStatus(s, p);
  }

  lemma StatusUnrefunded(s: State, o: nat, p: nat, status: Status, payments: seq<Payment>)
    requires UpdateStatus(s, p, status, payments).Done? && o < |UpdateStatus(s, p, status, payments).state.orders|
    ensures var t := UpdateStatus(s, p, status, payments).state;
            StaysUnrefunded(s, t, o) && NothingPaid(s, t, o)
  {
    hide Transition, Cancelling;
    OrderKeepsRequests(s, p);
    OrderKeepsStatus(s, p);
  }

  lemma OrdersUnrefunded(s: State, a: Action, o: nat)
    requires Inv(s) && Execute(s, a).Done? && !IsPayback(a, o) && (a.ACreate? || a.APayment? || a.AStatus?)
    requires o < |Execute(s, a).state.orders|
    ensures StaysUnrefunded(s, Execute(s, a).state, o) && NothingPaid(s, Execute(s, a).state, o)
  {
    hide Inv, Reserve, VoucherUsable, Discount, Replayed, Insertable, UpdatePayment, UpdateStatus;
    hide StaysUnrefunded, NothingPaid;
    if a.APayment? {
      PaymentUnrefunded(s, o, a.order, a.payment, a.want, a.settled);
    } else if a.AStatus? {
      StatusUnrefunded(s, o, a.order, a.status, a.payments);
    } else {
      CreateUnrefunded(s, o, a.user, a.c, a.now);
    }
  }

  lemma CreateUnrefunded(
      s: State, o: nat, user: Id, c: Checkout, now: int)
    requires CreateOrder(s, user, c, now).Done?
    requires o < |CreateOrder(s, user, c, now).state.orders|
    ensures var t := CreateOrder(s, user, c, now).state;
            StaysUnrefunded(s, t, o) && NothingPaid(s, t, o)
  {
    hide Reserve, VoucherUsable, Discount, Replayed, Insertable;
  }

  lemma OrderKeepsStatus(s: State, o: nat)
    ensures o < |s.orders| ==>
              && (Transition(s, o, Committed).Done? ==> SameStatuses(s, Transition(s, o, Committed).state))
              && (Cancelling(s, o).Done? ==> SameStatuses(s, Cancelling(s, o).state))
  {
    hide Shift, RowsAllow;
  }

  predicate SameStatuses(s: State, t: State) {
    |t.orders| == |s.orders| && forall k :: 0 <= k < |s.orders| ==> t.orders[k].status == s.orders[k].status
  }

  lemma ReturnsUnrefunded(s: State, a: Action, o: nat)
    requires Inv(s) && WaitingPositive(s.requests) && Execute(s, a).Done? && !IsPayback(a, o)
    requires a.AAsk? || a.AReview? || a.AReceive? || a.ADispatched? || a.AEdit?
    requires o < |Execute(s, a).state.orders|
    ensures StaysUnrefunded(s, Execute(s, a).state, o) && NothingPaid(s, Execute(s, a).state, o)
  {
    hide Inv, PickLines, GiftRule, Available, HasActive, ValidPicks, RestockAll, ReceivedLines, Refund, ExactChoices;
  }

  // ----- the end of a refund

  lemma PaidAfter(requests: seq<Return>, r: nat, y: Return, o: nat)
    requires r < |requests| && y.order == requests[r].order
    requires requests[r].status != AskCompleted && y.status == AskCompleted
    ensures Paid(requests[r := y], o) == Paid(requests, o) + (if y.order == o then y.approved else 0)
  {
    hide Total;
    TotalUpdate(PaidFor(o), requests, r, y);
  }

  /** The order counts as refunded exactly when all that its goods cost is paid back, and that is something. */
  ghost predicate Settled(s: State, o: nat)
    requires o < |s.orders|
  {
    s.orders[o].status == Refunded <==> Paid(s.requests, o) == Merchandise(s.orders[o]) > 0
  }

  lemma CompleteSettles(s: State, r: nat, transfer: Option<string>, o: nat)
    requires r < |s.requests| && s.requests[r].order < |s.orders| && IsWaiting(s.requests[r])
    requires Inv(s) && Inv(Complete(s, r, transfer)) && WaitingPositive(s.requests) && o < |s.orders| && Settled(s, o)
    ensures |Complete(s, r, transfer).orders| == |s.orders| && Settled(Complete(s, r, transfer), o)
  {
    hide OrderInv, ReturnsFit, OneActive, Merchandise, Paid, Approved;
    var y := s.requests[r].(status := AskCompleted, transfer := transfer);
    PaidAfter(s.requests, r, y, o);
    var t := Complete(s, r, transfer);
    PaidWithin(s, o);
    PaidWithin(t, o);
    if o < |t.orders| && s.requests[r].order == o {
      SameMerchandise(s.orders[o], t.orders[o]);
    }
  }

  lemma SameMerchandise(x: Order, y: Order)
    requires y.subtotal == x.subtotal && y.discount == x.discount
    ensures Merchandise(y) == Merchandise(x)
  {
  }

  lemma PaidWithin(s: State, o: nat)
    requires Inv(s)
    ensures 0 <= Paid(s.requests, o) <= Approved(s.requests, o)
    ensures o < |s.orders| ==> Paid(s.requests, o) <= Merchandise(s.orders[o])
  {
    hide OrderInv, OneActive, Paid, Approved;
    PaidBelow(s, o);
    if o < |s.orders| {
      MoneyAt(s, o);
    }
  }

  // ----- runs

  lemma {:induction false} ApplyWaits(s: State, a: Action)
    requires Inv(s) && WaitingPositive(s.requests)
    ensures WaitingPositive(Apply(s, a).requests)
  {
    hide OrderInv, ReturnInv, WaitingPositive, Execute, Later;
    ApplyKeeps(s, a);
    if Execute(s, a).Done? {
      ReceiveIsKnown(s, a);
      if a.AReceive? && s.requests[a.ret].status == AskApproved {
        ExecuteReceive(s, a);
        ReceiptWaits(s, a.ret, a.choices, a.provider);
      } else {
        OnlyReceiptReceives(s, a);
        OtherStepWaits(s, Execute(s, a).state);
      }
    }
  }

  lemma {:induction false} RunWaits(s: State, actions: seq<Action>)
    requires Inv(s) && WaitingPositive(s.requests)
    ensures WaitingPositive(Run(s, actions).requests)
  {
    hide Inv, WaitingPositive, Apply;
    if actions != [] {
      var before := actions[..|actions| - 1];
      RunWaits(s, before);
      RunKeeps(s, before);
      ApplyWaits(Run(s, before), actions[|actions| - 1]);
    }
  }

  /** The reference of a refund by hand; refunds through the payment have none. */
  function TransferOf(a: Action): Option<string> {
    if a.AManual? then Some(a.transfer) else None
  }

  lemma CompletionIs(s: State, a: Action)
    requires a.ARefund? || a.AManual?
    requires Execute(s, a).Done?
    ensures var r := a.ret;
            && r < |s.requests| && s.requests[r].order < |s.orders|
            && (Execute(s, a).state == s
                || (IsWaiting(s.requests[r]) && Execute(s, a).state == Complete(s, r, TransferOf(a)))
                || (IsWaiting(s.requests[r])
                    && Execute(s, a).state == WithReturn(s, r, s.requests[r].(status := RefundFailed))))
  {
    hide Complete;
  }

  lemma FailedPaysNothing(s: State, r: nat, o: nat)
    requires r < |s.requests| && IsWaiting(s.requests[r])
    ensures NothingPaid(s, WithReturn(s, r, s.requests[r].(status := RefundFailed)), o)
  {
  }

  lemma KeepsSettled(s: State, t: State, o: nat)
    requires Inv(s) && Later(s, t) && NothingPaid(s, t, o) && o < |t.orders| && StaysUnrefunded(s, t, o)
    requires if o < |s.orders| then Settled(s, o) else Paid(s.requests, o) == 0
    ensures Settled(t, o)
  {
    hide Inv, Paid, Merchandise, NothingPaid;
    PaidSame(s, t, o);
    if o < |s.orders| {
      assert OrderLater(s.orders[o], t.orders[o]);
      SameMerchandise(s.orders[o], t.orders[o]);
    }
  }

  lemma NothingPaidYet(s: State, o: nat)
    requires Inv(s) && o >= |s.orders|
    ensures Paid(s.requests, o) == 0
  {
    hide OrderInv, OneActive, LimitsHold;
    assert forall r :: 0 <= r < |s.requests| ==> ReturnFits(s.orders, s.requests[r]);
    TotalZero(PaidFor(o), s.requests);
  }

  lemma ApplySettles(s: State, a: Action, o: nat)
    requires Inv(s) && WaitingPositive(s.requests) && !IsPayback(a, o) && o < |Apply(s, a).orders|
    requires o < |s.orders| ==> Settled(s, o)
    ensures Settled(Apply(s, a), o)
  {
    hide Inv, Execute, Later, Settled, WaitingPositive, NothingPaid, StaysUnrefunded, WithReturn, Complete, Paid;
    ApplyKeeps(s, a);
    if o >= |s.orders| { NothingPaidYet(s, o); }
    if Execute(s, a).Done? {
      var t := Execute(s, a).state;
      if a.ARefund? || a.AManual? {
        CompletionIs(s, a);
        CompletionOrders(s, a.ret);
        if IsWaiting(s.requests[a.ret]) && t == Complete(s, a.ret, TransferOf(a)) {
          CompleteSettles(s, a.ret, TransferOf(a), o);
        } else if t != s {
          FailedPaysNothing(s, a.ret, o);
          FailedKeepsStatus(s, a.ret, o);
          KeepsSettled(s, t, o);
        }
      } else if a.ACreate? || a.APayment? || a.AStatus? {
        OrdersUnrefunded(s, a, o);
        KeepsSettled(s, t, o);
      } else {
        ReturnsUnrefunded(s, a, o);
        KeepsSettled(s, t, o);
      }
    }
  }

  lemma CompletionOrders(s: State, r: nat)
    requires r < |s.requests| && s.requests[r].order < |s.orders|
    ensures forall transfer :: |Complete(s, r, transfer).orders| == |s.orders|
    ensures forall y :: WithReturn(s, r, y).orders == s.orders
  {
  }

  lemma FailedKeepsStatus(s: State, r: nat, o: nat)
    requires r < |s.requests| && o < |s.orders|
    ensures StaysUnrefunded(s, WithReturn(s, r, s.requests[r].(status := RefundFailed)), o)
  {
  }

  /** In the run, a report that the payment of the order was refunded was accepted. */
  ghost predicate PaidBackIn(s: State, actions: seq<Action>, o: nat) {
    exists k :: 0 <= k < |actions| && AcceptedPayback(Run(s, actions[..k]), actions[k], o)
  }

  predicate AcceptedPayback(s: State, a: Action, o: nat) {
    IsPayback(a, o) && Execute(s, a).Done?
  }

  lemma PaidBackLast(s: State, actions: seq<Action>, o: nat)
    requires actions != []
    ensures var before, a := actions[..|actions| - 1], actions[|actions| - 1];
            PaidBackIn(s, actions, o) <==> PaidBackIn(s, before, o) || AcceptedPayback(Run(s, before), a, o)
  {
    hide Run, AcceptedPayback;
    var n := |actions| - 1;
    var before, a := actions[..n], actions[n];
    forall k | 0 <= k < n
      ensures actions[..k] == before[..k] && actions[k] == before[k]
    {
    }
    if k :| 0 <= k < |actions| && AcceptedPayback(Run(s, actions[..k]), actions[k], o) {
      assert k < n ==> AcceptedPayback(Run(s, before[..k]), before[k], o);
    }
    if k :| 0 <= k < n && AcceptedPayback(Run(s, before[..k]), before[k], o) {
      assert AcceptedPayback(Run(s, actions[..k]), actions[k], o);
    }
    if AcceptedPayback(Run(s, before), a, o) {
      assert AcceptedPayback(Run(s, actions[..n]), actions[n], o);
    }
  }

  lemma PaybackRefunds(s: State, a: Action, o: nat)
    requires AcceptedPayback(s, a, o)
    ensures o < |s.orders| && |Apply(s, a).orders| == |s.orders| && Apply(s, a).orders[o].status == Refunded
  {
    hide CompleteWaiting;
  }

  lemma RefusedPayback(s: State, a: Action, o: nat)
    requires IsPayback(a, o) && !AcceptedPayback(s, a, o)
    ensures Apply(s, a) == s
  {
    hide Execute;
  }

  lemma StaysRefunded(s: State, t: State, o: nat)
    requires Later(s, t) && o < |s.orders| && s.orders[o].status == Refunded
    ensures o < |t.orders| && t.orders[o].status == Refunded
  {
    assert OrderLater(s.orders[o], t.orders[o]);
  }

  lemma {:induction false} RunSettles(s: State, actions: seq<Action>, o: nat)
    requires Opening(s)
    ensures PaidBackIn(s, actions, o) ==> o < |Run(s, actions).orders| && Run(s, actions).orders[o].status == Refunded
    ensures !PaidBackIn(s, actions, o) && o < |Run(s, actions).orders| ==> Settled(Run(s, actions), o)
  {
    if actions != [] {
      hide Inv, Settled, Apply, WaitingPositive, IsPayback, PaidBackIn, AcceptedPayback, Later;
      var before, a := actions[..|actions| - 1], actions[|actions| - 1];
      var t := Run(s, before);
      OpeningInv(s);
      OpeningWaits(s);
      RunKeeps(s, before);
      RunWaits(s, before);
      RunSettles(s, before, o);
      PaidBackLast(s, actions, o);
      ApplyKeeps(t, a);
      if AcceptedPayback(t, a, o) {
        PaybackRefunds(t, a, o);
      } else if PaidBackIn(s, before, o) {
        StaysRefunded(t, Apply(t, a), o);
      } else if IsPayback(a, o) {
        RefusedPayback(t, a, o);
      } else if o < |Apply(t, a).orders| {
        ApplySettles(t, a, o);
      }
    }
  }

  lemma OpeningWaits(s: State)
    requires Opening(s)
    ensures WaitingPositive(s.requests)
  {
  }

  /**
  In every run: an order whose payment was reported as refunded, and the report accepted, is refunded. Any
  other order counts as refunded if and only if its returns have paid back all that its goods cost, and that
  is more than nothing; short of the rounded shares reaching it, nothing makes it refunded.
   */
  lemma {:induction false} RefundedExactly(s: State, actions: seq<Action>, o: nat)
    requires Opening(s) && o < |Run(s, actions).orders|
    ensures var t := Run(s, actions);
            var order := t.orders[o];
            if PaidBackIn(s, actions, o) then order.status == Refunded
            else
              && (order.status == Refunded <==> Paid(t.requests, o) == Merchandise(order) > 0)
              && (order.status == Refunded ==> RoundedShares(t.requests, order, o) >= Merchandise(order))
  {
    hide Run, Inv, Merchandise, Paid, Approved, RoundedShares, Opening, PaidBackIn;
    OpeningInv(s);
    RunKeeps(s, actions);
    RunSettles(s, actions, o);
    RefundsAreExact(s, actions, o);
    PaidWithin(Run(s, actions), o);
  }
}
