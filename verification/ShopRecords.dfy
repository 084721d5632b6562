/**
What the service writes down for customers and staff agrees over every run: totals of orders, refunds asked
for against refunds approved, and references of transfers.
 */
module ShopRecords {
  import opened Totals
  import opened ShopState
  import opened ShopMoney
  import opened ShopTransactions
  import opened ShopReturns
  import opened ShopRuns
  import opened ShopRefunds
  import opened ShopReturned
  import opened ShopPaybacks

  // ----- totals of orders

  /** The customer pays for the goods, after the discount, and for the delivery. */
  predicate TotalFits(o: Order) {
    o.discount <= o.subtotal && o.total == Merchandise(o) + o.shipping
  }

  ghost predicate TotalsFit(orders: seq<Order>) {
    forall o :: 0 <= o < |orders| ==> TotalFits(orders[o])
  }

  lemma NewTotalFits(s: State, user: Id, c: Checkout, now: int)
    requires CreateOrder(s, user, c, now).Done? && TotalsFit(s.orders)
    ensures TotalsFit(CreateOrder(s, user, c, now).state.orders)
  {
    hide Reserve, VoucherUsable, Discount, Replayed, Insertable;
    UsableVouchers(s, user, c, now);
  }

  lemma UsableVouchers(s: State, user: Id, c: Checkout, now: int)
    ensures c.voucher.Some? && VoucherUsable(s, c.voucher.value, user, c.subtotal, now) ==>
              && c.voucher.value in s.vouchers
              && 0 <= Discount(s.vouchers[c.voucher.value], c.subtotal) <= c.subtotal
  {
    hide RawDiscount;
  }

  lemma LaterTotals(s: State, t: State)
    requires Later(s, t) && |t.orders| == |s.orders| && TotalsFit(s.orders)
    ensures TotalsFit(t.orders)
  {
    forall o | 0 <= o < |t.orders|
      ensures TotalFits(t.orders[o])
    {
      assert OrderLater(s.orders[o], t.orders[o]) && TotalFits(s.orders[o]);
    }
  }

  lemma ApplyTotals(s: State, a: Action)
    requires Inv(s) && TotalsFit(s.orders)
    ensures TotalsFit(Apply(s, a).orders)
  {
    hide Inv, TotalsFit, CreateOrder, Later;
    ApplyKeeps(s, a);
    if Execute(s, a).Done? {
      if a.ACreate? {
        NewTotalFits(s, a.user, a.c, a.now);
      } else {
        hide Execute;
        OnlyCheckoutAdds(s, a);
        LaterTotals(s, Apply(s, a));
      }
    }
  }

  // ----- refunds asked for

  predicate AskedFits(orders: seq<Order>, x: Return) {
    && x.order < |orders|
    && x.asked == Share(AskedPrice(x.lines), orders[x.order].subtotal, orders[x.order].discount)
    && (IsReceived(x.status) ==> x.approved <= x.asked)
  }

  ghost predicate AllAskedFit(s: State) {
    forall r :: 0 <= r < |s.requests| ==> AskedFits(s.orders, s.requests[r])
  }

  lemma AskedSame(x: Return, y: Return)
    requires RequestLater(x, y)
    ensures AskedPrice(y.lines) == AskedPrice(x.lines)
  {
    TotalAtMost(GrossOf(), y.lines, GrossOf(), x.lines);
    TotalAtMost(GrossOf(), x.lines, GrossOf(), y.lines);
  }

  lemma StillFits(s: State, t: State, r: nat)
    requires Later(s, t) && r < |s.requests| && AskedFits(s.orders, s.requests[r])
    requires IsReceived(t.requests[r].status) ==>
               IsReceived(s.requests[r].status) || t.requests[r].approved <= s.requests[r].asked
    ensures AskedFits(t.orders, t.requests[r])
  {
    hide Share, AskedPrice;
    assert RequestLater(s.requests[r], t.requests[r]);
    AskedSame(s.requests[r], t.requests[r]);
    assert OrderLater(s.orders[s.requests[r].order], t.orders[s.requests[r].order]);
  }

  lemma OtherAsked(s: State, t: State)
    requires Later(s, t) && NoReceipt(s, t) && AllAskedFit(s) && |t.requests| == |s.requests|
    ensures AllAskedFit(t)
  {
    hide Later, AskedFits;
    SameLength(s, t);
    forall r | 0 <= r < |t.requests|
      ensures AskedFits(t.orders, t.requests[r])
    {
      StillFits(s, t, r);
    }
  }

  lemma SameLength(s: State, t: State)
    requires Later(s, t)
    ensures |s.orders| <= |t.orders| && |s.requests| <= |t.requests|
  {
  }

  lemma NewAsked(s: State, o: nat, user: Id, picks: seq<Pick>, inTime: bool, images: nat)
    requires AllAskedFit(s) && AskReturn(s, o, user, picks, inTime, images).Done?
    ensures AllAskedFit(AskReturn(s, o, user, picks, inTime, images).state)
  {
    hide PickLines, GiftRule, Available, HasActive, ValidPicks, Share, AskedPrice;
  }

  /** No more is approved than was asked for. */
  lemma ReceivedAsked(s: State, r: nat, choices: seq<Choice>, provider: bool)
    requires Inv(s) && AllAskedFit(s) && r < |s.requests| && s.requests[r].status == AskApproved
    requires Receive(s, r, choices, provider).Done?
    ensures AllAskedFit(Receive(s, r, choices, provider).state)
  {
    hide Inv, Receive, Refund, AcceptedGross, AcceptedPrice, AskedPrice, Share, Approved, Merchandise, ChoiceMap;
    ReceivedReturn(s, r, choices, provider);
    var t := Receive(s, r, choices, provider).state;
    var x, y, m := s.requests[r], t.requests[r], ChoiceMap(choices);
    var order := s.orders[x.order];
    ReceiveStep(s, r, choices, provider);
    LaterOf(s, t);
    RefundIs(s, r, m);
    assert RequestLater(x, y);
    AcceptedBelowAsked(x, y);
    ShareMonotone(AcceptedPrice(y.lines), AskedPrice(x.lines), order.subtotal, order.discount);
    assert AskedFits(s.orders, x);
    forall k | 0 <= k < |t.requests|
      ensures AskedFits(t.orders, t.requests[k])
    {
      StillFits(s, t, k);
    }
  }

  lemma LaterOf(s: State, t: State)
    requires Good(s, t)
    ensures Later(s, t)
  {
  }

  /** Only a customer adds a return. */
  lemma OnlyAskingAdds(s: State, a: Action)
    requires Execute(s, a).Done? && !a.AAsk?
    ensures |Execute(s, a).state.requests| == |s.requests|
  {
    hide Transition, Cancelling, PickLines, GiftRule, Available, HasActive, ValidPicks, Replayed, Insertable, Reserve;
    hide Paid, Merchandise, RestockAll, ReceivedLines, Refund, ExactChoices, VoucherUsable, Discount;
    if a.APayment? {
      OrderKeepsRequests(s, a.order);
    } else if a.AStatus? {
      OrderKeepsRequests(s, a.order);
    }
  }

  lemma ExecuteAsk(s: State, a: Action)
    requires a.AAsk?
    ensures Execute(s, a) == AskReturn(s, a.order, a.user, a.picks, a.inTime, a.images)
  {
    hide AskReturn;
  }

  lemma ApplyAsked(s: State, a: Action)
    requires Inv(s) && AllAskedFit(s)
    ensures AllAskedFit(Apply(s, a))
  {
    hide Inv, AllAskedFit, Execute, Later, NoReceipt, Receive, AskReturn;
    ApplyKeeps(s, a);
    if Execute(s, a).Done? {
      ReceiveIsKnown(s, a);
      if a.AReceive? && s.requests[a.ret].status == AskApproved {
        ExecuteReceive(s, a);
        ReceivedAsked(s, a.ret, a.choices, a.provider);
      } else if a.AAsk? {
        ExecuteAsk(s, a);
        NewAsked(s, a.order, a.user, a.picks, a.inTime, a.images);
      } else {
        OnlyReceiptReceives(s, a);
        OnlyAskingAdds(s, a);
        OtherAsked(s, Execute(s, a).state);
      }
    }
  }

  // ----- references of transfers

  ghost predicate TransfersDiffer(requests: seq<Return>) {
    forall i, j :: 0 <= i < j < |requests| && requests[i].transfer.Some? ==>
      requests[i].transfer != requests[j].transfer
  }

  /** Between the states, no return gets a reference. */
  ghost predicate NoTransfer(s: State, t: State) {
    forall r :: 0 <= r < |t.requests| && t.requests[r].transfer.Some? ==>
      r < |s.requests| && s.requests[r].transfer == t.requests[r].transfer
  }

  lemma OnlyHandRefers(s: State, a: Action)
    requires Inv(s) && Execute(s, a).Done? && !a.AManual?
    ensures NoTransfer(s, Execute(s, a).state)
  {
    hide Inv, Transition, ReleaseVoucher, PickLines, GiftRule, Available, HasActive, ValidPicks;
    hide Reserve, VoucherUsable, Discount, Replayed, Insertable, Paid, Merchandise, RestockAll, ReceivedLines, Refund;
    if a.APayment? {
      OrderKeepsRequests(s, a.order);
    } else if a.AStatus? {
      OrderKeepsRequests(s, a.order);
    }
  }

  lemma OtherTransfers(s: State, t: State)
    requires NoTransfer(s, t) && TransfersDiffer(s.requests)
    ensures TransfersDiffer(t.requests)
  {
  }

  lemma HandTransfers(s: State, r: nat, amount: int, transfer: string, images: nat)
    requires TransfersDiffer(s.requests) && ManualRefund(s, r, amount, transfer, images).Done?
    ensures TransfersDiffer(ManualRefund(s, r, amount, transfer, images).state.requests)
  {
    hide Paid, Merchandise;
  }

  lemma ApplyTransfers(s: State, a: Action)
    requires Inv(s) && TransfersDiffer(s.requests)
    ensures TransfersDiffer(Apply(s, a).requests)
  {
    hide Inv, TransfersDiffer, ManualRefund;
    if Execute(s, a).Done? {
      if a.AManual? {
        HandTransfers(s, a.ret, a.amount, a.transfer, a.images);
      } else {
        hide Execute;
        OnlyHandRefers(s, a);
        OtherTransfers(s, Execute(s, a).state);
      }
    }
  }

  // ----- runs

  ghost predicate Recorded(s: State) {
    TotalsFit(s.orders) && AllAskedFit(s) && TransfersDiffer(s.requests)
  }

  lemma {:induction false} RunRecorded(s: State, actions: seq<Action>)
    requires Opening(s)
    ensures Recorded(Run(s, actions))
  {
    if actions != [] {
      hide Inv, TotalsFit, AllAskedFit, TransfersDiffer, Apply;
      var before, a := actions[..|actions| - 1], actions[|actions| - 1];
      OpeningInv(s);
      RunKeeps(s, before);
      RunRecorded(s, before);
      ApplyTotals(Run(s, before), a);
      ApplyAsked(Run(s, before), a);
      ApplyTransfers(Run(s, before), a);
    }
  }

  /** In any run, an order asks for what its goods cost after the discount and for its delivery, no more and no less. */
  lemma {:induction false} TotalsAddUp(s: State, actions: seq<Action>, o: nat)
    requires Opening(s) && o < |Run(s, actions).orders|
    ensures var order := Run(s, actions).orders[o];
            order.total == Merchandise(order) + order.shipping && Merchandise(order) == order.subtotal - order.discount
  {
    hide Run, Opening;
    RunRecorded(s, actions);
    assert TotalFits(Run(s, actions).orders[o]);
  }

  /** In any run, no return is granted more than was asked for when it was made. */
  lemma {:induction false} NoMoreThanAsked(s: State, actions: seq<Action>, r: nat)
    requires Opening(s) && r < |Run(s, actions).requests|
    ensures var t := Run(s, actions);
            var x := t.requests[r];
            && x.order < |t.orders|
            && x.asked == Share(AskedPrice(x.lines), t.orders[x.order].subtotal, t.orders[x.order].discount)
            && (IsReceived(x.status) ==> x.approved <= x.asked)
  {
    hide Run, Opening, Share, AskedPrice;
    RunRecorded(s, actions);
    assert AskedFits(Run(s, actions).orders, Run(s, actions).requests[r]);
  }

  /** In any run, a transfer settles one return only. */
  lemma {:induction false} OneReturnPerTransfer(s: State, actions: seq<Action>, i: nat, j: nat)
    requires Opening(s) && i < |Run(s, actions).requests| && j < |Run(s, actions).requests|
    requires Run(s, actions).requests[i].transfer.Some?
    requires Run(s, actions).requests[i].transfer == Run(s, actions).requests[j].transfer
    ensures i == j
  {
    hide Run, Opening, TotalsFit, AllAskedFit;
    RunRecorded(s, actions);
  }
}
