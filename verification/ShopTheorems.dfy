/**
What the invariants mean for customers and for the shop: no overselling, vouchers within their limits,
refunds through returns within what the goods cost, payments that always find their goods, and notifications
that may come twice.
 */
module ShopTheorems {
  import opened Basics
  import opened Totals
  import opened ShopState
  import opened ShopMoney
  import opened ShopTransactions
  import opened ShopInvariants
  import opened ShopCheckout
  import opened ShopReturns
  import opened ShopRuns

  // ----- over whole runs from an empty shop

  /**
  Reservations match the open orders, the stock covers them, and the stock is what was there at first, plus
  corrections and restocked returns, less what was sold.
   */
  lemma {:induction false} NoOverselling(s: State, actions: seq<Action>, v: Id)
    requires Opening(s) && v in s.variants
    ensures var t := Run(s, actions);
            && v in t.variants
            && 0 <= t.variants[v].reserved <= t.variants[v].stock
            && t.variants[v].reserved == Held(t.orders, v)
            && t.variants[v].stock
               == s.variants[v].stock + Corrections(s, actions, v) + Restocked(t.requests, v) - Sold(t.orders, v)
  {
    hide Run, Corrections, Held, Sold, Restocked;
    OpeningInv(s);
    RunKeeps(s, actions);
    assert VariantFits(Run(s, actions).variants, Run(s, actions).orders, v);
  }

  /** No voucher is used more often than it may be, by all customers together or by one of them. */
  lemma {:induction false} VoucherLimits(s: State, actions: seq<Action>, x: Id, user: Id)
    requires Opening(s) && x in s.vouchers
    ensures var t := Run(s, actions);
            && x in t.vouchers
            && t.vouchers[x].usedCount == Uses(t.orders, x)
            && (t.vouchers[x].usageLimit.Some? ==> Uses(t.orders, x) <= Max(t.vouchers[x].usageLimit.value, 0))
            && UsesBy(t.orders, x, user) <= Max(t.vouchers[x].userLimit, 0)
  {
    hide Run, Uses, UsesBy;
    OpeningInv(s);
    RunKeeps(s, actions);
    assert VoucherFits(Run(s, actions).vouchers, Run(s, actions).orders, x);
  }

  /**
  No line goes back more often than it was bought, and through returns no order gets back more than its goods
  cost. Refunds of the payment itself are not counted.
   */
  lemma {:induction false} RefundCap(s: State, actions: seq<Action>, o: nat)
    requires Opening(s) && o < |Run(s, actions).orders|
    ensures var t := Run(s, actions);
            && Paid(t.requests, o) <= Approved(t.requests, o) <= Merchandise(t.orders[o])
            && forall idx :: 0 <= idx < |t.orders[o].lines| ==>
                Prior(t.requests, o, idx) <= t.orders[o].lines[idx].quantity
  {
    hide Run, Merchandise, Prior;
    OpeningInv(s);
    RunKeeps(s, actions);
    var t := Run(s, actions);
    assert MoneyFits(t, o);
    PaidBelow(t, o);
    forall idx | 0 <= idx < |t.orders[o].lines|
      ensures Prior(t.requests, o, idx) <= t.orders[o].lines[idx].quantity
    {
      assert QuantityFits(t, o, idx);
    }
  }

  /** The refunds of the items of a return add up to the refund of the return, at any time after receipt. */
  lemma {:induction false} ItemRefundsAddUp(s: State, actions: seq<Action>, r: nat)
    requires Opening(s) && r < |Run(s, actions).requests|
    ensures var x := Run(s, actions).requests[r];
            IsReceived(x.status) ==> Total(RefundOf(), x.lines) == x.approved
  {
    hide Run, Total;
    OpeningInv(s);
    RunKeeps(s, actions);
    assert ReturnFits(Run(s, actions).orders, Run(s, actions).requests[r]);
  }

  /**
  One checkout key leads to one order, however often the checkout is sent, and whatever it asks for: its
  owner gets the order back, anyone else is refused.
   */
  lemma {:induction false} CheckoutOnce(s: State, actions: seq<Action>, o: nat, c: Checkout, now: int)
    requires Inv(s) && o < |s.orders| && c.key == s.orders[o].key
    ensures var t := Run(s, actions);
            && CreateOrder(t, s.orders[o].user, c, now) == Done(t)
            && (forall k :: 0 <= k < |t.orders| && t.orders[k].key == c.key ==> k == o)
            && forall user :: user != s.orders[o].user ==> CreateOrder(t, user, c, now).Refused?
  {
    hide Run, StockInv, OrdersInv, VouchersInv, ReturnInv;
    RunKeeps(s, actions);
    var t := Run(s, actions);
    assert OrderLater(s.orders[o], t.orders[o]);
    hide Reserve, VoucherUsable, Discount;
    assert !Insertable(t.orders, c.key, c.lines);
  }

  /**
  The constraints of the database on stock, returns and their rows hold at any time: none ever rejects a
  transaction.
   */
  lemma ConstraintsHold(s: State, actions: seq<Action>)
    requires Opening(s)
    ensures var t := Run(s, actions);
            && (forall v :: v in t.variants ==>
                  0 <= t.variants[v].stock && 0 <= t.variants[v].reserved <= t.variants[v].stock)
            && (forall i, j :: 0 <= i < j < |t.requests| && t.requests[i].order == t.requests[j].order ==>
                  !IsActive(t.requests[i]) || !IsActive(t.requests[j]))
            && (forall r, k :: 0 <= r < |t.requests| && 0 <= k < |t.requests[r].lines| ==>
                  var l := t.requests[r].lines[k];
                  0 <= l.refund && (l.accepted.Some? ==> l.accepted.value <= l.requested))
  {
    hide Run, OrdersInv, VouchersInv, KeysInv, LimitsHold, Opening, Held;
    OpeningInv(s);
    RunKeeps(s, actions);
    var t := Run(s, actions);
    forall v | v in t.variants
      ensures 0 <= t.variants[v].reserved <= t.variants[v].stock
    {
      assert VariantFits(t.variants, t.orders, v);
    }
    forall r, k | 0 <= r < |t.requests| && 0 <= k < |t.requests[r].lines|
      ensures RowFits(t.orders[t.requests[r].order], t.requests[r], t.requests[r].lines[k])
    {
      assert ReturnFits(t.orders, t.requests[r]);
    }
  }

  /** Goods that came in are not counted a second time, and a refund once fixed stays as it is. */
  lemma {:induction false} ReceiptIsFinal(s: State, actions: seq<Action>, r: nat)
    requires Inv(s) && r < |s.requests| && IsReceived(s.requests[r].status)
    ensures var t := Run(s, actions);
            && r < |t.requests| && IsReceived(t.requests[r].status)
            && t.requests[r].lines == s.requests[r].lines && t.requests[r].approved == s.requests[r].approved
            && (s.requests[r].status == AskCompleted ==> t.requests[r].status == AskCompleted)
  {
    hide Run, Inv;
    RunKeeps(s, actions);
  }

  /** Shipped orders are never cancelled: their goods stay sold, and they can only be refunded. */
  lemma {:induction false} ShippedStaysSold(s: State, actions: seq<Action>, o: nat)
    requires Inv(s) && o < |s.orders| && (s.orders[o].status == Shipping || s.orders[o].status == Delivered)
    ensures var t := Run(s, actions);
            && o < |t.orders| && t.orders[o].lines == s.orders[o].lines
            && (t.orders[o].status == Shipping || t.orders[o].status == Delivered || t.orders[o].status == Refunded)
            && (s.orders[o].status == Delivered ==> t.orders[o].inventory == Committed)
  {
    hide Run, ReturnInv, StockInv, VouchersInv, KeysInv;
    PendingIsReserved(s, o);
    RunKeeps(s, actions);
    assert OrderLater(s.orders[o], Run(s, actions).orders[o]);
  }

  // ----- payments

  /**
  A payment is refused for cancelled and refunded orders, and for a pending one that is asked to become
  anything but confirmed; for no other: it always finds its goods.
   */
  lemma PaymentAccepted(s: State, o: nat, want: Option<Status>, settled: bool)
    requires Inv(s) && o < |s.orders|
    ensures UpdatePayment(s, o, PaidUp, want, settled).Done? <==>
            && s.orders[o].status != Cancelled && s.orders[o].status != Refunded
            && (s.orders[o].status == Pending && want.Some? ==> want == Some(Confirmed))
    ensures UpdatePayment(s, o, PaidUp, want, settled).Done? ==>
              var t := UpdatePayment(s, o, PaidUp, want, settled).state;
              && t.orders[o].inventory == Committed
              && t.orders[o].status == (if s.orders[o].status == Pending then Confirmed else s.orders[o].status)
  {
    hide OrderInv, ReturnInv, Transition;
    PendingIsReserved(s, o);
    if s.orders[o].status == Pending {
      CommitKeeps(s, o);
    }
  }

  /** A payment result that comes twice has the effect of one. */
  lemma PaymentTwice(s: State, o: nat, payment: PaymentStatus, want: Option<Status>, settled: bool)
    requires Inv(s) && UpdatePayment(s, o, payment, want, settled).Done?
    ensures var t := UpdatePayment(s, o, payment, want, settled).state;
            UpdatePayment(t, o, payment, want, settled) == Done(t)
  {
    hide OrderInv, ReturnInv, Transition, Cancelling, CompleteWaiting;
    PendingIsReserved(s, o);
    if payment == PaidUp && s.orders[o].status == Pending {
      CommitKeeps(s, o);
    } else if payment == Failed && s.orders[o].status == Pending && !settled {
      CancelKeeps(s, o);
    } else if payment == PaidBack {
      WaitingOnce(s.requests, o);
      assert s.orders[o := s.orders[o].(status := Refunded)][o := s.orders[o].(status := Refunded)]
          == s.orders[o := s.orders[o].(status := Refunded)];
    }
  }

  lemma WaitingOnce(requests: seq<Return>, o: nat)
    ensures CompleteWaiting(CompleteWaiting(requests, o), o) == CompleteWaiting(requests, o)
  {
  }

  /**
  When success and failure of a payment are both reported for a pending order, the first report decides,
  with the statuses that the reports name or with none.
   */
  lemma FirstReportDecides(s: State, o: nat, paid: Option<Status>, failed: Option<Status>, settled: bool)
    requires Inv(s) && o < |s.orders| && s.orders[o].status == Pending
    requires (paid == None || paid == Some(Confirmed)) && (failed == None || failed == Some(Cancelled))
    ensures var t := UpdatePayment(s, o, PaidUp, paid, settled);
            && t.Done? && t.state.orders[o].status == Confirmed
            && UpdatePayment(t.state, o, Failed, failed, settled) == t
    ensures var t := UpdatePayment(s, o, Failed, failed, false);
            && t.Done? && t.state.orders[o].status == Cancelled
            && UpdatePayment(t.state, o, PaidUp, paid, settled) == Refused(Conflict)
  {
    hide OrderInv, ReturnInv, Transition, Cancelling;
    CommitKeeps(s, o);
    CancelKeeps(s, o);
  }

  // ----- what is free to sell

  function Free(variants: map<Id, Variant>, v: Id): int
    requires v in variants
  {
    variants[v].stock - variants[v].reserved
  }

  /** Whether the goods are still held or have left the stock, cancelling frees exactly what the order took. */
  lemma CancelFrees(s: State, o: nat, v: Id)
    requires Inv(s) && o < |s.orders| && v in s.variants
    requires s.orders[o].status == Pending || s.orders[o].status == Confirmed || s.orders[o].status == Processing
    ensures Cancelling(s, o).Done?
    ensures var t := Cancelling(s, o).state;
            v in t.variants && Free(t.variants, v) == Free(s.variants, v) + Qty(s.orders[o].lines, v)
  {
    hide OrderInv, ReturnInv, Qty, RowsAllow;
    PendingIsReserved(s, o);
    CancelKeeps(s, o);
  }

  /** Checkout takes from what is free exactly what the order asks for, and confirming takes nothing. */
  lemma OrderTakes(s: State, user: Id, c: Checkout, now: int, v: Id)
    requires Inv(s) && !Replayed(s.orders, user, c.key) && v in s.variants
    requires CreateOrder(s, user, c, now).Done?
    ensures var t := CreateOrder(s, user, c, now).state;
            var u := Transition(t, |s.orders|, Committed);
            && v in t.variants && Free(t.variants, v) == Free(s.variants, v) - Qty(c.lines, v)
            && u.Done? && v in u.state.variants && Free(u.state.variants, v) == Free(t.variants, v)
  {
    hide OrderInv, ReturnInv, Qty, Reserve, RowsAllow, VoucherUsable, Discount, Replayed, Insertable;
    ReserveIs(s.variants, c.lines);
    CreateKeeps(s, user, c, now);
    var t := CreateOrder(s, user, c, now).state;
    CommitKeeps(t, |s.orders|);
  }

  /** A checkout that is cancelled leaves stock, reservations and vouchers as they were. */
  lemma CancelUndoesCheckout(s: State, user: Id, c: Checkout, now: int, want: Option<Status>)
    requires Inv(s) && !Replayed(s.orders, user, c.key) && (want == None || want == Some(Cancelled))
    requires CreateOrder(s, user, c, now).Done?
    ensures var t := CreateOrder(s, user, c, now).state;
            var u := UpdatePayment(t, |s.orders|, Failed, want, false);
            && u.Done? && u.state.variants == s.variants && u.state.vouchers == s.vouchers
            && u.state.requests == s.requests
            && u.state.orders
               == s.orders + [t.orders[|s.orders|].(status := Cancelled, inventory := Released, usage := None)]
  {
    hide OrderInv, ReturnInv, Cancelling, Reserve, VoucherUsable, Discount, Replayed, Insertable;
    var t := CreateOrder(s, user, c, now).state;
    CreateKeeps(s, user, c, now);
    CancelKeeps(t, |s.orders|);
    var u := Cancelling(t, |s.orders|).state;
    NewOrder(s, user, c, now);
    assert u.variants == s.variants by {
      forall v | v in s.variants
        ensures u.variants[v] == s.variants[v]
      {
        CancelledVariant(t, |s.orders|, v);
      }
    }
    assert u.vouchers == s.vouchers by {
      UsableIsKnown(s, c.voucher, user, c.subtotal, now);
      CountKnown(s, c.voucher);
      CancelledVouchers(s, t, c.voucher);
    }
  }

  lemma NewOrder(s: State, user: Id, c: Checkout, now: int)
    requires !Replayed(s.orders, user, c.key)
    requires CreateOrder(s, user, c, now).Done?
    ensures var t := CreateOrder(s, user, c, now).state;
            && t.variants.Keys == s.variants.Keys
            && forall v :: v in s.variants ==>
                 t.variants[v] == s.variants[v].(reserved := s.variants[v].reserved + Qty(c.lines, v))
  {
    hide Qty, Reserve, VoucherUsable, Discount, Replayed, Insertable;
    ReserveIs(s.variants, c.lines);
  }

  lemma CancelledVariant(t: State, o: nat, v: Id)
    requires o < |t.orders| && t.orders[o].inventory == Reserved && Cancelling(t, o).Done? && v in t.variants
    ensures var u := Cancelling(t, o).state;
            && u.variants.Keys == t.variants.Keys
            && u.variants[v] == t.variants[v].(reserved := t.variants[v].reserved - Qty(t.orders[o].lines, v))
  {
    hide Qty, RowsAllow;
  }

  lemma CountKnown(s: State, voucher: Option<Id>)
    requires OrderInv(s)
    ensures voucher.Some? && voucher.value in s.vouchers ==> s.vouchers[voucher.value].usedCount >= 0
  {
    hide StockInv, OrdersInv, KeysInv;
    if voucher.Some? && voucher.value in s.vouchers {
      assert VoucherFits(s.vouchers, s.orders, voucher.value);
      TotalBounds(UseOf(voucher.value), s.orders);
    }
  }

  lemma CancelledVouchers(s: State, t: State, voucher: Option<Id>)
    requires t.orders != [] && t.orders[|t.orders| - 1].usage == voucher && Cancelling(t, |t.orders| - 1).Done?
    requires voucher.Some? ==> voucher.value in s.vouchers && s.vouchers[voucher.value].usedCount >= 0
    requires t.vouchers == if voucher.Some? then Count(s.vouchers, voucher.value) else s.vouchers
    ensures Cancelling(t, |t.orders| - 1).state.vouchers == s.vouchers
  {
    hide Shift, RowsAllow;
  }

  // ----- the gift rule

  /** The campaign of line `idx` has a picked line. */
  predicate CampaignTouched(order: Order, picks: seq<Pick>, idx: nat)
    requires idx < |order.lines|
  {
    exists j :: 0 <= j < |order.lines| && order.lines[j].campaign == order.lines[idx].campaign && Picked(picks, j) > 0
  }

  /** What the refusal says: a gift combo that is picked goes back as a whole, other products are free. */
  predicate StatedGiftRule(s: State, o: nat, picks: seq<Pick>)
    requires o < |s.orders|
  {
    forall idx | 0 <= idx < |s.orders[o].lines| && InGiftCampaign(s.orders[o], idx)
        && CampaignTouched(s.orders[o], picks, idx) ::
      WhollyPicked(s, o, picks, idx)
  }

  /**
  The code applies the rule to gift combos that are not picked at all, too. It agrees with what it says if
  and only if nothing of such combos is left with the customer.
   */
  lemma GiftRuleIsStricter(s: State, o: nat, picks: seq<Pick>)
    requires o < |s.orders|
    ensures GiftRule(s, o, picks) <==>
              && StatedGiftRule(s, o, picks)
              && forall idx | 0 <= idx < |s.orders[o].lines| && InGiftCampaign(s.orders[o], idx)
                              && !CampaignTouched(s.orders[o], picks, idx) ::
                   Prior(s.requests, o, idx) == s.orders[o].lines[idx].quantity
  {
    hide Prior, Picked, InGiftCampaign;
    var order := s.orders[o];
    forall idx | 0 <= idx < |order.lines| && !CampaignTouched(order, picks, idx)
      ensures Picked(picks, idx) == 0
    {
      assert order.lines[idx].campaign == order.lines[idx].campaign;
    }
  }

  lemma NoGiftsNoReturn(s: State, o: nat, user: Id, picks: seq<Pick>, inTime: bool, images: nat)
    requires o < |s.orders| && !GiftRule(s, o, picks)
    ensures AskReturn(s, o, user, picks, inTime, images) == Refused(BadRequest)
  {
    hide GiftRule, Available, HasActive, PickLines;
  }

  // ----- refunds in parts

  /** Goods worth the whole subtotal, returned at once, bring back what the goods cost. */
  lemma {:induction false} WholeReturn(s: State, r: nat, m: map<nat, Disposition>)
    requires r < |s.requests| && s.requests[r].order < |s.orders|
    requires forall k :: 0 <= k < |s.requests[r].lines| ==> k in m
    requires var x := s.requests[r];
             && AcceptedGross(x.lines, m, |x.lines|) == s.orders[x.order].subtotal
             && Paid(s.requests, x.order) == 0
    ensures Refund(s, r, m) == Merchandise(s.orders[s.requests[r].order])
  {
    hide AcceptedGross, Paid, HalfUp;
    var order := s.orders[s.requests[r].order];
    if order.subtotal > 0 {
      HalfUpExact(order.subtotal - Min(order.discount, order.subtotal), order.subtotal);
    }
  }
}
