/**
What every state of the shop satisfies: reservations match the open orders and never exceed the stock,
vouchers count their uses within their limits, and order status and inventory state agree.
 */
module ShopInvariants {
  import opened Basics
  import opened Totals
  import opened ShopState
  import opened ShopTransactions

  // ----- the invariants of orders, stock and vouchers

  /** The reservation of a variant is what the open orders hold, and the stock covers it. */
  ghost predicate VariantFits(variants: map<Id, Variant>, orders: seq<Order>, v: Id)
    requires v in variants
  {
    0 <= variants[v].reserved == Held(orders, v) && variants[v].reserved <= variants[v].stock
  }

  ghost predicate StockInv(variants: map<Id, Variant>, orders: seq<Order>) {
    forall v :: v in variants ==> VariantFits(variants, orders, v)
  }

  ghost predicate LinesKnown(variants: map<Id, Variant>, o: Order) {
    forall k :: 0 <= k < |o.lines| ==> o.lines[k].variant in variants
  }

  /** Goods are held for new orders, gone for those under way, and given back for cancelled ones. */
  predicate StatusFits(o: Order) {
    match o.status
    case Pending => o.inventory == Reserved
    case Cancelled => o.inventory == Released
    case Refunded => o.inventory != Reserved
    case _ => o.inventory == Committed
  }

  /** Orders that were cancelled use no voucher. */
  predicate UsageFits(vouchers: map<Id, Voucher>, o: Order) {
    && (o.usage.Some? ==> o.usage.value in vouchers)
    && (o.inventory == Released ==> o.usage == None)
  }

  ghost predicate OrderFits(s: State, o: Order) {
    LinesKnown(s.variants, o) && StatusFits(o) && UsageFits(s.vouchers, o)
  }

  ghost predicate OrdersInv(s: State) {
    forall k :: 0 <= k < |s.orders| ==> OrderFits(s, s.orders[k])
  }

  /** The counter of a voucher is the number of its uses, within the limits overall and per user. */
  ghost predicate VoucherFits(vouchers: map<Id, Voucher>, orders: seq<Order>, x: Id)
    requires x in vouchers
  {
    && vouchers[x].usedCount == Uses(orders, x)
    && (vouchers[x].usageLimit.Some? ==> vouchers[x].usedCount <= Max(vouchers[x].usageLimit.value, 0))
    && forall user :: UsesBy(orders, x, user) <= Max(vouchers[x].userLimit, 0)
  }

  ghost predicate VouchersInv(vouchers: map<Id, Voucher>, orders: seq<Order>) {
    forall x :: x in vouchers ==> VoucherFits(vouchers, orders, x)
  }

  /** No two orders have one checkout key. */
  ghost predicate KeysInv(orders: seq<Order>) {
    forall i, j :: 0 <= i < j < |orders| ==> orders[i].key != orders[j].key
  }

  ghost predicate OrderInv(s: State) {
    StockInv(s.variants, s.orders) && OrdersInv(s) && VouchersInv(s.vouchers, s.orders) && KeysInv(s.orders)
  }

  /** Goods on hand and goods sold, less what came back: only staff corrections change this. */
  function Balance(s: State, v: Id): int
    requires v in s.variants
  {
    s.variants[v].stock + Sold(s.orders, v) - Restocked(s.requests, v)
  }

  // ----- quantities

  lemma QtyBounds(lines: seq<Line>, v: Id)
    ensures Qty(lines, v) >= 0
    ensures (forall k :: 0 <= k < |lines| ==> lines[k].variant != v) ==> Qty(lines, v) == 0
  {
    TotalBounds(QtyOf(v), lines);
    if forall k :: 0 <= k < |lines| ==> lines[k].variant != v {
      TotalZero(QtyOf(v), lines);
    }
  }

  /** What changing one order does to the sums over all orders. */
  lemma OrderSums(orders: seq<Order>, o: nat, x: Order, v: Id)
    requires o < |orders| && x.lines == orders[o].lines
    ensures var q := Qty(x.lines, v);
            && q >= 0
            && Held(orders[o := x], v) == Held(orders, v)
               - (if orders[o].inventory == Reserved then q else 0) + (if x.inventory == Reserved then q else 0)
            && Sold(orders[o := x], v) == Sold(orders, v)
               - (if orders[o].inventory == Committed then q else 0) + (if x.inventory == Committed then q else 0)
            && (orders[o].inventory == Reserved ==> q <= Held(orders, v))
            && (orders[o].inventory == Committed ==> q <= Sold(orders, v))
  {
    hide Qty, Total;
    QtyBounds(x.lines, v);
    TotalUpdate(HeldBy(v), orders, o, x);
    TotalUpdate(SoldBy(v), orders, o, x);
    forall k | 0 <= k < |orders|
      ensures HeldBy(v)(orders[k]) >= 0 && SoldBy(v)(orders[k]) >= 0
    {
      QtyBounds(orders[k].lines, v);
    }
    TotalBounds(HeldBy(v), orders);
    TotalBounds(SoldBy(v), orders);
  }

  /** Changing status or inventory of an order does not touch the use of vouchers. */
  lemma UsesUnchanged(orders: seq<Order>, o: nat, x: Order, id: Id)
    requires o < |orders| && x.usage == orders[o].usage && x.user == orders[o].user
    ensures Uses(orders[o := x], id) == Uses(orders, id)
    ensures forall user :: UsesBy(orders[o := x], id, user) == UsesBy(orders, id, user)
  {
    hide Total;
    TotalUpdate(UseOf(id), orders, o, x);
    forall user
      ensures UsesBy(orders[o := x], id, user) == UsesBy(orders, id, user)
    {
      TotalUpdate(UseOfBy(id, user), orders, o, x);
    }
  }

  // ----- the inventory transition

  /** With the stock invariant, the conditional updates of a transition always find their rows. */
  lemma RowsAlwaysAllow(s: State, o: nat, target: Inventory)
    requires o < |s.orders| && StockInv(s.variants, s.orders) && LinesKnown(s.variants, s.orders[o])
    requires target == Committed ==> s.orders[o].inventory == Reserved
    ensures RowsAllow(s.variants, s.orders[o], target)
  {
    hide Qty, Held;
    var order := s.orders[o];
    forall k | 0 <= k < |order.lines|
      ensures var v := order.lines[k].variant;
              RowAllows(s.variants, v, Qty(order.lines, v), order.inventory, target)
    {
      var v := order.lines[k].variant;
      OrderSums(s.orders, o, order, v);
      assert VariantFits(s.variants, s.orders, v);
    }
  }

  /** A transition keeps the stock invariant and the balance of every variant. */
  lemma TransitionKeeps(s: State, o: nat, target: Inventory, t: State)
    requires o < |s.orders| && target != Reserved && StockInv(s.variants, s.orders)
    requires Transition(s, o, target) == Done(t)
    ensures t.orders == s.orders[o := s.orders[o].(inventory := target)]
    ensures t.vouchers == s.vouchers && t.requests == s.requests && t.variants.Keys == s.variants.Keys
    ensures StockInv(t.variants, t.orders)
    ensures forall v :: v in s.variants ==> Balance(t, v) == Balance(s, v)
  {
    hide Qty, Held, Sold, Restocked, RowsAllow;
    var order := s.orders[o];
    assert order.inventory == target ==> s.orders[o := order] == s.orders;
    forall v | v in s.variants
      ensures v in t.variants && VariantFits(t.variants, t.orders, v) && Balance(t, v) == Balance(s, v)
    {
      assert VariantFits(s.variants, s.orders, v);
      OrderSums(s.orders, o, order.(inventory := target), v);
    }
  }

  /** A transition succeeds exactly if it is a step the inventory may take; the rows never stand in the way. */
  lemma TransitionSucceeds(s: State, o: nat, target: Inventory)
    requires o < |s.orders| && target != Reserved
    requires StockInv(s.variants, s.orders) && LinesKnown(s.variants, s.orders[o])
    ensures Transition(s, o, target).Done? <==>
            target == Released || s.orders[o].inventory == Reserved || s.orders[o].inventory == Committed
    ensures Transition(s, o, target) != Refused(BadRequest)
  {
    hide RowsAllow, Shift;
    if target == Released || s.orders[o].inventory == Reserved {
      RowsAlwaysAllow(s, o, target);
    }
  }

  // ----- vouchers given back

  lemma UsesAfterRelease(orders: seq<Order>, o: nat, x: Id, id: Id)
    requires o < |orders| && orders[o].usage == Some(x)
    ensures var after := orders[o := orders[o].(usage := None)];
            && Uses(after, id) == Uses(orders, id) - (if id == x then 1 else 0)
            && Uses(orders, x) >= 1
            && forall user :: UsesBy(after, id, user) <= UsesBy(orders, id, user)
  {
    hide Total;
    var y := orders[o].(usage := None);
    TotalUpdate(UseOf(id), orders, o, y);
    TotalBounds(UseOf(x), orders);
    assert UseOf(x)(orders[o]) == 1;
    forall user
      ensures UsesBy(orders[o := y], id, user) <= UsesBy(orders, id, user)
    {
      TotalUpdate(UseOfBy(id, user), orders, o, y);
    }
  }

  /** Giving the voucher back keeps the counters exact, and never has to stop at zero. */
  lemma ReleaseKeeps(s: State, o: nat)
    requires o < |s.orders| && VouchersInv(s.vouchers, s.orders)
    ensures var t := ReleaseVoucher(s, o);
            && VouchersInv(t.vouchers, t.orders)
            && t.variants == s.variants && t.requests == s.requests && t.vouchers.Keys == s.vouchers.Keys
            && t.orders == s.orders[o := s.orders[o].(usage := None)]
  {
    hide Uses, UsesBy;
    var t := ReleaseVoucher(s, o);
    match s.orders[o].usage
    case None =>
      assert s.orders[o := s.orders[o].(usage := None)] == s.orders;
    case Some(x) =>
      forall id | id in t.vouchers
        ensures VoucherFits(t.vouchers, t.orders, id)
      {
        UsesAfterRelease(s.orders, o, x, id);
        assert VoucherFits(s.vouchers, s.orders, id);
      }
  }

  // ----- changing one order

  /** The parts of an order that nothing ever changes. */
  predicate SameSale(x: Order, y: Order) {
    && x.user == y.user && x.key == y.key && x.lines == y.lines
    && x.subtotal == y.subtotal && x.discount == y.discount && x.shipping == y.shipping && x.total == y.total
  }

  lemma KeysKept(orders: seq<Order>, o: nat, x: Order)
    requires o < |orders| && KeysInv(orders) && SameSale(x, orders[o])
    ensures KeysInv(orders[o := x])
  {
  }

  /** Orders other than the changed one still fit, and the changed one has to. */
  lemma OrdersKept(s: State, t: State, o: nat)
    requires o < |s.orders| && |t.orders| == |s.orders| && OrdersInv(s)
    requires s.variants.Keys == t.variants.Keys && s.vouchers.Keys == t.vouchers.Keys
    requires forall k :: 0 <= k < |s.orders| && k != o ==> t.orders[k] == s.orders[k]
    requires StatusFits(t.orders[o]) && UsageFits(t.vouchers, t.orders[o]) && t.orders[o].lines == s.orders[o].lines
    ensures OrdersInv(t)
  {
    hide StatusFits;
    assert OrderFits(s, s.orders[o]);
    forall k | 0 <= k < |t.orders|
      ensures OrderFits(t, t.orders[k])
    {
      assert OrderFits(s, s.orders[k]);
    }
  }

  lemma StatusKeepsSums(s: State, o: nat, status: Status)
    requires o < |s.orders|
    ensures var t := WithStatus(s, o, status);
            && (forall v :: Held(t.orders, v) == Held(s.orders, v) && Sold(t.orders, v) == Sold(s.orders, v))
            && (forall x :: Uses(t.orders, x) == Uses(s.orders, x))
            && (forall x, user :: UsesBy(t.orders, x, user) == UsesBy(s.orders, x, user))
  {
    hide Held, Sold, Uses, UsesBy, Qty;
    var y := s.orders[o].(status := status);
    forall v
      ensures Held(s.orders[o := y], v) == Held(s.orders, v) && Sold(s.orders[o := y], v) == Sold(s.orders, v)
    {
      OrderSums(s.orders, o, y, v);
    }
    forall x
      ensures Uses(s.orders[o := y], x) == Uses(s.orders, x)
    {
      UsesUnchanged(s.orders, o, y, x);
    }
    forall x, user
      ensures UsesBy(s.orders[o := y], x, user) == UsesBy(s.orders, x, user)
    {
      UsesUnchanged(s.orders, o, y, x);
    }
  }

  /** Setting a status that agrees with the inventory keeps everything. */
  lemma StatusKeeps(s: State, o: nat, status: Status)
    requires o < |s.orders| && StockInv(s.variants, s.orders) && VouchersInv(s.vouchers, s.orders) && KeysInv(s.orders)
    ensures var t := WithStatus(s, o, status);
            && StockInv(t.variants, t.orders) && VouchersInv(t.vouchers, t.orders) && KeysInv(t.orders)
            && t.variants == s.variants && t.vouchers == s.vouchers && t.requests == s.requests
            && t.orders == s.orders[o := s.orders[o].(status := status)]
            && (forall v :: v in s.variants ==> Balance(t, v) == Balance(s, v))
  {
    hide Held, Sold, Uses, UsesBy, Restocked;
    var t := WithStatus(s, o, status);
    StatusKeepsSums(s, o, status);
    KeysKept(s.orders, o, t.orders[o]);
    forall v | v in t.variants
      ensures VariantFits(t.variants, t.orders, v)
    {
      assert VariantFits(s.variants, s.orders, v);
    }
    forall x | x in t.vouchers
      ensures VoucherFits(t.vouchers, t.orders, x)
    {
      assert VoucherFits(s.vouchers, s.orders, x);
    }
  }

  // ----- the composite steps on orders

  /** What every step on an order keeps. */
  ghost predicate Keeps(s: State, t: State) {
    && OrderInv(t)
    && t.requests == s.requests
    && |t.orders| == |s.orders| && (forall k :: 0 <= k < |s.orders| ==> SameSale(t.orders[k], s.orders[k]))
    && t.variants.Keys == s.variants.Keys && t.vouchers.Keys == s.vouchers.Keys
    && (forall v :: v in s.variants ==> Balance(t, v) == Balance(s, v))
  }

  lemma TransitionVouchers(s: State, o: nat, target: Inventory, t: State)
    requires o < |s.orders| && target != Reserved && StockInv(s.variants, s.orders)
    requires VouchersInv(s.vouchers, s.orders) && KeysInv(s.orders)
    requires Transition(s, o, target) == Done(t)
    ensures VouchersInv(t.vouchers, t.orders) && KeysInv(t.orders)
  {
    hide Transition, Uses, UsesBy, StockInv;
    TransitionKeeps(s, o, target, t);
    KeysKept(s.orders, o, s.orders[o].(inventory := target));
    forall x | x in t.vouchers
      ensures VoucherFits(t.vouchers, t.orders, x)
    {
      UsesUnchanged(s.orders, o, s.orders[o].(inventory := target), x);
      assert VoucherFits(s.vouchers, s.orders, x);
      VoucherSame(s.vouchers, s.orders, t.orders, x);
    }
  }

  lemma VoucherSame(vouchers: map<Id, Voucher>, a: seq<Order>, b: seq<Order>, x: Id)
    requires x in vouchers && VoucherFits(vouchers, a, x)
    requires Uses(b, x) == Uses(a, x) && forall user :: UsesBy(b, x, user) == UsesBy(a, x, user)
    ensures VoucherFits(vouchers, b, x)
  {
    hide Uses, UsesBy;
  }

  lemma OrderAt(s: State, o: nat)
    requires o < |s.orders| && OrdersInv(s)
    ensures LinesKnown(s.variants, s.orders[o]) && StatusFits(s.orders[o]) && UsageFits(s.vouchers, s.orders[o])
  {
    assert OrderFits(s, s.orders[o]);
  }

  /** Committing the goods of a pending order and confirming it. */
  lemma CommitKeeps(s: State, o: nat)
    requires o < |s.orders| && OrderInv(s) && s.orders[o].status == Pending
    ensures Transition(s, o, Committed).Done?
    ensures var t := Transition(s, o, Committed).state;
            && o < |t.orders| && Keeps(s, WithStatus(t, o, Confirmed))
            && WithStatus(t, o, Confirmed).orders
                == s.orders[o := s.orders[o].(inventory := Committed, status := Confirmed)]
            && t.vouchers == s.vouchers
  {
    hide Transition, StockInv, VouchersInv, KeysInv, OrdersInv, Balance, LinesKnown;
    OrderAt(s, o);
    TransitionSucceeds(s, o, Committed);
    var t := Transition(s, o, Committed).state;
    TransitionKeeps(s, o, Committed, t);
    TransitionVouchers(s, o, Committed, t);
    StatusKeeps(t, o, Confirmed);
    OrdersKept(s, WithStatus(t, o, Confirmed), o);
  }

  /** Giving back goods and voucher of an order that is pending, confirmed or processing, and cancelling it. */
  lemma CancelKeeps(s: State, o: nat)
    requires o < |s.orders| && OrderInv(s)
    requires s.orders[o].status == Pending || s.orders[o].status == Confirmed || s.orders[o].status == Processing
    ensures Cancelling(s, o).Done?
    ensures var t := Cancelling(s, o).state;
            && o < |t.orders| && Keeps(s, WithStatus(t, o, Cancelled))
            && WithStatus(t, o, Cancelled).orders
               == s.orders[o := s.orders[o].(inventory := Released, usage := None, status := Cancelled)]
  {
    hide Transition, StockInv, VouchersInv, KeysInv, OrdersInv, Balance, LinesKnown, ReleaseVoucher;
    OrderAt(s, o);
    TransitionSucceeds(s, o, Released);
    var t := Transition(s, o, Released).state;
    TransitionKeeps(s, o, Released, t);
    TransitionVouchers(s, o, Released, t);
    ReleaseKeeps(t, o);
    var u := ReleaseVoucher(t, o);
    ReleaseKeepsStock(t, o);
    StatusKeeps(u, o, Cancelled);
    OrdersKept(s, WithStatus(u, o, Cancelled), o);
  }

  lemma ReleaseKeepsStock(s: State, o: nat)
    requires o < |s.orders| && StockInv(s.variants, s.orders) && KeysInv(s.orders) && VouchersInv(s.vouchers, s.orders)
    ensures var t := ReleaseVoucher(s, o);
            && StockInv(t.variants, t.orders) && KeysInv(t.orders)
            && forall v :: v in s.variants ==> v in t.variants && Balance(t, v) == Balance(s, v)
  {
    hide ReleaseVoucher, Held, Sold, Restocked, Qty, VouchersInv;
    ReleaseKeeps(s, o);
    var t := ReleaseVoucher(s, o);
    KeysKept(s.orders, o, s.orders[o].(usage := None));
    forall v | v in s.variants
      ensures VariantFits(t.variants, t.orders, v) && Balance(t, v) == Balance(s, v)
    {
      assert VariantFits(s.variants, s.orders, v);
      OrderSums(s.orders, o, s.orders[o].(usage := None), v);
    }
  }

  /** A status change that leaves the goods where they are. */
  lemma AdvanceKeeps(s: State, o: nat, status: Status)
    requires o < |s.orders| && OrderInv(s) && StatusFits(s.orders[o].(status := status))
    ensures Keeps(s, WithStatus(s, o, status))
  {
    hide StockInv, VouchersInv, KeysInv, OrdersInv, Balance, LinesKnown;
    OrderAt(s, o);
    StatusKeeps(s, o, status);
    OrdersKept(s, WithStatus(s, o, status), o);
  }
}
