/**
Checkout: the line-by-line conditional updates against the total demand, and the invariants after a new
order.
 */
module ShopCheckout {
  import opened Basics
  import opened Totals
  import opened ShopState
  import opened ShopMoney
  import opened ShopTransactions
  import opened ShopInvariants

  lemma QtySnoc(lines: seq<Line>, v: Id)
    requires lines != []
    ensures Qty(lines, v) == Qty(lines[..|lines| - 1], v) + QtyOf(v)(lines[|lines| - 1])
  {
  }

  /** `after` is `before` with the quantities of the lines added to the reservations, within the stock. */
  ghost predicate ReservedFor(before: map<Id, Variant>, lines: seq<Line>, after: map<Id, Variant>) {
    && after.Keys == before.Keys
    && forall v :: v in before ==>
         && after[v] == before[v].(reserved := before[v].reserved + Qty(lines, v))
         && (before[v].reserved <= before[v].stock ==> after[v].reserved <= after[v].stock)
  }

  lemma ReserveOneIs(before: map<Id, Variant>, lines: seq<Line>, mid: map<Id, Variant>)
    requires lines != [] && ReservedFor(before, lines[..|lines| - 1], mid)
    requires ReserveOne(mid, lines[|lines| - 1]).Some?
    ensures ReservedFor(before, lines, ReserveOne(mid, lines[|lines| - 1]).value)
    ensures lines[|lines| - 1].variant in before && before[lines[|lines| - 1].variant].active
  {
    hide Qty;
    var after := ReserveOne(mid, lines[|lines| - 1]).value;
    forall v | v in before
      ensures after[v] == before[v].(reserved := before[v].reserved + Qty(lines, v))
    {
      QtySnoc(lines, v);
    }
  }

  lemma {:induction false} ReserveIs(variants: map<Id, Variant>, lines: seq<Line>)
    requires Reserve(variants, lines).Some?
    ensures ReservedFor(variants, lines, Reserve(variants, lines).value)
    ensures forall k :: 0 <= k < |lines| ==> lines[k].variant in variants && variants[lines[k].variant].active
  {
    if lines == [] {
      assert forall v :: Qty(lines, v) == 0;
    } else {
      hide Qty, ReservedFor, ReserveOne;
      ReserveIs(variants, lines[..|lines| - 1]);
      ReserveOneIs(variants, lines, Reserve(variants, lines[..|lines| - 1]).value);
    }
  }

  /** The lines can be reserved as a whole: known, on sale, and in total within what is free. */
  ghost predicate Fits(variants: map<Id, Variant>, lines: seq<Line>) {
    forall k :: 0 <= k < |lines| ==>
      var v := lines[k].variant;
      v in variants && variants[v].active && Qty(lines, v) <= variants[v].stock - variants[v].reserved
  }

  /**
  Reserving line by line succeeds if and only if the total demand fits, also when several lines ask for
  one variant: no order gets through on the strength of its lines one at a time, and none fails without
  reason.
   */
  lemma {:induction false} ReserveIffFits(variants: map<Id, Variant>, lines: seq<Line>)
    requires forall v :: v in variants ==> variants[v].reserved <= variants[v].stock
    ensures Reserve(variants, lines).Some? <==> Fits(variants, lines)
  {
    if lines != [] {
      hide Qty;
      var n := |lines| - 1;
      var last := lines[n];
      forall v
        ensures Qty(lines, v) == Qty(lines[..n], v) + QtyOf(v)(last) && Qty(lines[..n], v) >= 0
      {
        QtySnoc(lines, v);
        QtyBounds(lines[..n], v);
      }
      ReserveIffFits(variants, lines[..n]);
      if Reserve(variants, lines[..n]).Some? {
        ReserveIs(variants, lines[..n]);
      }
      if Fits(variants, lines) {
        forall k | 0 <= k < n
          ensures var v := lines[..n][k].variant;
                  v in variants && variants[v].active && Qty(lines[..n], v) <= variants[v].stock - variants[v].reserved
        {
          assert lines[..n][k] == lines[k];
        }
      }
      if Reserve(variants, lines).Some? {
        ReserveIs(variants, lines);
        forall k | 0 <= k < |lines|
          ensures Qty(lines, lines[k].variant) <= variants[lines[k].variant].stock - variants[lines[k].variant].reserved
        {
        }
      }
    }
  }

  lemma SumsOfNew(orders: seq<Order>, x: Order, v: Id)
    ensures Held(orders + [x], v) == Held(orders, v) + (if x.inventory == Reserved then Qty(x.lines, v) else 0)
    ensures Sold(orders + [x], v) == Sold(orders, v) + (if x.inventory == Committed then Qty(x.lines, v) else 0)
  {
    hide Qty, Total;
    TotalSnoc(HeldBy(v), orders, x);
    TotalSnoc(SoldBy(v), orders, x);
  }

  lemma UsesOfNew(orders: seq<Order>, x: Order, id: Id)
    ensures Uses(orders + [x], id) == Uses(orders, id) + (if x.usage == Some(id) then 1 else 0)
    ensures forall user :: UsesBy(orders + [x], id, user)
                        == UsesBy(orders, id, user) + (if x.usage == Some(id) && x.user == user then 1 else 0)
  {
    hide Total;
    TotalSnoc(UseOf(id), orders, x);
    forall user
      ensures UsesBy(orders + [x], id, user)
           == UsesBy(orders, id, user) + (if x.usage == Some(id) && x.user == user then 1 else 0)
    {
      TotalSnoc(UseOfBy(id, user), orders, x);
    }
  }

  lemma NewOrderStock(s: State, x: Order, variants: map<Id, Variant>)
    requires StockInv(s.variants, s.orders) && x.inventory == Reserved && ReservedFor(s.variants, x.lines, variants)
    ensures StockInv(variants, s.orders + [x])
  {
    hide Qty, Held;
    forall v | v in variants
      ensures VariantFits(variants, s.orders + [x], v)
    {
      assert VariantFits(s.variants, s.orders, v);
      SumsOfNew(s.orders, x, v);
      QtyBounds(x.lines, v);
    }
  }

  lemma NewOrderVouchers(s: State, x: Order, now: int)
    requires VouchersInv(s.vouchers, s.orders)
    requires x.usage.Some? ==> VoucherUsable(s, x.usage.value, x.user, x.subtotal, now)
    ensures VouchersInv(if x.usage.Some? then Count(s.vouchers, x.usage.value) else s.vouchers, s.orders + [x])
  {
    hide Uses, UsesBy;
    var vouchers := if x.usage.Some? then Count(s.vouchers, x.usage.value) else s.vouchers;
    forall id | id in vouchers
      ensures VoucherFits(vouchers, s.orders + [x], id)
    {
      UsesOfNew(s.orders, x, id);
      assert VoucherFits(s.vouchers, s.orders, id);
    }
  }

  lemma NewOrderKeys(orders: seq<Order>, x: Order)
    requires KeysInv(orders) && Insertable(orders, x.key, x.lines)
    ensures KeysInv(orders + [x])
  {
  }

  lemma NewOrderFits(s: State, t: State, x: Order)
    requires OrdersInv(s) && t.orders == s.orders + [x] && t.variants.Keys == s.variants.Keys
    requires s.vouchers.Keys == t.vouchers.Keys
    requires LinesKnown(s.variants, x) && StatusFits(x) && UsageFits(t.vouchers, x)
    ensures OrdersInv(t)
  {
    forall k | 0 <= k < |t.orders|
      ensures OrderFits(t, t.orders[k])
    {
      if k < |s.orders| {
        assert OrderFits(s, s.orders[k]);
      }
    }
  }

  /** Checkout keeps the invariants and the balance of every variant; a replay changes nothing. */
  lemma CreateKeeps(s: State, user: Id, c: Checkout, now: int)
    requires OrderInv(s) && CreateOrder(s, user, c, now).Done?
    ensures var t := CreateOrder(s, user, c, now).state;
            && OrderInv(t)
            && t.requests == s.requests && t.variants.Keys == s.variants.Keys && t.vouchers.Keys == s.vouchers.Keys
            && s.orders <= t.orders
            && (forall v :: v in s.variants ==> Balance(t, v) == Balance(s, v))
  {
    hide StockInv, VouchersInv, KeysInv, OrdersInv, Reserve, VoucherUsable, Replayed, Insertable, Discount;
    hide Sold, Restocked, LinesKnown;
    if !Replayed(s.orders, user, c.key) {
      var t := CreateOrder(s, user, c, now).state;
      var x := t.orders[|s.orders|];
      ReserveIs(s.variants, c.lines);
      KnownLines(s.variants, x);
      NewOrderStock(s, x, t.variants);
      NewOrderVouchers(s, x, now);
      NewOrderKeys(s.orders, x);
      UsableIsKnown(s, c.voucher, user, c.subtotal, now);
      NewOrderFits(s, t, x);
      forall v | v in s.variants
        ensures Balance(t, v) == Balance(s, v)
      {
        SumsOfNew(s.orders, x, v);
      }
    }
  }

  lemma KnownLines(variants: map<Id, Variant>, x: Order)
    requires forall k :: 0 <= k < |x.lines| ==> x.lines[k].variant in variants && variants[x.lines[k].variant].active
    ensures LinesKnown(variants, x)
  {
  }

  lemma UsableIsKnown(s: State, voucher: Option<Id>, user: Id, amount: int, now: int)
    requires voucher.Some? ==> VoucherUsable(s, voucher.value, user, amount, now)
    ensures voucher.Some? ==> voucher.value in s.vouchers
  {
  }

  /** A correction of the stock by staff keeps the invariants and shifts the balance by the correction. */
  lemma EditKeeps(s: State, v: Id, stock: Option<int>, active: Option<bool>)
    requires OrderInv(s) && EditVariant(s, v, stock, active).Done?
    ensures var t := EditVariant(s, v, stock, active).state;
            && OrderInv(t)
            && t.requests == s.requests && t.orders == s.orders && t.vouchers == s.vouchers
            && t.variants.Keys == s.variants.Keys
            && (forall w :: w in s.variants && w != v ==> Balance(t, w) == Balance(s, w))
            && Balance(t, v) == Balance(s, v) + (if stock.Some? then stock.value - s.variants[v].stock else 0)
  {
    hide Held, Sold, Restocked, VouchersInv, KeysInv;
    var t := EditVariant(s, v, stock, active).state;
    forall w | w in t.variants
      ensures VariantFits(t.variants, t.orders, w)
    {
      assert VariantFits(s.variants, s.orders, w);
      assert VariantFits(s.variants, s.orders, v);
    }
    forall k | 0 <= k < |t.orders|
      ensures OrderFits(t, t.orders[k])
    {
      assert OrderFits(s, s.orders[k]);
    }
  }
}
