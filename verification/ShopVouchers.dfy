/**
Which checkouts are accepted, said without the functions that decide it: the terms of the voucher, the total
demand against the stock, the constraints on the new rows; and what an accepted checkout writes down. Over
whole runs, every order with a voucher came in on the terms of that voucher.
 */
module ShopVouchers {
  import opened Basics
  import opened Totals
  import opened ShopState
  import opened ShopMoney
  import opened ShopTransactions
  import opened ShopInvariants
  import opened ShopCheckout
  import opened ShopRuns
  import opened ShopReturned

  // ----- counting orders

  /** The orders up to the `n`-th that satisfy `p`. */
  ghost function Positions(p: Order -> bool, orders: seq<Order>): set<int> {
    set k | 0 <= k < |orders| && p(orders[k])
  }

  /** A sum of ones and zeros is the number of ones. */
  lemma {:induction false} TotalCounts(f: Order -> int, p: Order -> bool, orders: seq<Order>)
    requires forall o :: f(o) == if p(o) then 1 else 0
    ensures Total(f, orders) == |Positions(p, orders)|
  {
    if orders == [] {
      assert Positions(p, orders) == {};
    } else {
      var n := |orders| - 1;
      TotalCounts(f, p, orders[..n]);
      assert Positions(p, orders) == Positions(p, orders[..n]) + if p(orders[n]) then {n} else {};
    }
  }

  ghost function Carries(x: Id): Order -> bool {
    (o: Order) => o.usage == Some(x)
  }

  ghost function CarriesBy(x: Id, user: Id): Order -> bool {
    (o: Order) => o.usage == Some(x) && o.user == user
  }

  /** The uses of a voucher are the orders that carry it. */
  lemma UsesAreOrders(orders: seq<Order>, x: Id, user: Id)
    ensures Uses(orders, x) == |Positions(Carries(x), orders)|
    ensures UsesBy(orders, x, user) == |Positions(CarriesBy(x, user), orders)|
  {
    TotalCounts(UseOf(x), Carries(x), orders);
    TotalCounts(UseOfBy(x, user), CarriesBy(x, user), orders);
  }

  // ----- answers to a checkout

  /** The customer has no order of the key yet. */
  ghost predicate IsNew(orders: seq<Order>, user: Id, key: string) {
    forall k :: 0 <= k < |orders| ==> !(orders[k].user == user && orders[k].key == key)
  }

  lemma NewIsNotReplayed(orders: seq<Order>, user: Id, key: string)
    ensures Replayed(orders, user, key) <==> !IsNew(orders, user, key)
  {
  }

  /**
  A new checkout with a voucher is refused for it if and only if the voucher is unknown, switched off, not valid
  yet or no more, asks for a larger order, or is used up, overall or by the customer.
   */
  lemma VoucherRefused(s: State, user: Id, c: Checkout, now: int)
    requires IsNew(s.orders, user, c.key) && c.voucher.Some?
    ensures var x := c.voucher.value;
            CreateOrder(s, user, c, now) == Refused(BadRequest) <==>
              || x !in s.vouchers
              || !s.vouchers[x].active
              || now < s.vouchers[x].startsAt
              || now > s.vouchers[x].expiresAt
              || c.subtotal < s.vouchers[x].minOrder
              || (s.vouchers[x].usageLimit.Some? && s.vouchers[x].usedCount >= s.vouchers[x].usageLimit.value)
              || |Positions(CarriesBy(x, user), s.orders)| >= s.vouchers[x].userLimit
  {
    hide Reserve, Discount, Replayed, Insertable, UsesBy;
    NewIsNotReplayed(s.orders, user, c.key);
    UsesAreOrders(s.orders, c.voucher.value, user);
  }

  /** Without a voucher there is none to refuse; one that is fine refuses nothing. */
  lemma NotForVoucher(s: State, user: Id, c: Checkout, now: int)
    requires IsNew(s.orders, user, c.key)
    requires c.voucher.Some? ==> VoucherUsable(s, c.voucher.value, user, c.subtotal, now)
    ensures CreateOrder(s, user, c, now) != Refused(BadRequest)
    ensures CreateOrder(s, user, c, now) == Refused(Conflict) <==> Reserve(s.variants, c.lines).None?
    ensures CreateOrder(s, user, c, now).Done? <==>
              Reserve(s.variants, c.lines).Some? && Insertable(s.orders, c.key, c.lines)
  {
    hide Reserve, VoucherUsable, Discount, Replayed, Insertable;
    NewIsNotReplayed(s.orders, user, c.key);
  }

  /** The total demand for a variant of the cart, line by line. */
  ghost predicate CartFits(variants: map<Id, Variant>, lines: seq<Line>) {
    forall k :: 0 <= k < |lines| ==>
      var v := lines[k].variant;
      v in variants && variants[v].active && variants[v].reserved + Qty(lines, v) <= variants[v].stock
  }

  /**
  A new checkout with nothing against its voucher is refused for lack of goods if and only if some line asks for
  a variant that is unknown, off sale, or asked for in all beyond what is free; it is accepted if and only if
  there are goods, the key is new to all customers and no line asks for nothing.
   */
  lemma CheckoutAccepted(s: State, user: Id, c: Checkout, now: int)
    requires StockInv(s.variants, s.orders) && IsNew(s.orders, user, c.key)
    requires CreateOrder(s, user, c, now) != Refused(BadRequest)
    ensures CreateOrder(s, user, c, now) == Refused(Conflict) <==> !CartFits(s.variants, c.lines)
    ensures CreateOrder(s, user, c, now).Done? <==>
              && CartFits(s.variants, c.lines)
              && (forall k :: 0 <= k < |s.orders| ==> s.orders[k].key != c.key)
              && (forall k :: 0 <= k < |c.lines| ==> c.lines[k].quantity > 0)
  {
    hide Reserve, VoucherUsable, Qty, Held;
    Usable(s, user, c, now);
    NotForVoucher(s, user, c, now);
    forall v | v in s.variants
      ensures s.variants[v].reserved <= s.variants[v].stock
    {
      assert VariantFits(s.variants, s.orders, v);
    }
    ReserveIffFits(s.variants, c.lines);
  }

  lemma Usable(s: State, user: Id, c: Checkout, now: int)
    requires IsNew(s.orders, user, c.key) && CreateOrder(s, user, c, now) != Refused(BadRequest)
    ensures c.voucher.Some? ==> VoucherUsable(s, c.voucher.value, user, c.subtotal, now)
  {
    hide Reserve, VoucherUsable, Discount, Replayed, Insertable;
    NewIsNotReplayed(s.orders, user, c.key);
  }

  /**
  What an accepted checkout writes down: one order, pending and with its goods on reserve, with the discount of
  the voucher as it stood and the fee below the free amount; one more use of the voucher.
   */
  lemma CheckoutRecords(s: State, user: Id, c: Checkout, now: int)
    requires IsNew(s.orders, user, c.key) && CreateOrder(s, user, c, now).Done?
    ensures var t := CreateOrder(s, user, c, now).state;
            && |t.orders| == |s.orders| + 1 && t.orders[..|s.orders|] == s.orders && t.requests == s.requests
            && var o := t.orders[|s.orders|];
            && o.user == user && o.key == c.key && o.status == Pending && o.inventory == Reserved
            && o.lines == c.lines && o.subtotal == c.subtotal && o.usage == c.voucher
            && o.shipping == (if c.subtotal < c.freeFrom then c.baseFee else 0)
            && o.total == c.subtotal - o.discount + o.shipping
            && (c.voucher.None? ==> o.discount == 0 && t.vouchers == s.vouchers)
            && (c.voucher.Some? ==>
                  && c.voucher.value in s.vouchers
                  && o.discount == Discount(s.vouchers[c.voucher.value], c.subtotal)
                  && t.vouchers.Keys == s.vouchers.Keys
                  && (forall x :: x in s.vouchers && x != c.voucher.value ==> t.vouchers[x] == s.vouchers[x])
                  && var v := s.vouchers[c.voucher.value];
                     t.vouchers[c.voucher.value] == v.(usedCount := v.usedCount + 1))
  {
    hide Reserve, VoucherUsable, Replayed, Insertable;
    NewIsNotReplayed(s.orders, user, c.key);
    Usable(s, user, c, now);
    UsableIsKnown(s, c.voucher, user, c.subtotal, now);
    hide Discount;
  }

  // ----- the terms of vouchers over runs

  /** The vouchers are the same but for their counters. */
  ghost predicate SameTerms(a: map<Id, Voucher>, b: map<Id, Voucher>) {
    && a.Keys == b.Keys
    && forall x :: x in a ==> b[x] == a[x].(usedCount := b[x].usedCount)
  }

  lemma TransitionTerms(s: State, o: nat, target: Inventory)
    requires o < |s.orders| && target != Reserved && Transition(s, o, target).Done?
    ensures Transition(s, o, target).state.vouchers == s.vouchers
    ensures |Transition(s, o, target).state.orders| == |s.orders|
  {
    hide RowsAllow, Shift;
  }

  lemma CancelTerms(s: State, o: nat)
    requires o < |s.orders| && Cancelling(s, o).Done?
    ensures SameTerms(s.vouchers, Cancelling(s, o).state.vouchers)
  {
    hide Transition;
    TransitionTerms(s, o, Released);
  }

  lemma PaymentTerms(s: State, o: nat, payment: PaymentStatus, want: Option<Status>, settled: bool)
    requires UpdatePayment(s, o, payment, want, settled).Done?
    ensures SameTerms(s.vouchers, UpdatePayment(s, o, payment, want, settled).state.vouchers)
  {
    hide Transition, Cancelling, CompleteWaiting;
    if payment == PaidUp && s.orders[o].status == Pending {
      TransitionTerms(s, o, Committed);
    } else if payment == Failed && s.orders[o].status == Pending && !settled {
      CancelTerms(s, o);
    }
  }

  lemma StatusTerms(s: State, o: nat, status: Status, payments: seq<Payment>)
    requires UpdateStatus(s, o, status, payments).Done?
    ensures SameTerms(s.vouchers, UpdateStatus(s, o, status, payments).state.vouchers)
  {
    hide Transition, Cancelling;
    if s.orders[o].status == status {
    } else if status == Confirmed {
      TransitionTerms(s, o, Committed);
    } else if status == Cancelled {
      CancelTerms(s, o);
    }
  }

  lemma CreateTerms(s: State, user: Id, c: Checkout, now: int)
    requires CreateOrder(s, user, c, now).Done?
    ensures SameTerms(s.vouchers, CreateOrder(s, user, c, now).state.vouchers)
  {
    hide SameTerms;
    if IsNew(s.orders, user, c.key) {
      hide CreateOrder;
      CheckoutRecords(s, user, c, now);
      CountedTerms(s.vouchers, CreateOrder(s, user, c, now).state.vouchers, c.voucher);
    } else {
      NewIsNotReplayed(s.orders, user, c.key);
      TermsRefl(s.vouchers);
    }
  }

  lemma TermsRefl(a: map<Id, Voucher>)
    ensures SameTerms(a, a)
  {
  }

  lemma CountedTerms(a: map<Id, Voucher>, b: map<Id, Voucher>, voucher: Option<Id>)
    requires voucher.None? ==> b == a
    requires voucher.Some? ==>
               && voucher.value in a && b.Keys == a.Keys
               && (forall x :: x in a && x != voucher.value ==> b[x] == a[x])
               && b[voucher.value] == a[voucher.value].(usedCount := a[voucher.value].usedCount + 1)
    ensures SameTerms(a, b)
  {
  }

  lemma ReturnsTerms(s: State, a: Action)
    requires a.AAsk? || a.AReview? || a.AReceive? || a.ADispatched? || a.ARefund? || a.AManual? || a.AEdit?
    ensures Apply(s, a).vouchers == s.vouchers
  {
    hide PickLines, GiftRule, Available, HasActive, ValidPicks;
    hide Paid, Merchandise, RestockAll, ReceivedLines, Refund, ExactChoices;
  }

  lemma ApplyTerms(s: State, a: Action)
    ensures SameTerms(s.vouchers, Apply(s, a).vouchers)
  {
    hide SameTerms, CreateOrder, UpdatePayment, UpdateStatus;
    hide AskReturn, Review, Receive, Dispatched, RefundResult, ManualRefund, EditVariant;
    TermsRefl(s.vouchers);
    if Execute(s, a).Done? {
      match a
      case ACreate(user, c, now) => CreateTerms(s, user, c, now);
      case APayment(o, payment, want, settled) => PaymentTerms(s, o, payment, want, settled);
      case AStatus(o, status, payments) => StatusTerms(s, o, status, payments);
      case _ => ReturnsTerms(s, a);
    }
  }

  lemma TermsTrans(a: map<Id, Voucher>, b: map<Id, Voucher>, c: map<Id, Voucher>)
    requires SameTerms(a, b) && SameTerms(b, c)
    ensures SameTerms(a, c)
  {
  }

  /** A run changes nothing about vouchers but their counters. */
  lemma {:induction false} RunTerms(s: State, actions: seq<Action>)
    ensures SameTerms(s.vouchers, Run(s, actions).vouchers)
  {
    hide SameTerms, Apply;
    if actions == [] {
      TermsRefl(s.vouchers);
    } else {
      var before := actions[..|actions| - 1];
      RunTerms(s, before);
      ApplyTerms(Run(s, before), actions[|actions| - 1]);
      TermsTrans(s.vouchers, Run(s, before).vouchers, Run(s, actions).vouchers);
    }
  }

  // ----- every order came in on the terms of its voucher

  /** The checkout meets the terms of the voucher, limits on uses apart. */
  ghost predicate OnTerms(vouchers: map<Id, Voucher>, x: Id, amount: int, now: int) {
    && x in vouchers && vouchers[x].active
    && vouchers[x].startsAt <= now <= vouchers[x].expiresAt
    && vouchers[x].minOrder <= amount
  }

  /** Some checkout of the run asked for the voucher on its terms, with the key and amount of the order. */
  ghost predicate CameOnTerms(vouchers: map<Id, Voucher>, actions: seq<Action>, o: Order, x: Id) {
    exists i :: 0 <= i < |actions| && CheckedOut(vouchers, actions[i], o, x)
  }

  ghost predicate CheckedOut(vouchers: map<Id, Voucher>, a: Action, o: Order, x: Id) {
    && a.ACreate? && a.c.voucher == Some(x)
    && a.user == o.user && a.c.key == o.key && a.c.subtotal == o.subtotal
    && OnTerms(vouchers, x, o.subtotal, a.now)
  }

  lemma AcceptedOnTerms(s: State, user: Id, c: Checkout, now: int)
    requires IsNew(s.orders, user, c.key) && c.voucher.Some? && CreateOrder(s, user, c, now).Done?
    ensures OnTerms(s.vouchers, c.voucher.value, c.subtotal, now)
  {
    hide CreateOrder, Positions, CarriesBy;
    VoucherRefused(s, user, c, now);
  }

  lemma TermsOf(a: map<Id, Voucher>, b: map<Id, Voucher>, x: Id, amount: int, now: int)
    requires SameTerms(a, b) && OnTerms(b, x, amount, now)
    ensures OnTerms(a, x, amount, now)
  {
  }

  /** The last step of a run: an order it adds came in on terms, and it adds no use to an older one. */
  lemma StepOnTerms(s: State, a: Action, k: nat, x: Id)
    requires Inv(s) && k < |Apply(s, a).orders| && Apply(s, a).orders[k].usage == Some(x)
    ensures k < |s.orders| ==> s.orders[k].usage == Some(x) && SameSale(Apply(s, a).orders[k], s.orders[k])
    ensures k >= |s.orders| ==> CheckedOut(s.vouchers, a, Apply(s, a).orders[k], x)
  {
    hide Inv, Execute, SameSale, OnTerms;
    ApplyKeeps(s, a);
    if k < |s.orders| {
      assert OrderLater(s.orders[k], Apply(s, a).orders[k]);
    } else {
      AddsByCheckout(s, a);
      var t := CreateOrder(s, a.user, a.c, a.now).state;
      hide CreateOrder;
      CheckoutRecords(s, a.user, a.c, a.now);
      assert k == |s.orders|;
      AcceptedOnTerms(s, a.user, a.c, a.now);
    }
  }

  lemma AddsByCheckout(s: State, a: Action)
    requires Inv(s) && |s.orders| < |Apply(s, a).orders|
    ensures a.ACreate? && CreateOrder(s, a.user, a.c, a.now) == Done(Apply(s, a))
    ensures IsNew(s.orders, a.user, a.c.key)
  {
    hide Inv, CreateOrder;
    if !a.ACreate? {
      hide Execute;
      OnlyCheckoutAdds(s, a);
      assert false;
    }
    NewIsNotReplayed(s.orders, a.user, a.c.key);
    ReplayAddsNothing(s, a.user, a.c, a.now);
  }

  lemma ReplayAddsNothing(s: State, user: Id, c: Checkout, now: int)
    ensures Replayed(s.orders, user, c.key) ==> CreateOrder(s, user, c, now) == Done(s)
  {
    hide Replayed;
  }

  lemma EarlierOnTerms(vouchers: map<Id, Voucher>, actions: seq<Action>, o: Order, p: Order, x: Id)
    requires actions != [] && CameOnTerms(vouchers, actions[..|actions| - 1], o, x) && SameSale(p, o)
    ensures CameOnTerms(vouchers, actions, p, x)
  {
    var i :| 0 <= i < |actions| - 1 && CheckedOut(vouchers, actions[..|actions| - 1][i], o, x);
    assert CheckedOut(vouchers, actions[i], p, x);
  }

  /**
  In any run, every order that carries a voucher was made by a checkout inside the window of that voucher and
  above its minimum, as they stood at the opening.
   */
  lemma {:induction false} OrdersCameOnTerms(s: State, actions: seq<Action>, k: nat, x: Id)
    requires Opening(s) && k < |Run(s, actions).orders| && Run(s, actions).orders[k].usage == Some(x)
    ensures CameOnTerms(s.vouchers, actions, Run(s, actions).orders[k], x)
  {
    if actions != [] {
      hide Inv, Apply, CameOnTerms, Opening, SameTerms, SameSale, OnTerms;
      var before, a := actions[..|actions| - 1], actions[|actions| - 1];
      var mid := Run(s, before);
      OpeningInv(s);
      RunKeeps(s, before);
      StepOnTerms(mid, a, k, x);
      RunTerms(s, before);
      if k < |mid.orders| {
        OrdersCameOnTerms(s, before, k, x);
        EarlierOnTerms(s.vouchers, actions, mid.orders[k], Run(s, actions).orders[k], x);
      } else {
        TermsOf(s.vouchers, mid.vouchers, x, Run(s, actions).orders[k].subtotal, a.now);
        LastOnTerms(s.vouchers, actions, Run(s, actions).orders[k], x);
      }
    } else {
      NoOrdersYet(s);
    }
  }

  lemma LastOnTerms(vouchers: map<Id, Voucher>, actions: seq<Action>, o: Order, x: Id)
    requires actions != [] && CheckedOut(vouchers, actions[|actions| - 1], o, x)
    ensures CameOnTerms(vouchers, actions, o, x)
  {
  }

  lemma NoOrdersYet(s: State)
    requires Opening(s)
    ensures s.orders == []
  {
  }
}
