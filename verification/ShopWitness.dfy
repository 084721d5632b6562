/**
Runs from the opening of a shop: goods that come back one by one for nothing, goods for which the money goes
back twice, in either order, and goods that cannot come back.
 */
module ShopWitness {
  import opened Basics
  import opened Totals
  import opened ShopState
  import opened ShopMoney
  import opened ShopTransactions
  import opened ShopInvariants
  import opened ShopReturns
  import opened ShopRuns
  import opened ShopRefunds
  import opened ShopReturned
  import opened ShopPaybacks
  import opened ShopTheorems

  // ----- an order is paid and delivered

  function DeliverySteps(): seq<Action> {
    [APayment(0, PaidUp, Some(Confirmed), false),
     AStatus(0, Processing, []), AStatus(0, Shipping, []), AStatus(0, Delivered, [])]
  }

  lemma Confirming(s: State, x: Order)
    requires Inv(s) && s.orders == [x] && x.status == Pending
    ensures var t := Apply(s, APayment(0, PaidUp, Some(Confirmed), false));
            t.orders == [x.(status := Confirmed, inventory := Committed)] && t.requests == s.requests
  {
    hide OrderInv, ReturnInv, Transition;
    CommitKeeps(s, 0);
  }

  lemma Advancing(s: State, x: Order, next: Status)
    requires s.orders == [x] && Allowed(x.status, next) && next != Confirmed && next != Cancelled && x.status != next
    ensures var t := Apply(s, AStatus(0, next, []));
            t.orders == [x.(status := next)] && t.requests == s.requests
  {
  }

  lemma RunNext(s: State, actions: seq<Action>, k: nat)
    requires k < |actions|
    ensures Run(s, actions[..k + 1]) == Apply(Run(s, actions[..k]), actions[k])
  {
    hide Apply;
    assert actions[..k + 1][..k] == actions[..k];
  }

  /** The only order of a shop, if pending, can be paid and delivered. */
  lemma Delivering(s: State, x: Order)
    requires Inv(s) && s.orders == [x] && x.status == Pending
    ensures var t := Run(s, DeliverySteps());
            t.orders == [x.(status := Delivered, inventory := Committed)] && t.requests == s.requests
  {
    hide Apply, Run, Inv;
    var actions := DeliverySteps();
    var y := x.(inventory := Committed);
    Confirming(s, x);
    RunOne(s, actions[0]);
    assert actions[..1] == [actions[0]];
    Advancing(Run(s, actions[..1]), y.(status := Confirmed), Processing);
    RunNext(s, actions, 1);
    Advancing(Run(s, actions[..2]), y.(status := Processing), Shipping);
    RunNext(s, actions, 2);
    Advancing(Run(s, actions[..3]), y.(status := Shipping), Delivered);
    RunNext(s, actions, 3);
    assert actions[..4] == actions;
  }

  lemma {:induction false} RunSplit(s: State, a: seq<Action>, b: seq<Action>)
    ensures Run(s, a + b) == Run(Run(s, a), b)
  {
    hide Apply;
    if b == [] {
      assert a + b == a;
    } else {
      var n := |b| - 1;
      RunSplit(s, a, b[..n]);
      assert (a + b)[..|a| + n] == a + b[..n];
    }
  }

  /** From an opening: what is bought first is delivered. */
  lemma BoughtAndDelivered(s: State, buying: Action, x: Order)
    requires Opening(s) && x.status == Pending
    requires Apply(s, buying).orders == [x] && Apply(s, buying).requests == []
    ensures var t := Run(s, [buying] + DeliverySteps());
            t.orders == [x.(status := Delivered, inventory := Committed)] && t.requests == []
  {
    hide *;
    OpeningInv(s);
    ApplyKeeps(s, buying);
    Delivering(Apply(s, buying), x);
    RunOne(s, buying);
    RunSplit(s, [buying], DeliverySteps());
  }

  // ----- three shirts

  /** A shirt costs one hundredth; the voucher takes two off an order. */
  function Start(): State {
    State(map["shirt" := Variant(3, 0, true)], [],
          map["two" := Voucher(true, 0, 9, None, 0, 1, 0, false, 2, None)], [])
  }

  function Shirts(): Line { Line("shirt", 3, 1, None, false) }

  function Off(voucher: Option<Id>): nat { if voucher.Some? then 2 else 0 }

  predicate IsVoucher(voucher: Option<Id>) { voucher == None || voucher == Some("two") }

  function ShirtOrder(status: Status, inventory: Inventory, voucher: Option<Id>): Order {
    Order("ann", "key", status, inventory, [Shirts()], 3, Off(voucher), 0, 3 - Off(voucher), voucher)
  }

  function Buying(voucher: Option<Id>): Action {
    ACreate("ann", Checkout("key", [Shirts()], 3, voucher, 1, 2), 0)
  }

  function Delivery(voucher: Option<Id>): seq<Action> {
    [Buying(voucher)] + DeliverySteps()
  }

  lemma ShirtsReserved()
    ensures Reserve(Start().variants, [Shirts()]) == Some(map["shirt" := Variant(3, 3, true)])
  {
    var vs := Start().variants;
    assert [Shirts()][..0] == [];
    assert Reserve(vs, []) == Some(vs);
    assert vs["shirt" := vs["shirt"].(reserved := 3)] == map["shirt" := Variant(3, 3, true)];
  }

  lemma FixedDiscount()
    ensures Discount(Start().vouchers["two"], 3) == 2
  {
    hide HalfUp;
    DiscountIs(Start().vouchers["two"], 3);
  }

  lemma FirstUse()
    ensures VoucherUsable(Start(), "two", "ann", 3, 0)
  {
  }

  lemma Bought(voucher: Option<Id>)
    requires IsVoucher(voucher)
    ensures var t := Apply(Start(), Buying(voucher));
            t.orders == [ShirtOrder(Pending, Reserved, voucher)] && t.requests == []
  {
    ShirtsReserved();
    FirstUse();
    FixedDiscount();
    hide Reserve, VoucherUsable, Discount;
    assert [] + [ShirtOrder(Pending, Reserved, voucher)] == [ShirtOrder(Pending, Reserved, voucher)];
  }

  lemma ShirtsDelivered(voucher: Option<Id>)
    requires IsVoucher(voucher)
    ensures var t := Run(Start(), Delivery(voucher));
            t.orders == [ShirtOrder(Delivered, Committed, voucher)] && t.requests == []
  {
    Bought(voucher);
    hide Apply, Run, DeliverySteps;
    BoughtAndDelivered(Start(), Buying(voucher), ShirtOrder(Pending, Reserved, voucher));
  }

  // ----- asking for some of the shirts

  function Row(q: nat): ReturnLine { ReturnLine(0, "shirt", q, q, None, None, 0) }

  /** A return of `q` shirts, for an order on which `off` was taken off. */
  function Asked(q: nat, status: ReturnStatus, off: nat): Return {
    Return(0, status, [Row(q)], Share(q, 3, off), 0, false, None)
  }

  function Asking(q: nat): Action { AAsk(0, "ann", [Pick(0, q)], true, 1) }

  lemma PickedShirts(q: nat)
    requires q > 0
    ensures Picked([Pick(0, q)], 0) == q && ValidPicks([Pick(0, q)], 1)
  {
  }

  lemma PickedRow(order: Order, q: nat)
    requires q > 0 && order.lines == [Shirts()]
    ensures PickLines(order, [Pick(0, q)], 1) == [Row(q)]
  {
    PickedShirts(q);
    hide Picked;
    assert PickLines(order, [Pick(0, q)], 0) == [];
  }

  lemma PriceOf(q: nat)
    ensures AskedPrice([Row(q)]) == q
  {
    hide Total;
    TotalSnoc(GrossOf(), [], Row(q));
    NoTotal(GrossOf());
    assert [] + [Row(q)] == [Row(q)];
  }

  lemma NoTotal<T>(f: T -> int)
    ensures Total(f, []) == 0
  {
  }

  lemma AskingWorks(s: State, q: nat, voucher: Option<Id>)
    requires s.orders == [ShirtOrder(Delivered, Committed, voucher)] && q > 0
    requires !HasActive(s.requests, 0) && Prior(s.requests, 0, 0) + q <= 3
    ensures Apply(s, Asking(q)) == s.(requests := s.requests + [Asked(q, AskPending, Off(voucher))])
  {
    PickedShirts(q);
    PickedRow(s.orders[0], q);
    PriceOf(q);
    hide Picked, PickLines, Prior, HasActive, ValidPicks, AskedPrice, Share;
    assert Available(s, 0, [Pick(0, q)]);
    assert GiftRule(s, 0, [Pick(0, q)]);
  }

  lemma Reviewing(s: State, r: nat, q: nat, off: nat)
    requires r < |s.requests| && s.requests[r] == Asked(q, AskPending, off)
    ensures Apply(s, AReview(r, true, false)) == WithReturn(s, r, Asked(q, AskApproved, off))
  {
  }

  // ----- one shirt after the other, for nothing

  function Nothing(): Return {
    Return(0, AskCompleted, [Row(1).(accepted := Some(1), disposition := Some(Restock))], 0, 0, false, None)
  }

  function Round(r: nat): seq<Action> {
    [Asking(1), AReview(r, true, false), AReceive(r, AllBack(1), false)]
  }

  lemma OneThird()
    ensures Share(1, 3, 2) == 0 && Share(3, 3, 2) == 1
  {
  }

  lemma OneBack(order: Order)
    requires order.subtotal == 3 && order.discount == 2
    ensures var m := ChoiceMap(AllBack(1));
            && 0 in m && ExactChoices(AllBack(1), 1)
            && AcceptedGross([Row(1)], m, 1) == 1
            && ReceivedLines(order, [Row(1)], m, 0) == Nothing().lines
  {
    AllBackMap(1);
    OneThird();
    hide ChoiceMap, Share;
    var m := ChoiceMap(AllBack(1));
    assert AcceptedShares(order, [Row(1)], m, 1) == [0];
  }

  lemma Receiving(s: State, r: nat)
    requires s.orders == [ShirtOrder(Delivered, Committed, Some("two"))]
    requires r < |s.requests| && s.requests[r] == Asked(1, AskApproved, 2) && Paid(s.requests, 0) == 0
    ensures var t := Apply(s, AReceive(r, AllBack(1), false));
            t.orders == s.orders && t.requests == s.requests[r := Nothing()]
  {
    OneBack(s.orders[0]);
    OneThird();
    hide ChoiceMap, ExactChoices, AcceptedGross, Share, Paid, ReceivedLines, RestockAll;
    assert Refund(s, r, ChoiceMap(AllBack(1))) == 0;
  }

  /** Returns of single shirts, each settled for nothing. */
  function Nothings(n: nat): seq<Return> {
    seq(n, _ => Nothing())
  }

  lemma {:induction false} NothingsCount(n: nat)
    ensures Prior(Nothings(n), 0, 0) == n && Approved(Nothings(n), 0) == 0 && Paid(Nothings(n), 0) == 0
    ensures Taken(Nothings(n), 0, 0) == n
  {
    if n > 0 {
      NothingsCount(n - 1);
      assert Nothings(n)[..n - 1] == Nothings(n - 1);
      assert Nothing().lines[..0] == [];
    }
  }

  lemma AddNothing(n: nat)
    ensures (Nothings(n) + [Asked(1, AskPending, 2)])[n := Asked(1, AskApproved, 2)][n := Nothing()] == Nothings(n + 1)
  {
  }

  lemma PaidNothing(n: nat, x: Return)
    requires x.status != AskCompleted
    ensures Paid((Nothings(n) + [Asked(1, AskPending, 2)])[n := x], 0) == 0
  {
    NothingsCount(n);
    hide Total;
    TotalSnoc(PaidFor(0), Nothings(n), x);
    assert (Nothings(n) + [Asked(1, AskPending, 2)])[n := x] == Nothings(n) + [x];
  }

  lemma RoundWorks(s: State, n: nat)
    requires s.orders == [ShirtOrder(Delivered, Committed, Some("two"))] && s.requests == Nothings(n) && n < 3
    ensures var t := Run(s, Round(n));
            t.orders == s.orders && t.requests == Nothings(n + 1)
  {
    hide Apply, Run, Prior, Paid, ShirtOrder;
    NothingsCount(n);
    var actions := Round(n);
    assert !HasActive(s.requests, 0);
    AskingWorks(s, 1, Some("two"));
    RunOne(s, actions[0]);
    assert actions[..1] == [actions[0]];
    Reviewing(Run(s, actions[..1]), n, 1, 2);
    RunNext(s, actions, 1);
    PaidNothing(n, Asked(1, AskApproved, 2));
    Receiving(Run(s, actions[..2]), n);
    RunNext(s, actions, 2);
    AddNothing(n);
    assert actions[..3] == actions;
  }

  /** The whole run: bought with the voucher, delivered, and brought back in three returns. */
  function ThirdsRun(): seq<Action> {
    Delivery(Some("two")) + Round(0) + Round(1) + Round(2)
  }

  /**
  Three thirds of an order that cost one hundredth come back one by one, all accepted, for nothing at all;
  the order never counts as refunded.
   */
  lemma ThirdsVanish()
    ensures Opening(Start())
    ensures var t := Run(Start(), ThirdsRun());
            && |t.orders| == 1 && t.orders[0].status == Delivered && Merchandise(t.orders[0]) == 1
            && t.orders[0].lines == [Shirts()] && Taken(t.requests, 0, 0) == Shirts().quantity
            && |t.requests| == 3 && (forall r :: 0 <= r < 3 ==> t.requests[r].status == AskCompleted)
            && Approved(t.requests, 0) == 0
  {
    hide *;
    var d := Delivery(Some("two"));
    DiscountedOrder();
    ShirtsDelivered(Some("two"));
    var s0 := Run(Start(), d);
    NothingsEnds();
    RoundWorks(s0, 0);
    RoundWorks(Run(s0, Round(0)), 1);
    RoundWorks(Run(Run(s0, Round(0)), Round(1)), 2);
    RunSplit(Start(), d, Round(0));
    RunSplit(Start(), d + Round(0), Round(1));
    RunSplit(Start(), d + Round(0) + Round(1), Round(2));
    NothingsCount(3);
    ThirdsAre();
  }

  lemma ThirdsAre()
    ensures ThirdsRun() == Delivery(Some("two")) + Round(0) + Round(1) + Round(2)
  {
  }

  lemma DiscountedOrder()
    ensures Opening(Start()) && IsVoucher(Some("two"))
    ensures var order := ShirtOrder(Delivered, Committed, Some("two"));
            order.status == Delivered && order.lines == [Shirts()] && Shirts().quantity == 3 && Merchandise(order) == 1
  {
  }

  lemma NothingsEnds()
    ensures Nothings(0) == []
    ensures |Nothings(3)| == 3 && forall r :: 0 <= r < 3 ==> Nothings(3)[r].status == AskCompleted
  {
  }

  // ----- the money goes back twice

  /** Bought without the voucher, a return approved, and the payment refunded before the goods come in. */
  function PaybackRun(): seq<Action> {
    Delivery(None) + [Asking(3), AReview(0, true, false), APayment(0, PaidBack, Some(Refunded), true)]
  }

  lemma BeforePayback()
    ensures var t := Run(Start(), PaybackRun());
            && t.orders == [ShirtOrder(Refunded, Committed, None)]
            && t.requests == [Asked(3, AskApproved, 0)]
  {
    ShirtsDelivered(None);
    var s := Run(Start(), Delivery(None));
    hide Apply, Run, Prior, Delivery, ShirtOrder;
    assert Prior([], 0, 0) == 0 by { NothingAsked(); }
    assert !HasActive(s.requests, 0);
    var actions := [Asking(3), AReview(0, true, false), APayment(0, PaidBack, Some(Refunded), true)];
    AskingWorks(s, 3, None);
    RunOne(s, actions[0]);
    assert actions[..1] == [actions[0]];
    Reviewing(Run(s, actions[..1]), 0, 3, 0);
    RunNext(s, actions, 1);
    PayingBack(Run(s, actions[..2]));
    RunNext(s, actions, 2);
    assert actions[..3] == actions;
    RunSplit(Start(), Delivery(None), actions);
  }

  lemma NothingAsked()
    ensures Prior([], 0, 0) == 0
  {
  }

  lemma PayingBack(s: State)
    requires s.orders == [ShirtOrder(Delivered, Committed, None)] && s.requests == [Asked(3, AskApproved, 0)]
    ensures var t := Apply(s, APayment(0, PaidBack, Some(Refunded), true));
            t.orders == [ShirtOrder(Refunded, Committed, None)] && t.requests == s.requests
  {
    assert CompleteWaiting(s.requests, 0) == s.requests;
  }

  lemma ShareOfAll()
    ensures Share(3, 3, 0) == 3
  {
  }

  lemma NothingApproved()
    ensures Approved([Asked(3, AskApproved, 0)], 0) == 0 && Paid([Asked(3, AskApproved, 0)], 0) == 0
    ensures ByHand([Asked(3, AskApproved, 0)], 0) == 0
  {
    hide Total;
    var x := Asked(3, AskApproved, 0);
    TotalSnoc(ApprovedFor(0), [], x);
    TotalSnoc(PaidFor(0), [], x);
    TotalSnoc(ByHandFor(0), [], x);
    NoTotal(ByHandFor(0));
    NoTotal(ApprovedFor(0));
    NoTotal(PaidFor(0));
    assert [] + [x] == [x];
  }

  /** The amount of the refund is the whole price. */
  lemma WholeRefund(s: State, status: Status)
    requires Inv(s) && s.requests == [Asked(3, AskApproved, 0)] && s.orders == [ShirtOrder(status, Committed, None)]
    ensures Paid(s.requests, 0) == 0 && ByHand(s.requests, 0) == 0
    ensures Merchandise(s.orders[0]) == 3 && CanPayApproved(s, 0)
    ensures 0 in ChoiceMap(AllBack(1)) && Refund(s, 0, ChoiceMap(AllBack(1))) == 3
  {
    WholeOrder(status);
    hide *;
    ShareOfAll();
    PriceOf(3);
    NothingApproved();
    FullRefund(s, 0);
    CanPayWhole(s, status);
  }

  lemma WholeOrder(status: Status)
    ensures var order, x := ShirtOrder(status, Committed, None), Asked(3, AskApproved, 0);
            && order.subtotal == 3 && order.discount == 0 && Merchandise(order) == 3
            && x.lines == [Row(3)] && x.order == 0 && x.status == AskApproved
    ensures Min(3, 3 - 0) == 3
  {
    hide Share;
  }

  lemma CanPayWhole(s: State, status: Status)
    requires s.requests == [Asked(3, AskApproved, 0)] && s.orders == [ShirtOrder(status, Committed, None)]
    requires Share(3, 3, 0) == 3 && AskedPrice([Row(3)]) == 3 && Approved(s.requests, 0) == 0
    ensures CanPayApproved(s, 0)
  {
    hide Share, AskedPrice, Approved;
  }

  /** The whole price waits to be refunded by hand. */
  ghost predicate WaitsByHand(t: State) {
    && Inv(t) && |t.orders| == 1 && Merchandise(t.orders[0]) == 3 && ByHand(t.requests, 0) == 0
    && |t.requests| == 1 && t.requests[0].order == 0
    && t.requests[0].status == ManualPending && t.requests[0].approved == 3
  }

  lemma ReceivedHere(s: State, status: Status)
    requires Inv(s) && s.requests == [Asked(3, AskApproved, 0)] && s.orders == [ShirtOrder(status, Committed, None)]
    ensures WaitsByHand(Apply(s, AReceive(0, AllBack(1), false)))
  {
    WholeRefund(s, status);
    assert |s.orders| == 1 && |s.requests| == 1 && s.requests[0].order == 0 && s.requests[0].status == AskApproved;
    assert |s.requests[0].lines| == 1;
    hide Apply, Inv, Refund, ByHand, Paid, Merchandise, CanPayApproved, ChoiceMap, AllBack, Asked, ShirtOrder;
    ReceivedByHand(s, 0);
    ReceivedAmount(s, status);
    ApplyKeeps(s, AReceive(0, AllBack(1), false));
  }

  lemma FinishedHere(t: State)
    requires WaitsByHand(t)
    ensures var u := Apply(t, Finishing(t, 0));
            && |u.orders| == 1 && ByHand(u.requests, 0) == Merchandise(u.orders[0]) == 3
            && |u.requests| == 1 && u.requests[0].status == AskCompleted
  {
    hide Apply, Inv, ByHand, Merchandise, Finishing, Later;
    FinishingPays(t, 0);
    FinishingEnds(t, 0);
    ApplyKeeps(t, Finishing(t, 0));
    KeepsMerchandise(t, Apply(t, Finishing(t, 0)));
  }

  /** The goods come in, and the refund is confirmed by hand. */
  lemma {:induction false} RefundedHere(s: State, status: Status) returns (actions: seq<Action>)
    requires Inv(s) && s.requests == [Asked(3, AskApproved, 0)] && s.orders == [ShirtOrder(status, Committed, None)]
    ensures var t := Run(s, actions);
            && |t.orders| == 1 && ByHand(t.requests, 0) == Merchandise(t.orders[0]) == 3
            && |t.requests| == 1 && t.requests[0].status == AskCompleted
  {
    hide Run, Apply, Inv, ByHand, Merchandise, WaitsByHand, Finishing;
    var receive := AReceive(0, AllBack(1), false);
    var t := Apply(s, receive);
    ReceivedHere(s, status);
    FinishedHere(t);
    WaitsForOne(t);
    RunOne(s, receive);
    RunSnoc(s, [receive], Finishing(t, 0));
    actions := [receive] + [Finishing(t, 0)];
  }

  lemma WaitsForOne(t: State)
    requires WaitsByHand(t)
    ensures |t.requests| == 1
  {
  }

  lemma FinishingEnds(s: State, r: nat)
    requires Inv(s) && r < |s.requests| && IsWaiting(s.requests[r])
    ensures var t := Apply(s, Finishing(s, r));
            |t.orders| == |s.orders| && |t.requests| == |s.requests| && t.requests[r].status == AskCompleted
  {
    hide Inv, Paid, Merchandise, TransferUsed, FreshTransfer;
    AwaitingIsReceived(s, r);
    FreshIsUnused(s.requests, r);
  }

  /**
  The payment is refunded in full while a return is approved; the goods then come in, the return is refunded
  by hand, and the whole price has gone out twice.
   */
  lemma PaidTwiceWitness()
    ensures Opening(Start())
    ensures var s := Run(Start(), PaybackRun());
            && |s.orders| == 1 && s.orders[0].status == Refunded && ByHand(s.requests, 0) == 0
            && exists actions ::
                 var t := Run(s, actions);
                 |t.orders| == 1 && ByHand(t.requests, 0) == Merchandise(t.orders[0]) == 3
  {
    BeforePayback();
    NothingApproved();
    RunsAreSound(Start(), PaybackRun());
    var s := Run(Start(), PaybackRun());
    hide Run, PaybackRun, Inv, Paid, ByHand, AllExact, Merchandise;
    var actions := RefundedHere(s, Refunded);
  }

  /** Delivered, and a return approved. */
  function ApprovedRun(): seq<Action> {
    Delivery(None) + [Asking(3), AReview(0, true, false)]
  }

  lemma BeforeReceipt()
    ensures var t := Run(Start(), ApprovedRun());
            && t.orders == [ShirtOrder(Delivered, Committed, None)]
            && t.requests == [Asked(3, AskApproved, 0)]
  {
    ShirtsDelivered(None);
    var s := Run(Start(), Delivery(None));
    hide Apply, Run, Prior, Delivery, ShirtOrder;
    assert Prior([], 0, 0) == 0 by { NothingAsked(); }
    assert !HasActive(s.requests, 0);
    var actions := [Asking(3), AReview(0, true, false)];
    AskingWorks(s, 3, None);
    RunOne(s, actions[0]);
    assert actions[..1] == [actions[0]];
    Reviewing(Run(s, actions[..1]), 0, 3, 0);
    RunNext(s, actions, 1);
    assert actions[..2] == actions;
    RunSplit(Start(), Delivery(None), actions);
  }

  /**
  The other way round: the return is refunded by hand in full, and the report that the payment was refunded
  is accepted all the same, although it leaves no return open.
   */
  lemma PaidBeforeWitness() returns (actions: seq<Action>)
    ensures Opening(Start())
    ensures var s := Run(Start(), ApprovedRun() + actions);
            && |s.orders| == 1 && ByHand(s.requests, 0) == Merchandise(s.orders[0]) == 3
            && UpdatePayment(s, 0, PaidBack, Some(Refunded), true).Done?
            && forall r :: !LeftOpen(s, 0, r)
  {
    ShirtsOpen();
    BeforeReceipt();
    RunsAreSound(Start(), ApprovedRun());
    var s := Run(Start(), ApprovedRun());
    SoundInv(s);
    hide *;
    actions := RefundedHere(s, Delivered);
    RunSplit(Start(), ApprovedRun(), actions);
    RunKeeps(s, actions);
    StillDelivered(s, Run(s, actions));
  }

  lemma ShirtsOpen()
    ensures Opening(Start())
  {
  }

  lemma SoundInv(s: State)
    requires Sound(s)
    ensures Inv(s)
  {
    hide Inv, AllExact;
  }

  lemma StillDelivered(s: State, t: State)
    requires Later(s, t) && s.orders == [ShirtOrder(Delivered, Committed, None)] && |t.orders| == 1
    requires |t.requests| == 1 && t.requests[0].status == AskCompleted
    ensures UpdatePayment(t, 0, PaidBack, Some(Refunded), true).Done?
    ensures forall r :: !LeftOpen(t, 0, r)
  {
    hide Share, AskedPrice, Approved, Merchandise, CompleteWaiting;
    assert OrderLater(s.orders[0], t.orders[0]);
  }

  lemma ReceivedAmount(s: State, status: Status)
    requires Inv(s) && s.requests == [Asked(3, AskApproved, 0)] && s.orders == [ShirtOrder(status, Committed, None)]
    requires Apply(s, AReceive(0, AllBack(1), false)).requests != []
    requires Apply(s, AReceive(0, AllBack(1), false)).requests[0].status == ManualPending
    requires 0 in ChoiceMap(AllBack(1))
    ensures Apply(s, AReceive(0, AllBack(1), false)).requests[0].approved == Refund(s, 0, ChoiceMap(AllBack(1)))
    ensures ByHand(Apply(s, AReceive(0, AllBack(1), false)).requests, 0) == ByHand(s.requests, 0)
  {
    hide Inv, Refund, ChoiceMap, ReceivedLines, RestockAll, ExactChoices, ByHand;
    ByHandSame(s.requests, Apply(s, AReceive(0, AllBack(1), false)).requests[0]);
  }

  lemma ByHandSame(requests: seq<Return>, y: Return)
    requires |requests| == 1 && requests[0].status != AskCompleted && y.status != AskCompleted
    ensures ByHand(requests[0 := y], 0) == ByHand(requests, 0)
  {
    ByHandAfter(requests, 0, y, 0);
  }

  lemma KeepsMerchandise(t: State, u: State)
    requires Later(t, u) && |t.orders| == 1 && |u.orders| == 1
    ensures Merchandise(u.orders[0]) == Merchandise(t.orders[0])
  {
    assert OrderLater(t.orders[0], u.orders[0]);
  }

  // ----- a scarf that cannot be returned

  /** A shop with one shirt, sold as a gift combo, and one scarf. */
  function GiftStart(): State {
    State(map["shirt" := Variant(1, 0, true), "scarf" := Variant(1, 0, true)], [], map[], [])
  }

  function GiftLines(): seq<Line> {
    [Line("shirt", 1, 100, Some("combo"), true), Line("scarf", 1, 50, None, false)]
  }

  function GiftOrder(status: Status, inventory: Inventory): Order {
    Order("ann", "key", status, inventory, GiftLines(), 150, 0, 0, 150, None)
  }

  function GiftBuying(): Action {
    ACreate("ann", Checkout("key", GiftLines(), 150, None, 20, 100), 0)
  }

  lemma GiftsReserved()
    ensures Reserve(GiftStart().variants, GiftLines()).Some?
  {
    var vs, lines := GiftStart().variants, GiftLines();
    assert lines[..1] == [lines[0]] && [lines[0]][..0] == [];
    assert Reserve(vs, []) == Some(vs);
    assert Reserve(vs, [lines[0]]) == ReserveOne(vs, lines[0]);
  }

  lemma GiftBought()
    ensures var t := Apply(GiftStart(), GiftBuying());
            t.orders == [GiftOrder(Pending, Reserved)] && t.requests == []
  {
    GiftsReserved();
    hide Reserve;
    assert [] + [GiftOrder(Pending, Reserved)] == [GiftOrder(Pending, Reserved)];
  }

  lemma GiftDelivered()
    ensures Opening(GiftStart())
    ensures var t := Run(GiftStart(), [GiftBuying()] + DeliverySteps());
            t.orders == [GiftOrder(Delivered, Committed)] && t.requests == []
  {
    GiftBought();
    hide Apply, Run, DeliverySteps;
    BoughtAndDelivered(GiftStart(), GiftBuying(), GiftOrder(Pending, Reserved));
  }

  lemma ScarfRules(s: State, picks: seq<Pick>)
    requires s.orders == [GiftOrder(Delivered, Committed)] && Picked(picks, 0) == 0 && Picked(picks, 1) == 1
    requires forall idx: nat :: Prior(s.requests, 0, idx) == 0
    ensures Available(s, 0, picks) && StatedGiftRule(s, 0, picks) && !GiftRule(s, 0, picks)
  {
    hide Prior, Picked;
    var order := s.orders[0];
    assert order.lines[0].gift;
    assert InGiftCampaign(order, 0) && !InGiftCampaign(order, 1);
    assert !WhollyPicked(s, 0, picks, 0);
    assert !CampaignTouched(order, picks, 0);
  }

  lemma ScarfPicked()
    ensures Picked([Pick(1, 1)], 0) == 0 && Picked([Pick(1, 1)], 1) == 1 && ValidPicks([Pick(1, 1)], 2)
  {
    assert [Pick(1, 1)][..0] == [];
  }

  lemma NothingPrior(idx: nat)
    ensures Prior([], 0, idx) == 0
  {
  }

  /**
  A combo and a scarf are bought and delivered. The scarf alone cannot be returned, although it is no part of
  the combo and nothing else stands against it.
   */
  lemma GiftRuleWitness()
    ensures Opening(GiftStart())
    ensures var s, picks := Run(GiftStart(), [GiftBuying()] + DeliverySteps()), [Pick(1, 1)];
            && |s.orders| == 1 && s.orders[0].user == "ann" && s.orders[0].status == Delivered
            && ValidPicks(picks, |s.orders[0].lines|) && Available(s, 0, picks) && !HasActive(s.requests, 0)
            && StatedGiftRule(s, 0, picks)
            && AskReturn(s, 0, "ann", picks, true, 1) == Refused(BadRequest)
  {
    GiftDelivered();
    ScarfPicked();
    var s, picks := Run(GiftStart(), [GiftBuying()] + DeliverySteps()), [Pick(1, 1)];
    hide Run, Prior, Picked, Available, StatedGiftRule, GiftRule, AskReturn;
    forall idx: nat
      ensures Prior(s.requests, 0, idx) == 0
    {
      NothingPrior(idx);
    }
    ScarfRules(s, picks);
    NoGiftsNoReturn(s, 0, "ann", picks, true, 1);
  }
}
