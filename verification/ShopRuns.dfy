/**
Whole runs: every transaction keeps all invariants, moves orders and returns forward only, and conserves
the goods, so that the same holds after any number of transactions in any order.
 */
module ShopRuns {
  import opened Basics
  import opened Totals
  import opened ShopState
  import opened ShopTransactions
  import opened ShopInvariants
  import opened ShopCheckout
  import opened ShopReturns

  ghost predicate Inv(s: State) { OrderInv(s) && ReturnInv(s) }

  /** The statuses an order can still come to. */
  predicate MayBecome(a: Status, b: Status) {
    match a
    case Pending => true
    case Confirmed => b != Pending
    case Processing => b != Pending && b != Confirmed
    case Shipping => b == Shipping || b == Delivered || b == Refunded
    case Delivered => b == Delivered || b == Refunded
    case Cancelled => b == Cancelled || b == Refunded
    case Refunded => b == Refunded
  }

  predicate OrderLater(x: Order, y: Order) {
    && SameSale(y, x)
    && MayBecome(x.status, y.status)
    && (y.inventory == x.inventory || x.inventory == Reserved || y.inventory == Released)
    && (Closed(x) ==> Closed(y))
    && (y.usage == x.usage || y.usage == None)
  }

  /**
  Prices of rows stay; once the goods are in, rows and amount stay; a refund once completed and a rejection
  are final.
   */
  predicate RequestLater(x: Return, y: Return) {
    && y.order == x.order && |y.lines| == |x.lines| && y.asked == x.asked
    && (forall k :: 0 <= k < |x.lines| ==> y.lines[k].gross == x.lines[k].gross)
    && (IsReceived(x.status) ==> IsReceived(y.status) && y.lines == x.lines && y.approved == x.approved)
    && (x.status == AskCompleted ==> y.status == AskCompleted)
    && (y.transfer == x.transfer || (x.status != AskCompleted && y.status == AskCompleted))
    && (x.status == AskRejected ==> y == x)
    && (x.status == AskApproved ==> y.status == AskApproved || IsReceived(y.status))
  }

  ghost predicate Later(s: State, t: State) {
    && t.variants.Keys == s.variants.Keys && t.vouchers.Keys == s.vouchers.Keys
    && |s.orders| <= |t.orders| && (forall k :: 0 <= k < |s.orders| ==> OrderLater(s.orders[k], t.orders[k]))
    && |s.requests| <= |t.requests|
    && (forall r :: 0 <= r < |s.requests| ==> RequestLater(s.requests[r], t.requests[r]))
  }

  ghost predicate Conserves(s: State, t: State) {
    forall v :: v in s.variants ==> v in t.variants && Balance(t, v) == Balance(s, v)
  }

  ghost predicate Good(s: State, t: State) { Inv(t) && Later(s, t) && Conserves(s, t) }

  lemma LaterRefl(s: State)
    ensures Later(s, s)
  {
  }

  lemma LaterTrans(s: State, t: State, u: State)
    requires Later(s, t) && Later(t, u)
    ensures Later(s, u)
  {
    hide SameSale;
    forall k | 0 <= k < |s.orders|
      ensures OrderLater(s.orders[k], u.orders[k])
    {
      assert OrderLater(s.orders[k], t.orders[k]) && OrderLater(t.orders[k], u.orders[k]);
      SameSaleTrans(s.orders[k], t.orders[k], u.orders[k]);
    }
    forall r | 0 <= r < |s.requests|
      ensures RequestLater(s.requests[r], u.requests[r])
    {
      assert RequestLater(s.requests[r], t.requests[r]) && RequestLater(t.requests[r], u.requests[r]);
    }
  }

  lemma SameSaleTrans(x: Order, y: Order, z: Order)
    requires SameSale(y, x) && SameSale(z, y)
    ensures SameSale(z, x)
  {
  }

  lemma GoodTrans(s: State, t: State, u: State)
    requires Good(s, t) && Good(t, u)
    ensures Good(s, u)
  {
    hide Inv, Later, Balance;
    LaterTrans(s, t, u);
  }

  lemma GoodRefl(s: State)
    requires Inv(s)
    ensures Good(s, s)
  {
    hide Inv;
    LaterRefl(s);
  }

  // ----- steps on orders

  lemma OrderStep(s: State, t: State, o: nat, y: Order)
    requires Inv(s) && o < |s.orders| && Keeps(s, t) && t.orders == s.orders[o := y] && OrderLater(s.orders[o], y)
    ensures Good(s, t)
  {
    hide OrderInv, ReturnInv, Balance, Closed;
    assert forall k :: 0 <= k < |s.orders| ==> OrderLater(s.orders[k], t.orders[k]);
    LaterCloses(s, t);
    OrderStepKeepsReturns(s, t);
  }

  lemma LaterCloses(s: State, t: State)
    requires |s.orders| <= |t.orders| && forall k :: 0 <= k < |s.orders| ==> OrderLater(s.orders[k], t.orders[k])
    ensures ClosedStay(s.orders, t.orders)
  {
  }

  lemma AdvanceStep(s: State, o: nat, status: Status)
    requires Inv(s) && o < |s.orders| && StatusFits(s.orders[o].(status := status))
    requires MayBecome(s.orders[o].status, status)
    ensures Good(s, WithStatus(s, o, status))
  {
    hide OrderInv, ReturnInv, Keeps;
    AdvanceKeeps(s, o, status);
    OrderStep(s, WithStatus(s, o, status), o, s.orders[o].(status := status));
  }

  lemma CommitStep(s: State, o: nat)
    requires Inv(s) && o < |s.orders| && s.orders[o].status == Pending
    ensures Transition(s, o, Committed).Done?
    ensures var t := Transition(s, o, Committed).state;
            o < |t.orders| && Good(s, WithStatus(t, o, Confirmed))
  {
    hide OrderInv, ReturnInv, Keeps, Transition, WithStatus;
    CommitKeeps(s, o);
    PendingIsReserved(s, o);
    OrderStep(s, WithStatus(Transition(s, o, Committed).state, o, Confirmed), o,
      s.orders[o].(inventory := Committed, status := Confirmed));
  }

  lemma CancelStep(s: State, o: nat)
    requires Inv(s) && o < |s.orders|
    requires s.orders[o].status == Pending || s.orders[o].status == Confirmed || s.orders[o].status == Processing
    ensures Cancelling(s, o).Done?
    ensures var t := Cancelling(s, o).state;
            o < |t.orders| && Good(s, WithStatus(t, o, Cancelled))
  {
    hide OrderInv, ReturnInv, Keeps, Cancelling, WithStatus;
    CancelKeeps(s, o);
    OrderStep(s, WithStatus(Cancelling(s, o).state, o, Cancelled), o,
      s.orders[o].(inventory := Released, usage := None, status := Cancelled));
  }

  lemma PendingIsReserved(s: State, o: nat)
    requires OrderInv(s) && o < |s.orders|
    ensures StatusFits(s.orders[o])
  {
    hide StockInv, VouchersInv, KeysInv;
    OrderAt(s, o);
  }

  lemma CreateStep(s: State, user: Id, c: Checkout, now: int)
    requires Inv(s) && CreateOrder(s, user, c, now).Done?
    ensures Good(s, CreateOrder(s, user, c, now).state)
  {
    hide OrderInv, ReturnInv, CreateOrder, Balance;
    var t := CreateOrder(s, user, c, now).state;
    CreateKeeps(s, user, c, now);
    assert forall k :: 0 <= k < |s.orders| ==> t.orders[k] == s.orders[k];
    OrderStepKeepsReturns(s, t);
  }

  lemma StatusStep(s: State, o: nat, status: Status, payments: seq<Payment>)
    requires Inv(s) && UpdateStatus(s, o, status, payments).Done?
    ensures Good(s, UpdateStatus(s, o, status, payments).state)
  {
    hide Inv, Good, Transition, Cancelling, WithStatus, StatusFits;
    if s.orders[o].status == status {
      GoodRefl(s);
    } else if status == Confirmed {
      CommitStep(s, o);
    } else if status == Cancelled {
      CancelStep(s, o);
    } else {
      ShippingFits(s, o, status);
      AdvanceStep(s, o, status);
    }
  }

  lemma ShippingFits(s: State, o: nat, status: Status)
    requires Inv(s) && o < |s.orders| && Allowed(s.orders[o].status, status)
    requires status != Confirmed && status != Cancelled
    ensures StatusFits(s.orders[o].(status := status))
  {
    hide StockInv, VouchersInv, KeysInv, ReturnInv;
    OrderAt(s, o);
  }

  // ----- steps on returns

  lemma OrderInvAlone(s: State, requests: seq<Return>)
    requires OrderInv(s)
    ensures OrderInv(s.(requests := requests))
  {
    hide StockInv, VouchersInv, KeysInv;
    var t := s.(requests := requests);
    forall k | 0 <= k < |t.orders|
      ensures OrderFits(t, t.orders[k])
    {
      assert OrderFits(s, s.orders[k]);
    }
  }

  /** A step that only replaces the returns, by ones that restocked as much. */
  lemma RequestsStep(s: State, requests: seq<Return>)
    requires Inv(s) && ReturnInv(s.(requests := requests)) && |s.requests| <= |requests|
    requires forall r :: 0 <= r < |s.requests| ==> RequestLater(s.requests[r], requests[r])
    requires forall v :: Restocked(requests, v) == Restocked(s.requests, v)
    ensures Good(s, s.(requests := requests))
  {
    hide OrderInv, ReturnInv, Restocked, Sold;
    OrderInvAlone(s, requests);
  }

  lemma ReplaceStep(s: State, r: nat, y: Return)
    requires Inv(s) && r < |s.requests| && ReturnInv(WithReturn(s, r, y)) && RequestLater(s.requests[r], y)
    requires y.lines == s.requests[r].lines
    ensures Good(s, WithReturn(s, r, y))
  {
    hide OrderInv, ReturnInv, Restocked, Good, Inv;
    forall v
      ensures Restocked(s.requests[r := y], v) == Restocked(s.requests, v)
    {
      RestockSums(s.requests, r, y, v);
    }
    RequestsStep(s, s.requests[r := y]);
  }

  lemma AskStep(s: State, o: nat, user: Id, picks: seq<Pick>, inTime: bool, images: nat)
    requires Inv(s) && AskReturn(s, o, user, picks, inTime, images).Done?
    ensures Good(s, AskReturn(s, o, user, picks, inTime, images).state)
  {
    hide OrderInv, ReturnInv, Restocked, PickLines, GiftRule, Available, HasActive, ValidPicks;
    var t := AskReturn(s, o, user, picks, inTime, images).state;
    var y := t.requests[|s.requests|];
    PendingIsReserved(s, o);
    AskKeeps(s, o, user, picks, inTime, images);
    forall v
      ensures Restocked(s.requests + [y], v) == Restocked(s.requests, v)
    {
      TotalSnoc(RestockBy(v), s.requests, y);
      NewRestocksNothing(t, y, v);
      RestockedIs(s.requests + [y], v);
      RestockedIs(s.requests, v);
    }
    RequestsStep(s, s.requests + [y]);
  }

  lemma RestockedIs(requests: seq<Return>, v: Id)
    ensures Restocked(requests, v) == Total(RestockBy(v), requests)
  {
  }

  lemma NewRestocksNothing(t: State, y: Return, v: Id)
    requires ReturnInv(t) && t.requests != [] && y == t.requests[|t.requests| - 1] && y.status == AskPending
    ensures RestockBy(v)(y) == 0
  {
    hide OneActive, LimitsHold, RestockBy, ReturnFits;
    assert ReturnFits(t.orders, t.requests[|t.requests| - 1]);
    NothingRestocked(t.orders, y, v);
  }

  lemma ReviewStep(s: State, r: nat, approve: bool, note: bool)
    requires Inv(s) && Review(s, r, approve, note).Done?
    ensures Good(s, Review(s, r, approve, note).state)
  {
    hide OrderInv, ReturnInv, Good, WithReturn;
    ReviewKeeps(s, r, approve);
    ReplaceStep(s, r, s.requests[r].(status := if approve then AskApproved else AskRejected));
  }

  lemma TransferDone(s: State, r: nat)
    requires Inv(s) && r < |s.requests|
    ensures s.requests[r].transfer.Some? ==> s.requests[r].status == AskCompleted
  {
    hide OneActive, LimitsHold, OrderInv;
    assert ReturnFits(s.orders, s.requests[r]);
  }

  /** A change of status after receipt. */
  lemma SettleStep(s: State, r: nat, status: ReturnStatus, awaiting: bool, transfer: Option<string>)
    requires Inv(s) && r < |s.requests|
    requires IsReceived(s.requests[r].status) && IsReceived(status)
    requires s.requests[r].status == AskCompleted ==> status == AskCompleted
    requires transfer == s.requests[r].transfer || (s.requests[r].status != AskCompleted && status == AskCompleted)
    ensures Good(s, WithReturn(s, r, s.requests[r].(status := status, awaiting := awaiting, transfer := transfer)))
  {
    hide OrderInv, ReturnInv, Good, WithReturn;
    TransferDone(s, r);
    ReceivedStatusKeeps(s, r, status, awaiting, transfer);
    ReplaceStep(s, r, s.requests[r].(status := status, awaiting := awaiting, transfer := transfer));
  }

  lemma AwaitingIsReceived(s: State, r: nat)
    requires Inv(s) && r < |s.requests|
    ensures s.requests[r].awaiting ==> IsReceived(s.requests[r].status)
    ensures s.requests[r].order < |s.orders| && Closed(s.orders[s.requests[r].order])
  {
    hide OneActive, LimitsHold, OrderInv;
    assert ReturnFits(s.orders, s.requests[r]);
  }

  lemma DispatchedStep(s: State, r: nat, started: bool)
    requires Inv(s) && Dispatched(s, r, started).Done?
    ensures Good(s, Dispatched(s, r, started).state)
  {
    hide Inv, Good, WithReturn;
    AwaitingIsReceived(s, r);
    var x := s.requests[r];
    var status := if x.status == AskCompleted then AskCompleted else if started then RefundPending else RefundFailed;
    SettleStep(s, r, status, false, x.transfer);
  }

  lemma {:induction false} CompleteStep(s: State, r: nat, transfer: Option<string>)
    requires Inv(s) && r < |s.requests| && s.requests[r].order < |s.orders| && IsWaiting(s.requests[r])
    ensures Good(s, Complete(s, r, transfer))
  {
    hide Inv, Good, Paid, Merchandise, StatusFits;
    var o := s.requests[r].order;
    SettleStep(s, r, AskCompleted, s.requests[r].awaiting, transfer);
    var t := WithReturn(s, r, s.requests[r].(status := AskCompleted, transfer := transfer));
    GoodInv(s, t);
    if Paid(t.requests, o) >= Merchandise(s.orders[o]) {
      RefundFits(t, r);
      AdvanceStep(t, o, Refunded);
      GoodTrans(s, t, WithStatus(t, o, Refunded));
    }
  }

  lemma GoodInv(s: State, t: State)
    requires Good(s, t)
    ensures Inv(t)
  {
    hide Inv;
  }

  lemma RefundFits(s: State, r: nat)
    requires Inv(s) && r < |s.requests|
    ensures var o := s.requests[r].order;
            && o < |s.orders| && StatusFits(s.orders[o].(status := Refunded)) && MayBecome(s.orders[o].status, Refunded)
  {
    hide Inv;
    AwaitingIsReceived(s, r);
  }

  lemma RefundStep(s: State, r: nat, completed: bool)
    requires Inv(s) && RefundResult(s, r, completed).Done?
    ensures Good(s, RefundResult(s, r, completed).state)
  {
    hide Inv, Good, Complete, WithReturn;
    if s.requests[r].status == AskCompleted {
      GoodRefl(s);
    } else if completed {
      CompleteStep(s, r, None);
    } else {
      SettleStep(s, r, RefundFailed, s.requests[r].awaiting, s.requests[r].transfer);
    }
  }

  lemma {:induction false} ManualStep(s: State, r: nat, amount: int, transfer: string, images: nat)
    requires Inv(s) && ManualRefund(s, r, amount, transfer, images).Done?
    ensures Good(s, ManualRefund(s, r, amount, transfer, images).state)
  {
    hide Inv, Good, Complete;
    if s.requests[r].status == AskCompleted {
      GoodRefl(s);
    } else {
      CompleteStep(s, r, Some(transfer));
    }
  }

  // ----- goods coming in

  lemma RestockedStock(s: State, lines: seq<ReturnLine>)
    requires OrderInv(s)
    ensures OrderInv(s.(variants := RestockAll(s.variants, lines)))
  {
    hide VouchersInv, KeysInv, Held;
    var t := s.(variants := RestockAll(s.variants, lines));
    forall v | v in t.variants
      ensures VariantFits(t.variants, t.orders, v)
    {
      assert VariantFits(s.variants, s.orders, v);
      RestockNonnegative(lines, v);
    }
    forall k | 0 <= k < |t.orders|
      ensures OrderFits(t, t.orders[k])
    {
      assert OrderFits(s, s.orders[k]);
    }
  }

  lemma ReturnInvAlone(s: State, variants: map<Id, Variant>)
    requires ReturnInv(s)
    ensures ReturnInv(s.(variants := variants))
  {
    hide OneActive, Prior, Approved, ReturnFits;
    var t := s.(variants := variants);
    assert forall r :: 0 <= r < |t.requests| ==> ReturnFits(t.orders, t.requests[r]);
    forall o, idx | 0 <= o < |t.orders| && 0 <= idx < |t.orders[o].lines|
      ensures QuantityFits(t, o, idx)
    {
      assert QuantityFits(s, o, idx);
    }
    forall o | 0 <= o < |t.orders|
      ensures MoneyFits(t, o)
    {
      assert MoneyFits(s, o);
    }
  }

  /** Accepted goods enter the stock and the count of what came back alike. */
  lemma RestockConserves(s: State, r: nat, y: Return)
    requires ReturnsFit(s) && r < |s.requests| && !IsReceived(s.requests[r].status)
    ensures Conserves(s, WithReturn(s.(variants := RestockAll(s.variants, y.lines)), r, y))
  {
    hide Restocked, Sold, Total;
    assert ReturnFits(s.orders, s.requests[r]);
    forall v | v in s.variants
      ensures Balance(WithReturn(s.(variants := RestockAll(s.variants, y.lines)), r, y), v) == Balance(s, v)
    {
      RestockSums(s.requests, r, y, v);
      NothingRestocked(s.orders, s.requests[r], v);
    }
  }

  lemma GrossKept(order: Order, lines: seq<ReturnLine>, m: map<nat, Disposition>, amount: nat)
    requires forall k :: 0 <= k < |lines| ==> k in m
    ensures forall k :: 0 <= k < |lines| ==> ReceivedLines(order, lines, m, amount)[k].gross == lines[k].gross
  {
    hide Allocate, AcceptedShares, Rank;
  }

  lemma {:induction false} ReceiptStep(s: State, r: nat, m: map<nat, Disposition>, y: Return)
    requires Inv(s) && r < |s.requests| && s.requests[r].status == AskApproved
    requires s.requests[r].order < |s.orders|
    requires forall k :: 0 <= k < |s.requests[r].lines| ==> k in m
    requires y.order == s.requests[r].order && y.approved == Refund(s, r, m) && IsReceived(y.status)
    requires y.lines == ReceivedLines(s.orders[y.order], s.requests[r].lines, m, Refund(s, r, m))
    requires y.transfer == s.requests[r].transfer && y.asked == s.requests[r].asked
    ensures Good(s, WithReturn(s.(variants := RestockAll(s.variants, y.lines)), r, y))
  {
    hide OrderInv, ReturnsFit, OneActive, LimitsHold, Conserves, ReceivedLines, Refund, ReturnInv;
    ReceiveKeeps(s, r, m, y);
    ReturnInvAlone(WithReturn(s, r, y), RestockAll(s.variants, y.lines));
    RestockedStock(s, y.lines);
    OrderInvAlone(s.(variants := RestockAll(s.variants, y.lines)), s.requests[r := y]);
    FitOf(s);
    RestockConserves(s, r, y);
    GrossKept(s.orders[y.order], s.requests[r].lines, m, Refund(s, r, m));
    assert |y.lines| == |s.requests[r].lines|;
  }

  lemma FitOf(s: State)
    requires ReturnInv(s)
    ensures ReturnsFit(s)
  {
    hide ReturnsFit, OneActive, LimitsHold;
  }

  lemma {:induction false} ReceiveStep(s: State, r: nat, choices: seq<Choice>, provider: bool)
    requires Inv(s) && Receive(s, r, choices, provider).Done?
    ensures Good(s, Receive(s, r, choices, provider).state)
  {
    hide Inv, Good, ReceivedLines, Refund, RestockAll, ChoiceMap, WithReturn;
    var x := s.requests[r];
    if x.status == AskCompleted || x.status == RefundPending || x.status == ManualPending {
      GoodRefl(s);
    } else if x.status == RefundFailed {
      SettleStep(s, r, ManualPending, x.awaiting, x.transfer);
    } else {
      var m := ChoiceMap(choices);
      var amount := Refund(s, r, m);
      var lines := ReceivedLines(s.orders[x.order], x.lines, m, amount);
      var status := if amount <= 0 then AskCompleted else if provider then RefundPending else ManualPending;
      var awaiting := amount > 0 && provider;
      ReceiptStep(s, r, m, x.(lines := lines, approved := amount, status := status, awaiting := awaiting));
    }
  }

  // ----- payment results

  lemma WaitingLater(requests: seq<Return>, o: nat)
    ensures forall r :: 0 <= r < |requests| ==> RequestLater(requests[r], CompleteWaiting(requests, o)[r])
  {
  }

  lemma WaitingStep(s: State, o: nat)
    requires Inv(s)
    ensures Good(s, s.(requests := CompleteWaiting(s.requests, o)))
  {
    hide OrderInv, ReturnInv, Restocked, CompleteWaiting, Good, RequestLater;
    CompleteWaitingKeeps(s, o);
    WaitingLater(s.requests, o);
    RequestsStep(s, CompleteWaiting(s.requests, o));
  }

  lemma PaidBackStep(s: State, o: nat)
    requires Inv(s) && o < |s.orders|
    requires s.orders[o].status == Cancelled || s.orders[o].status == Delivered || s.orders[o].status == Refunded
    ensures var t := WithStatus(s, o, Refunded);
            Good(s, t.(requests := CompleteWaiting(t.requests, o)))
  {
    hide OrderInv, ReturnInv, CompleteWaiting, Good;
    PendingIsReserved(s, o);
    AdvanceStep(s, o, Refunded);
    var t := WithStatus(s, o, Refunded);
    GoodInv(s, t);
    WaitingStep(t, o);
    GoodTrans(s, t, t.(requests := CompleteWaiting(t.requests, o)));
  }

  lemma PaymentStep(s: State, o: nat, payment: PaymentStatus, want: Option<Status>, settled: bool)
    requires Inv(s) && UpdatePayment(s, o, payment, want, settled).Done?
    ensures Good(s, UpdatePayment(s, o, payment, want, settled).state)
  {
    hide Inv, Good, Transition, Cancelling, WithStatus, CompleteWaiting;
    var status := s.orders[o].status;
    if payment == PaidUp && status == Pending {
      CommitStep(s, o);
    } else if payment == Failed && status == Pending && !settled {
      CancelStep(s, o);
    } else if payment == PaidBack {
      PaidBackStep(s, o);
    } else {
      GoodRefl(s);
    }
  }

  // ----- runs

  /** What an action of the staff adds to the stock of a variant. */
  function Correction(s: State, a: Action, v: Id): int {
    if a.AEdit? && a.variant == v && a.stock.Some? && v in s.variants && Execute(s, a).Done?
    then a.stock.value - s.variants[v].stock else 0
  }

  lemma EditStep(s: State, v: Id, stock: Option<int>, active: Option<bool>)
    requires Inv(s) && EditVariant(s, v, stock, active).Done?
    ensures var t := EditVariant(s, v, stock, active).state;
            && Inv(t) && Later(s, t)
            && forall w :: w in s.variants ==>
                Balance(t, w) == Balance(s, w) + Correction(s, AEdit(v, stock, active), w)
  {
    hide OrderInv, ReturnInv, Balance;
    EditKeeps(s, v, stock, active);
    ReturnInvAlone(s, EditVariant(s, v, stock, active).state.variants);
  }

  lemma ExecuteStep(s: State, a: Action)
    requires Inv(s) && Execute(s, a).Done? && !a.AEdit?
    ensures Good(s, Execute(s, a).state)
  {
    hide Inv, Good, CreateOrder, UpdatePayment, UpdateStatus, AskReturn, Review, Receive, Dispatched;
    hide RefundResult, ManualRefund;
    match a
    case ACreate(user, c, now) => CreateStep(s, user, c, now);
    case APayment(o, payment, want, settled) => PaymentStep(s, o, payment, want, settled);
    case AStatus(o, status, payments) => StatusStep(s, o, status, payments);
    case AAsk(o, user, picks, inTime, images) => AskStep(s, o, user, picks, inTime, images);
    case AReview(r, approve, note) => ReviewStep(s, r, approve, note);
    case AReceive(r, choices, provider) => ReceiveStep(s, r, choices, provider);
    case ADispatched(r, started) => DispatchedStep(s, r, started);
    case ARefund(r, completed) => RefundStep(s, r, completed);
    case AManual(r, amount, transfer, images) => ManualStep(s, r, amount, transfer, images);
  }

  /** Every transaction keeps the invariants, moves forward, and changes balances by staff corrections only. */
  lemma {:induction false} ApplyKeeps(s: State, a: Action)
    requires Inv(s)
    ensures Inv(Apply(s, a)) && Later(s, Apply(s, a))
    ensures forall v :: v in s.variants ==> Balance(Apply(s, a), v) == Balance(s, v) + Correction(s, a, v)
  {
    hide Inv, Later, Balance, EditVariant;
    if Execute(s, a).Refused? {
      LaterRefl(s);
    } else if a.AEdit? {
      EditStep(s, a.variant, a.stock, a.active);
    } else {
      hide Execute;
      ExecuteStep(s, a);
    }
  }

  /** The corrections over a run. */
  function Corrections(s: State, actions: seq<Action>, v: Id): int {
    if actions == [] then 0
    else
      var before := actions[..|actions| - 1];
      Corrections(s, before, v) + Correction(Run(s, before), actions[|actions| - 1], v)
  }

  /**
  After any run: all invariants hold, orders and returns only moved forward, and what is on hand, plus
  what was sold, less what came back, changed by the corrections of staff alone.
   */
  lemma {:induction false} RunKeeps(s: State, actions: seq<Action>)
    requires Inv(s)
    ensures Inv(Run(s, actions)) && Later(s, Run(s, actions))
    ensures forall v :: v in s.variants ==>
              v in Run(s, actions).variants && Balance(Run(s, actions), v) == Balance(s, v) + Corrections(s, actions, v)
  {
    hide Inv, Later, Balance, Apply, Correction;
    if actions == [] {
      LaterRefl(s);
    } else {
      var before := actions[..|actions| - 1];
      var a := actions[|actions| - 1];
      RunKeeps(s, before);
      ApplyKeeps(Run(s, before), a);
      LaterTrans(s, Run(s, before), Run(s, actions));
      LaterKeys(s, Run(s, actions));
    }
  }

  lemma LaterKeys(s: State, t: State)
    requires Later(s, t)
    ensures t.variants.Keys == s.variants.Keys
  {
  }

  /** A shop that has not sold anything yet. */
  predicate Opening(s: State) {
    && s.orders == [] && s.requests == []
    && (forall v :: v in s.variants ==> s.variants[v].reserved == 0 && s.variants[v].stock >= 0)
    && (forall x :: x in s.vouchers ==> s.vouchers[x].usedCount == 0)
  }

  lemma OpeningInv(s: State)
    requires Opening(s)
    ensures Inv(s)
    ensures forall v :: v in s.variants ==> Balance(s, v) == s.variants[v].stock
  {
  }
}
