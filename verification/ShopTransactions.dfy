/**
The transactions of the order service, as functions on the state: what each one checks, in the order of
the source, and what it leaves behind. A transaction that throws is rolled back and leaves nothing.
 */
module ShopTransactions {
  import opened Basics
  import opened Totals
  import opened ShopState
  import opened ShopMoney

  /** The exception classes NotFoundException, ConflictException and BadRequestException, and a violated constraint. */
  datatype Refusal = NotFound | Conflict | BadRequest | Constraint

  datatype Outcome = Done(state: State) | Refused(why: Refusal)

  // ----- inventory

  /** The conditional updates of checkout, one line after the other. */
  function Reserve(variants: map<Id, Variant>, lines: seq<Line>): Option<map<Id, Variant>> {
    if lines == [] then Some(variants)
    else
      var l := lines[|lines| - 1];
      match Reserve(variants, lines[..|lines| - 1])
      case None => None
      case Some(vs) => ReserveOne(vs, l)
  }

  function ReserveOne(vs: map<Id, Variant>, l: Line): Option<map<Id, Variant>> {
    if l.variant in vs && vs[l.variant].active && vs[l.variant].stock - vs[l.variant].reserved >= l.quantity
    then Some(vs[l.variant := vs[l.variant].(reserved := vs[l.variant].reserved + l.quantity)])
    else None
  }

  /** How often a transition adds the quantities to the stock. */
  function StockFactor(from: Inventory, target: Inventory): int {
    if target == Committed then -1 else if from == Committed then 1 else 0
  }

  /** How often a transition adds the quantities to the reservations. */
  function ReservedFactor(from: Inventory): int {
    if from == Reserved then -1 else 0
  }

  function Moved(x: Variant, quantity: int, from: Inventory, target: Inventory): Variant {
    x.(stock := x.stock + StockFactor(from, target) * quantity,
       reserved := x.reserved + ReservedFactor(from) * quantity)
  }

  /** Moves the quantities of some lines. */
  function Shift(variants: map<Id, Variant>, lines: seq<Line>, from: Inventory, target: Inventory): map<Id, Variant> {
    map v | v in variants :: Moved(variants[v], Qty(lines, v), from, target)
  }

  /** The conditional update of a transition finds the row of a variant. */
  predicate RowAllows(variants: map<Id, Variant>, v: Id, quantity: int, from: Inventory, target: Inventory) {
    && v in variants
    && (target == Committed ==> quantity <= variants[v].stock)
    && (from == Reserved ==> quantity <= variants[v].reserved)
  }

  /** Every conditional update of a transition finds its row. */
  predicate RowsAllow(variants: map<Id, Variant>, o: Order, target: Inventory) {
    forall k :: 0 <= k < |o.lines| ==>
      RowAllows(variants, o.lines[k].variant, Qty(o.lines, o.lines[k].variant), o.inventory, target)
  }

  /** `transitionInventoryInTransaction` */
  function Transition(s: State, o: nat, target: Inventory): Outcome
    requires o < |s.orders| && target != Reserved
  {
    var order := s.orders[o];
    if order.inventory == target then Done(s)
    else if target == Committed && order.inventory != Reserved then Refused(Conflict)
    else if !RowsAllow(s.variants, order, target) then Refused(BadRequest)
    else
      Done(s.(variants := Shift(s.variants, order.lines, order.inventory, target),
              orders := s.orders[o := order.(inventory := target)]))
  }

  /** `releaseVoucherUsageInTransaction` */
  function ReleaseVoucher(s: State, o: nat): State
    requires o < |s.orders|
  {
    match s.orders[o].usage
    case None => s
    case Some(x) =>
      s.(vouchers := if x in s.vouchers
                     then s.vouchers[x := s.vouchers[x].(usedCount := Max(s.vouchers[x].usedCount - 1, 0))]
                     else s.vouchers,
         orders := s.orders[o := s.orders[o].(usage := None)])
  }

  function WithStatus(s: State, o: nat, status: Status): State
    requires o < |s.orders|
  {
    s.(orders := s.orders[o := s.orders[o].(status := status)])
  }

  // ----- checkout

  predicate Replayed(orders: seq<Order>, user: Id, key: string) {
    exists k :: 0 <= k < |orders| && orders[k].user == user && orders[k].key == key
  }

  /** The constraints on the new rows: the key is unique among all customers, quantities are positive. */
  predicate Insertable(orders: seq<Order>, key: string, lines: seq<Line>) {
    && (forall k :: 0 <= k < |orders| ==> orders[k].key != key)
    && (forall k :: 0 <= k < |lines| ==> lines[k].quantity > 0)
  }

  predicate VoucherUsable(s: State, x: Id, user: Id, amount: int, now: int) {
    && x in s.vouchers
    && var v := s.vouchers[x];
    && v.active && v.startsAt <= now && now <= v.expiresAt
    && (v.usageLimit.Some? ==> v.usedCount < v.usageLimit.value)
    && amount >= v.minOrder
    && UsesBy(s.orders, x, user) < v.userLimit
  }

  function ShippingFee(c: Checkout): nat { if c.subtotal >= c.freeFrom then 0 else c.baseFee }

  /** `createOrder`, for the resolved voucher of the checkout. */
  function CreateOrder(s: State, user: Id, c: Checkout, now: int): Outcome {
    if Replayed(s.orders, user, c.key) then Done(s)
    else if c.voucher.Some? && !VoucherUsable(s, c.voucher.value, user, c.subtotal, now) then Refused(BadRequest)
    else
      match Reserve(s.variants, c.lines)
      case None => Refused(Conflict)
      case Some(variants) =>
        if !Insertable(s.orders, c.key, c.lines) then Refused(Constraint)
        else
          var discount := if c.voucher.Some? then Discount(s.vouchers[c.voucher.value], c.subtotal) else 0;
          var shipping := ShippingFee(c);
          var total := Max(0, c.subtotal - discount + shipping);
          var order := Order(user, c.key, Pending, Reserved, c.lines, c.subtotal, discount, shipping, total, c.voucher);
          Done(s.(variants := variants,
                  orders := s.orders + [order],
                  vouchers := if c.voucher.Some? then Count(s.vouchers, c.voucher.value) else s.vouchers))
  }

  function Count(vouchers: map<Id, Voucher>, x: Id): map<Id, Voucher>
    requires x in vouchers
  {
    vouchers[x := vouchers[x].(usedCount := vouchers[x].usedCount + 1)]
  }

  // ----- payment results

  datatype PaymentStatus = Unpaid | Awaited | PaidUp | Failed | PaidBack

  /** What a payment result does to the goods and the voucher, and the status it leads to, if any. */
  function PaymentEffect(s: State, o: nat, payment: PaymentStatus, settled: bool): (Outcome, Option<Status>)
    requires o < |s.orders|
  {
    var order := s.orders[o];
    match payment
    case PaidUp =>
      if order.status == Cancelled || order.status == Refunded then (Refused(Conflict), None)
      else if order.status == Pending then (Transition(s, o, Committed), Some(Confirmed))
      else if order.inventory != Committed then (Refused(Conflict), None)
      else (Done(s), None)
    case Failed =>
      if order.status == Pending && !settled then (Cancelling(s, o), Some(Cancelled)) else (Done(s), None)
    case PaidBack =>
      if order.status == Cancelled || order.status == Delivered || order.status == Refunded
      then (Done(s), Some(Refunded)) else (Refused(Conflict), None)
    case _ => (Done(s), None)
  }

  /** Gives goods and voucher back. */
  function Cancelling(s: State, o: nat): Outcome
    requires o < |s.orders|
  {
    match Transition(s, o, Released)
    case Refused(why) => Refused(why)
    case Done(t) => Done(ReleaseVoucher(t, o))
  }

  /** Returns of the order that wait for the provider count as refunded. */
  function CompleteWaiting(requests: seq<Return>, o: nat): (r: seq<Return>)
    ensures |r| == |requests|
  {
    seq(|requests|, k requires 0 <= k < |requests| =>
      var r := requests[k];
      if r.order == o && (r.status == RefundPending || r.status == RefundFailed) then r.(status := AskCompleted) else r)
  }

  /** `updatePaymentStatus`; `settled` is the answer of the query for a settled payment. */
  function UpdatePayment(s: State, o: nat, payment: PaymentStatus, want: Option<Status>, settled: bool): Outcome {
    if o >= |s.orders| then Refused(NotFound)
    else
      var (effect, next) := PaymentEffect(s, o, payment, settled);
      if effect.Refused? then effect
      else if want.Some? && next.Some? && want != next then Refused(BadRequest)
      else
        var t := if next.Some? then WithStatus(effect.state, o, next.value) else effect.state;
        Done(if payment == PaidBack then t.(requests := CompleteWaiting(t.requests, o)) else t)
  }

  // ----- status changes by staff

  /** A payment row, the latest first. */
  datatype Payment = Payment(cod: bool, paid: bool, settled: bool)

  predicate Allowed(from: Status, to: Status) {
    match from
    case Pending => to == Confirmed || to == Cancelled
    case Confirmed => to == Processing || to == Cancelled
    case Processing => to == Shipping || to == Cancelled
    case Shipping => to == Delivered
    case _ => false
  }

  /** `updateOrderStatus`; a request for the current status changes nothing. */
  function UpdateStatus(s: State, o: nat, status: Status, payments: seq<Payment>): Outcome {
    if o >= |s.orders| then Refused(NotFound)
    else if s.orders[o].status == status then Done(s)
    else if !Allowed(s.orders[o].status, status) then Refused(BadRequest)
    else if status == Confirmed then
      if payments == [] || (!payments[0].cod && !payments[0].paid) then Refused(Conflict)
      else Finish(Transition(s, o, Committed), o, status)
    else if status == Cancelled then
      if exists k :: 0 <= k < |payments| && payments[k].settled then Refused(Conflict)
      else Finish(Cancelling(s, o), o, status)
    else Done(WithStatus(s, o, status))
  }

  function Finish(outcome: Outcome, o: nat, status: Status): Outcome
    requires outcome.Done? ==> o < |outcome.state.orders|
  {
    match outcome
    case Refused(why) => Refused(why)
    case Done(t) => Done(WithStatus(t, o, status))
  }

  // ----- returns

  datatype Pick = Pick(line: nat, quantity: nat)

  predicate ValidPicks(picks: seq<Pick>, n: nat) {
    && 1 <= |picks| <= 100
    && (forall k :: 0 <= k < |picks| ==> picks[k].quantity > 0 && picks[k].line < n)
    && (forall i, j :: 0 <= i < j < |picks| ==> picks[i].line != picks[j].line)
  }

  /** The quantity picked of a line; 0 for a line that is not picked. */
  function Picked(picks: seq<Pick>, idx: nat): nat {
    if picks == [] then 0
    else if picks[|picks| - 1].line == idx then picks[|picks| - 1].quantity
    else Picked(picks[..|picks| - 1], idx)
  }

  predicate Available(s: State, o: nat, picks: seq<Pick>)
    requires o < |s.orders|
  {
    forall idx :: 0 <= idx < |s.orders[o].lines| ==>
      Picked(picks, idx) <= s.orders[o].lines[idx].quantity - Prior(s.requests, o, idx)
  }

  /** Line `idx` goes back as far as it has not gone back before. */
  predicate WhollyPicked(s: State, o: nat, picks: seq<Pick>, idx: nat)
    requires o < |s.orders| && idx < |s.orders[o].lines|
  {
    Picked(picks, idx) == s.orders[o].lines[idx].quantity - Prior(s.requests, o, idx)
  }

  predicate InGiftCampaign(order: Order, idx: nat)
    requires idx < |order.lines|
  {
    && order.lines[idx].campaign.Some? && order.lines[idx].campaign != Some("")
    && exists j :: 0 <= j < |order.lines| && order.lines[j].gift && order.lines[j].campaign == order.lines[idx].campaign
  }

  /** The rule on gift combos, as the code applies it: to every gift campaign of the order. */
  predicate GiftRule(s: State, o: nat, picks: seq<Pick>)
    requires o < |s.orders|
  {
    forall idx :: 0 <= idx < |s.orders[o].lines| && InGiftCampaign(s.orders[o], idx) ==> WhollyPicked(s, o, picks, idx)
  }

  /** The rows of a new return, in the order of the order lines. */
  function PickLines(order: Order, picks: seq<Pick>, n: nat): seq<ReturnLine>
    requires n <= |order.lines|
  {
    if n == 0 then []
    else
      var l := order.lines[n - 1];
      var q := Picked(picks, n - 1);
      PickLines(order, picks, n - 1)
      + (if q > 0 then [ReturnLine(n - 1, l.variant, q, l.unitPrice * q, None, None, 0)] else [])
  }

  predicate HasActive(requests: seq<Return>, o: nat) {
    exists k :: 0 <= k < |requests| && requests[k].order == o && IsActive(requests[k])
  }

  function NewReturn(order: Order, o: nat, picks: seq<Pick>): Return {
    var rows := PickLines(order, picks, |order.lines|);
    Return(o, AskPending, rows, Share(AskedPrice(rows), order.subtotal, order.discount), 0, false, None)
  }

  /** `createReturnRequest`; `inTime` says whether the return window is still open, `images` how many pictures came. */
  function AskReturn(s: State, o: nat, user: Id, picks: seq<Pick>, inTime: bool, images: nat): Outcome {
    if images == 0 then Refused(BadRequest)
    else if o >= |s.orders| || s.orders[o].user != user then Refused(BadRequest)
    else if s.orders[o].status != Delivered || !inTime then Refused(BadRequest)
    else if !ValidPicks(picks, |s.orders[o].lines|) then Refused(BadRequest)
    else if HasActive(s.requests, o) then Refused(BadRequest)
    else if !Available(s, o, picks) then Refused(BadRequest)
    else if !GiftRule(s, o, picks) then Refused(BadRequest)
    else
      Done(s.(requests := s.requests + [NewReturn(s.orders[o], o, picks)]))
  }

  function WithReturn(s: State, r: nat, x: Return): State
    requires r < |s.requests|
  {
    s.(requests := s.requests[r := x])
  }

  /** `reviewReturnRequest`; a rejection needs a note. */
  function Review(s: State, r: nat, approve: bool, note: bool): Outcome {
    if !approve && !note then Refused(BadRequest)
    else if r >= |s.requests| then Refused(NotFound)
    else if s.requests[r].status != AskPending then Refused(BadRequest)
    else Done(WithReturn(s, r, s.requests[r].(status := if approve then AskApproved else AskRejected)))
  }

  function AcceptedGross(lines: seq<ReturnLine>, choices: map<nat, Disposition>, n: nat): nat
    requires n <= |lines| && forall k :: 0 <= k < |lines| ==> k in choices
  {
    if n == 0 then 0
    else AcceptedGross(lines, choices, n - 1) + (if choices[n - 1] == Rejected then 0 else lines[n - 1].gross)
  }

  /** The refund for the accepted goods, limited to what the order has left to refund. */
  function Refund(s: State, r: nat, choices: map<nat, Disposition>): nat
    requires r < |s.requests| && s.requests[r].order < |s.orders|
    requires forall k :: 0 <= k < |s.requests[r].lines| ==> k in choices
  {
    var x := s.requests[r];
    var order := s.orders[x.order];
    var gross := AcceptedGross(x.lines, choices, |x.lines|);
    var remaining := Max(Merchandise(order) - Paid(s.requests, x.order), 0);
    Min(Share(gross, order.subtotal, order.discount), remaining)
  }

  /** `allocateReturnItemRefunds`: every item its own share while it lasts, the last one all the rest. */
  function Allocate(shares: seq<nat>, amount: nat): (r: seq<nat>)
    ensures |r| == |shares|
  {
    if shares == [] then []
    else if |shares| == 1 then [amount]
    else
      var part := Min(shares[0], amount);
      [part] + Allocate(shares[1..], amount - part)
  }

  /** The shares of the accepted lines, in order. */
  function AcceptedShares(order: Order, lines: seq<ReturnLine>, choices: map<nat, Disposition>, n: nat): seq<nat>
    requires n <= |lines| && forall k :: 0 <= k < |lines| ==> k in choices
  {
    if n == 0 then []
    else
      AcceptedShares(order, lines, choices, n - 1)
      + (if choices[n - 1] == Rejected then [] else [Share(lines[n - 1].gross, order.subtotal, order.discount)])
  }

  /** The position of line `k` among the accepted lines. */
  function Rank(choices: map<nat, Disposition>, k: nat): nat
    requires forall j :: 0 <= j < k ==> j in choices
  {
    if k == 0 then 0 else Rank(choices, k - 1) + (if choices[k - 1] == Rejected then 0 else 1)
  }

  /** One row after the goods came in. */
  function ReceivedLine(l: ReturnLine, d: Disposition, refund: int): ReturnLine {
    l.(accepted := Some(if d == Rejected then 0 else l.requested), disposition := Some(d), refund := refund)
  }

  function ReceivedLines(order: Order, lines: seq<ReturnLine>, choices: map<nat, Disposition>, amount: nat)
      : (r: seq<ReturnLine>)
    requires forall k :: 0 <= k < |lines| ==> k in choices
    ensures |r| == |lines|
  {
    var parts := Allocate(AcceptedShares(order, lines, choices, |lines|), amount);
    seq(|lines|, k requires 0 <= k < |lines| =>
      ReceivedLine(lines[k], choices[k],
        if choices[k] == Rejected || Rank(choices, k) >= |parts| then 0 else parts[Rank(choices, k)]))
  }

  /** What a received row puts back into the stock. */
  function RestockOne(variants: map<Id, Variant>, l: ReturnLine): map<Id, Variant> {
    if l.variant in variants && l.disposition == Some(Restock) && l.accepted.Some?
    then variants[l.variant := variants[l.variant].(stock := variants[l.variant].stock + l.accepted.value)]
    else variants
  }

  function RestockAll(variants: map<Id, Variant>, lines: seq<ReturnLine>): map<Id, Variant> {
    map v | v in variants :: variants[v].(stock := variants[v].stock + Total(RestockLine(v), lines))
  }

  datatype Choice = Choice(line: nat, disposition: Disposition)

  /** `new Map(...)`: a later entry for the same line wins. */
  function ChoiceMap(choices: seq<Choice>): map<nat, Disposition> {
    if choices == [] then map[]
    else ChoiceMap(choices[..|choices| - 1])[choices[|choices| - 1].line := choices[|choices| - 1].disposition]
  }

  /** Every row is classified exactly once, and nothing else is. */
  predicate ExactChoices(choices: seq<Choice>, n: nat) {
    var m := ChoiceMap(choices);
    |m| == |choices| && |m| == n && forall k :: 0 <= k < n ==> k in m
  }

  /** `receiveReturnRequest`; `provider` says whether the payment provider can refund. */
  function Receive(s: State, r: nat, choices: seq<Choice>, provider: bool): Outcome {
    if r >= |s.requests| || s.requests[r].order >= |s.orders| then Refused(NotFound)
    else
      var x := s.requests[r];
      if x.status == AskCompleted || x.status == RefundPending || x.status == ManualPending then Done(s)
      else if x.status == RefundFailed then Done(WithReturn(s, r, x.(status := ManualPending)))
      else if x.status != AskApproved then Refused(BadRequest)
      else if s.orders[x.order].inventory != Committed then Refused(BadRequest)
      else if !ExactChoices(choices, |x.lines|) then Refused(BadRequest)
      else
        var m := ChoiceMap(choices);
        var amount := Refund(s, r, m);
        var lines := ReceivedLines(s.orders[x.order], x.lines, m, amount);
        var status := if amount <= 0 then AskCompleted else if provider then RefundPending else ManualPending;
        var y := x.(lines := lines, approved := amount, status := status, awaiting := amount > 0 && provider);
        Done(WithReturn(s.(variants := RestockAll(s.variants, lines)), r, y))
  }

  /** The update after the call to the payment service came back, well or badly. */
  function Dispatched(s: State, r: nat, started: bool): Outcome {
    if r >= |s.requests| || !s.requests[r].awaiting then Refused(NotFound)
    else
      var x := s.requests[r].(awaiting := false);
      Done(WithReturn(s, r,
        if x.status == AskCompleted then x else x.(status := if started then RefundPending else RefundFailed)))
  }

  /** Marks a return as refunded, and its order too once all of its goods are paid back. */
  function Complete(s: State, r: nat, transfer: Option<string>): State
    requires r < |s.requests| && s.requests[r].order < |s.orders|
  {
    var o := s.requests[r].order;
    var t := WithReturn(s, r, s.requests[r].(status := AskCompleted, transfer := transfer));
    if Paid(t.requests, o) >= Merchandise(s.orders[o]) then WithStatus(t, o, Refunded) else t
  }

  /** `updateReturnRefundResult` */
  function RefundResult(s: State, r: nat, completed: bool): Outcome {
    if r >= |s.requests| || s.requests[r].order >= |s.orders| then Refused(NotFound)
    else
      var x := s.requests[r];
      if x.status == AskCompleted then Done(s)
      else if x.status != RefundPending && x.status != RefundFailed then Refused(BadRequest)
      else if !completed then Done(WithReturn(s, r, x.(status := RefundFailed)))
      else Done(Complete(s, r, None))
  }

  /** Another return was refunded with the reference. */
  predicate TransferUsed(requests: seq<Return>, r: nat, transfer: string) {
    exists k :: 0 <= k < |requests| && k != r && requests[k].transfer == Some(transfer)
  }

  /** `completeManualReturnRefund`; `images` says how many pictures of the receipt came. */
  function ManualRefund(s: State, r: nat, amount: int, transfer: string, images: nat): Outcome {
    if images == 0 then Refused(BadRequest)
    else if r >= |s.requests| || s.requests[r].order >= |s.orders| then Refused(NotFound)
    else
      var x := s.requests[r];
      if x.status == AskCompleted then Done(s)
      else if x.status != ManualPending then Refused(BadRequest)
      else if TransferUsed(s.requests, r, transfer) then Refused(BadRequest)
      else if amount != x.approved then Refused(BadRequest)
      else Done(Complete(s, r, Some(transfer)))
  }

  // ----- stock corrections by staff

  /** The update of a variant in apps/product-service/src/product-variants/product-variants.service.ts. */
  function EditVariant(s: State, v: Id, stock: Option<int>, active: Option<bool>): Outcome {
    if v !in s.variants then Refused(NotFound)
    else if stock.Some? && stock.value < s.variants[v].reserved then Refused(BadRequest)
    else
      var x := s.variants[v];
      Done(s.(variants := s.variants[v := x.(stock := if stock.Some? then stock.value else x.stock,
                                             active := if active.Some? then active.value else x.active)]))
  }

  // ----- runs

  datatype Action =
    | ACreate(user: Id, c: Checkout, now: int)
    | APayment(order: nat, payment: PaymentStatus, want: Option<Status>, settled: bool)
    | AStatus(order: nat, status: Status, payments: seq<Payment>)
    | AAsk(order: nat, user: Id, picks: seq<Pick>, inTime: bool, images: nat)
    | AReview(ret: nat, approve: bool, note: bool)
    | AReceive(ret: nat, choices: seq<Choice>, provider: bool)
    | ADispatched(ret: nat, started: bool)
    | ARefund(ret: nat, completed: bool)
    | AManual(ret: nat, amount: int, transfer: string, images: nat)
    | AEdit(variant: Id, stock: Option<int>, active: Option<bool>)

  function Execute(s: State, a: Action): Outcome {
    match a
    case ACreate(user, c, now) => CreateOrder(s, user, c, now)
    case APayment(o, payment, want, settled) => UpdatePayment(s, o, payment, want, settled)
    case AStatus(o, status, payments) => UpdateStatus(s, o, status, payments)
    case AAsk(o, user, picks, inTime, images) => AskReturn(s, o, user, picks, inTime, images)
    case AReview(r, approve, note) => Review(s, r, approve, note)
    case AReceive(r, choices, provider) => Receive(s, r, choices, provider)
    case ADispatched(r, started) => Dispatched(s, r, started)
    case ARefund(r, completed) => RefundResult(s, r, completed)
    case AManual(r, amount, transfer, images) => ManualRefund(s, r, amount, transfer, images)
    case AEdit(v, stock, active) => EditVariant(s, v, stock, active)
  }

  function Apply(s: State, a: Action): State {
    match Execute(s, a)
    case Done(t) => t
    case Refused(_) => s
  }

  /** The state after a run, whatever the order in which requests, callbacks and staff come in. */
  function Run(s: State, actions: seq<Action>): State {
    if actions == [] then s else Apply(Run(s, actions[..|actions| - 1]), actions[|actions| - 1])
  }
}
