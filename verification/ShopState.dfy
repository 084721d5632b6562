/**
The tables that apps/order-service/src/order-service.service.ts changes in its transactions: product
variants, orders, vouchers with their usages, and return requests. Orders and requests are only ever
added, so that their position serves as their identity. Money is in hundredths.
 */
module ShopState {
  import opened Basics
  import opened Totals

  type Id = string

  datatype Variant = Variant(stock: int, reserved: int, active: bool)

  /** `value` is in hundredths: of a percent for percentage vouchers, of the currency otherwise. */
  datatype Voucher = Voucher(
    active: bool, startsAt: int, expiresAt: int,
    usageLimit: Option<int>, usedCount: int, userLimit: int,
    minOrder: int, percent: bool, value: int, cap: Option<int>)

  datatype Status = Pending | Confirmed | Processing | Shipping | Delivered | Cancelled | Refunded

  datatype Inventory = Reserved | Committed | Released

  datatype Line = Line(variant: Id, quantity: nat, unitPrice: nat, campaign: Option<Id>, gift: bool)

  /** `usage` is the row of voucher_usages for the order; there is at most one, by a unique index. */
  datatype Order = Order(
    user: Id, key: string, status: Status, inventory: Inventory,
    lines: seq<Line>, subtotal: nat, discount: nat, shipping: nat, total: int, usage: Option<Id>)

  /** What a checkout brings along: the cart, and the fee for delivery below the amount from which it is free. */
  datatype Checkout = Checkout(
    key: string, lines: seq<Line>, subtotal: nat, voucher: Option<Id>, baseFee: nat, freeFrom: nat)

  datatype ReturnStatus =
    | AskPending | AskApproved | AskRejected
    | RefundPending | RefundFailed | ManualPending | AskCompleted

  datatype Disposition = Restock | Damaged | Rejected

  datatype ReturnLine = ReturnLine(
    line: nat, variant: Id, requested: nat, gross: nat,
    accepted: Option<nat>, disposition: Option<Disposition>, refund: int)

  /**
  `asked` is the refund that was asked for. `awaiting`: the answer of the payment service to the refund
  request is still to be recorded. `transfer` is the reference of a refund made by hand, trimmed and in lower
  case; refunds through the payment have none.
   */
  datatype Return = Return(
    order: nat, status: ReturnStatus, lines: seq<ReturnLine>, asked: nat, approved: int, awaiting: bool,
    transfer: Option<string>)

  datatype State = State(
    variants: map<Id, Variant>, orders: seq<Order>, vouchers: map<Id, Voucher>, requests: seq<Return>)

  // ----- quantities

  function QtyOf(v: Id): Line -> int {
    (l: Line) => if l.variant == v then l.quantity else 0
  }

  /** How much of a variant some order lines ask for. */
  function Qty(lines: seq<Line>, v: Id): int { Total(QtyOf(v), lines) }

  function HeldBy(v: Id): Order -> int {
    (o: Order) => if o.inventory == Reserved then Qty(o.lines, v) else 0
  }

  function SoldBy(v: Id): Order -> int {
    (o: Order) => if o.inventory == Committed then Qty(o.lines, v) else 0
  }

  /** What the open reservations add up to. */
  function Held(orders: seq<Order>, v: Id): int { Total(HeldBy(v), orders) }

  /** What has left the stock for orders. */
  function Sold(orders: seq<Order>, v: Id): int { Total(SoldBy(v), orders) }

  function RestockLine(v: Id): ReturnLine -> int {
    (l: ReturnLine) =>
      if l.variant == v && l.disposition == Some(Restock) && l.accepted.Some? then l.accepted.value else 0
  }

  function RestockBy(v: Id): Return -> int {
    (r: Return) => Total(RestockLine(v), r.lines)
  }

  /** What has come back into the stock through returns. */
  function Restocked(requests: seq<Return>, v: Id): int { Total(RestockBy(v), requests) }

  // ----- vouchers

  function UseOf(x: Id): Order -> int {
    (o: Order) => if o.usage == Some(x) then 1 else 0
  }

  function UseOfBy(x: Id, user: Id): Order -> int {
    (o: Order) => if o.usage == Some(x) && o.user == user then 1 else 0
  }

  function Uses(orders: seq<Order>, x: Id): int { Total(UseOf(x), orders) }

  function UsesBy(orders: seq<Order>, x: Id, user: Id): int { Total(UseOfBy(x, user), orders) }

  // ----- returns

  function RequestedOf(idx: nat): ReturnLine -> int {
    (l: ReturnLine) => if l.line == idx then l.requested else 0
  }

  function AcceptedOf(idx: nat): ReturnLine -> int {
    (l: ReturnLine) =>
      if l.line == idx then (if l.accepted.Some? then l.accepted.value else l.requested) else 0
  }

  /** What a return counts for against line `idx` of order `o`. */
  function CountedFor(o: nat, idx: nat): Return -> int {
    (r: Return) =>
      if r.order != o || r.status == AskRejected then 0
      else if r.status == AskPending || r.status == AskApproved then Total(RequestedOf(idx), r.lines)
      else Total(AcceptedOf(idx), r.lines)
  }

  /** The quantity of an order line that returns take up. */
  function Prior(requests: seq<Return>, o: nat, idx: nat): int { Total(CountedFor(o, idx), requests) }

  function GrossOf(): ReturnLine -> int {
    (l: ReturnLine) => l.gross
  }

  /** The price before discount of all rows of a return. */
  function AskedPrice(lines: seq<ReturnLine>): nat {
    TotalBounds(GrossOf(), lines);
    Total(GrossOf(), lines)
  }

  predicate IsActive(r: Return) { r.status != AskRejected && r.status != AskCompleted }

  function ApprovedFor(o: nat): Return -> int {
    (r: Return) => if r.order == o then r.approved else 0
  }

  /** What a return brought by hand, beside the payment. */
  function ByHandFor(o: nat): Return -> int {
    (r: Return) => if r.order == o && r.status == AskCompleted && r.transfer.Some? then r.approved else 0
  }

  function PaidFor(o: nat): Return -> int {
    (r: Return) => if r.order == o && r.status == AskCompleted then r.approved else 0
  }

  /** The refunds approved for an order, paid or not. */
  function Approved(requests: seq<Return>, o: nat): int { Total(ApprovedFor(o), requests) }

  /** The refunds made by hand for an order. */
  function ByHand(requests: seq<Return>, o: nat): int { Total(ByHandFor(o), requests) }

  /** The refunds paid out for an order. */
  function Paid(requests: seq<Return>, o: nat): int { Total(PaidFor(o), requests) }

  /** What the goods of an order cost after the discount. */
  function Merchandise(o: Order): int { Max(o.subtotal - o.discount, 0) }
}
