/**
The order service as it works: statement by statement on its tables, with a rollback when a transaction
fails. Every method has exactly the outcome of its specification, and keeps the invariants.
 */
module ShopService {
  import opened Basics
  import opened Totals
  import opened ShopState
  import opened ShopMoney
  import opened ShopTransactions
  import opened ShopInvariants
  import opened ShopReturns
  import opened ShopRuns

  /** The service answers and leaves its tables as the specification says; a refusal leaves no trace. */
  ghost predicate Agrees(spec: Outcome, failure: Option<Refusal>, before: State, after: State) {
    match spec
    case Done(t) => failure == None && after == t
    case Refused(why) => failure == Some(why) && after == before
  }

  /** A piece of a transaction; after a failure the caller rolls back. */
  ghost predicate AgreesInside(spec: Outcome, failure: Option<Refusal>, after: State) {
    match spec
    case Done(t) => failure == None && after == t
    case Refused(why) => failure == Some(why)
  }

  lemma {:induction false} ReserveFails(variants: map<Id, Variant>, lines: seq<Line>, n: nat)
    requires n <= |lines| && Reserve(variants, lines[..n]) == None
    ensures Reserve(variants, lines) == None
  {
    if n < |lines| {
      assert lines[..|lines| - 1][..n] == lines[..n];
      ReserveFails(variants, lines[..|lines| - 1], n);
    } else {
      assert lines[..n] == lines;
    }
  }

  /** Some of the variants are shifted already. */
  function Partly(
      variants: map<Id, Variant>, lines: seq<Line>, done: set<Id>, from: Inventory, target: Inventory): map<Id, Variant>
  {
    map v | v in variants :: if v in done then Moved(variants[v], Qty(lines, v), from, target) else variants[v]
  }

  lemma NoneShifted(variants: map<Id, Variant>, lines: seq<Line>, from: Inventory, target: Inventory)
    ensures Partly(variants, lines, {}, from, target) == variants
  {
  }

  lemma OneMoreShifted(
      variants: map<Id, Variant>, lines: seq<Line>, done: set<Id>, from: Inventory, target: Inventory, v: Id)
    requires v !in done
    ensures var before := Partly(variants, lines, done, from, target);
            && (v in before <==> v in variants) && (v in before ==> before[v] == variants[v])
            && (RowAllows(before, v, Qty(lines, v), from, target)
                <==> RowAllows(variants, v, Qty(lines, v), from, target))
            && (v in before ==>
                  Partly(variants, lines, done + {v}, from, target)
                  == before[v := Moved(before[v], Qty(lines, v), from, target)])
  {
    hide Qty, Moved;
  }

  lemma AllShifted(variants: map<Id, Variant>, lines: seq<Line>, done: set<Id>, from: Inventory, target: Inventory)
    requires forall k :: 0 <= k < |lines| ==> lines[k].variant in done
    ensures Partly(variants, lines, done, from, target) == Shift(variants, lines, from, target)
  {
    hide Qty;
    forall v | v in variants && v !in done
      ensures Qty(lines, v) == 0
    {
      QtyBounds(lines, v);
    }
  }

  lemma RestockedMore(variants: map<Id, Variant>, lines: seq<ReturnLine>, l: ReturnLine)
    ensures RestockAll(variants, lines + [l]) == RestockOne(RestockAll(variants, lines), l)
  {
    hide Total;
    forall v | v in variants
      ensures Total(RestockLine(v), lines + [l]) == Total(RestockLine(v), lines) + RestockLine(v)(l)
    {
      TotalSnoc(RestockLine(v), lines, l);
    }
  }

  /** The rows of a return while the loop is at row `k`. */
  function RowsSoFar(rows: seq<ReturnLine>, lines: seq<ReturnLine>, k: nat): (r: seq<ReturnLine>)
    requires k <= |rows| == |lines|
    ensures |r| == |lines|
  {
    rows[..k] + lines[k..]
  }

  lemma NextRow(rows: seq<ReturnLine>, lines: seq<ReturnLine>, k: nat)
    requires k < |rows| == |lines|
    ensures RowsSoFar(rows, lines, k + 1) == RowsSoFar(rows, lines, k)[k := rows[k]]
    ensures rows[..k + 1] == rows[..k] + [rows[k]]
  {
  }

  lemma RowEnds(rows: seq<ReturnLine>, lines: seq<ReturnLine>)
    requires |rows| == |lines|
    ensures RowsSoFar(rows, lines, 0) == lines && RowsSoFar(rows, lines, |lines|) == rows
    ensures rows[..0] == [] && rows[..|lines|] == rows
  {
  }

  class OrderService {
    var variants: map<Id, Variant>
    var orders: seq<Order>
    var vouchers: map<Id, Voucher>
    var requests: seq<Return>

    function Db(): State
      reads this
    {
      State(variants, orders, vouchers, requests)
    }

    /** A shop that opens. */
    constructor (variants: map<Id, Variant>, vouchers: map<Id, Voucher>)
      requires Opening(State(variants, [], vouchers, []))
      ensures Db() == State(variants, [], vouchers, []) && Inv(Db())
    {
      this.variants, this.orders, this.vouchers, this.requests := variants, [], vouchers, [];
      new;
      OpeningInv(Db());
    }

    method Rollback(before: State)
      modifies this
      ensures Db() == before
    {
      variants, orders, vouchers, requests := before.variants, before.orders, before.vouchers, before.requests;
    }

    // ----- stock

    /** One conditional update per line, until one finds no row. */
    method ReserveLines(lines: seq<Line>) returns (ok: bool)
      modifies this`variants
      ensures if ok then Reserve(old(variants), lines) == Some(variants) else Reserve(old(variants), lines) == None
    {
      for i := 0 to |lines|
        invariant Reserve(old(variants), lines[..i]) == Some(variants)
      {
        var l := lines[i];
        assert lines[..i + 1][..i] == lines[..i];
        if l.variant in variants && variants[l.variant].active
           && variants[l.variant].stock - variants[l.variant].reserved >= l.quantity {
          var row := variants[l.variant];
          variants := variants[l.variant := row.(reserved := row.reserved + l.quantity)];
        } else {
          ReserveFails(old(variants), lines, i + 1);
          return false;
        }
      }
      assert lines[..|lines|] == lines;
      return true;
    }

    /** One conditional update of a transition; `found` says whether a row met the condition. */
    method UpdateRow(v: Id, quantity: int, from: Inventory, target: Inventory) returns (found: bool)
      requires target != Reserved && from != target && (target == Committed ==> from == Reserved)
      modifies this`variants
      ensures found <==> RowAllows(old(variants), v, quantity, from, target)
      ensures variants == if found then old(variants)[v := Moved(old(variants)[v], quantity, from, target)]
                          else old(variants)
    {
      if v !in variants {
        return false;
      }
      var row := variants[v];
      if target == Committed {
        if row.stock < quantity || row.reserved < quantity {
          return false;
        }
        row := row.(stock := row.stock - quantity, reserved := row.reserved - quantity);
      } else if from == Reserved {
        if row.reserved < quantity {
          return false;
        }
        row := row.(reserved := row.reserved - quantity);
      } else {
        row := row.(stock := row.stock + quantity);
      }
      variants := variants[v := row];
      return true;
    }

    /** The rows of the grouped query come in any order; the outcome does not depend on it. */
    method ShiftRows(order: Order, target: Inventory) returns (ok: bool)
      requires target != Reserved && order.inventory != target && (target == Committed ==> order.inventory == Reserved)
      modifies this`variants
      ensures ok <==> RowsAllow(old(variants), order, target)
      ensures ok ==> variants == Shift(old(variants), order.lines, order.inventory, target)
    {
      hide Qty, RowAllows, Moved, Partly, Shift;
      var all := set l | l in order.lines :: l.variant;
      var left := all;
      NoneShifted(variants, order.lines, order.inventory, target);
      assert all - left == {};
      while left != {}
        invariant left <= all
        invariant variants == Partly(old(variants), order.lines, all - left, order.inventory, target)
        invariant forall v :: v in all - left ==>
            RowAllows(old(variants), v, Qty(order.lines, v), order.inventory, target)
        decreases left
      {
        var v :| v in left;
        OneMoreShifted(old(variants), order.lines, all - left, order.inventory, target, v);
        assert all - left + {v} == all - (left - {v});
        var found := UpdateRow(v, Qty(order.lines, v), order.inventory, target);
        if !found {
          return false;
        }
        AllowedIsKnown(old(variants), v, Qty(order.lines, v), order.inventory, target);
        left := left - {v};
      }
      AllShifted(old(variants), order.lines, all - left, order.inventory, target);
      return true;
    }

    method TransitionInventory(o: nat, target: Inventory) returns (failure: Option<Refusal>)
      requires o < |orders| && target != Reserved
      modifies this`variants, this`orders
      ensures AgreesInside(Transition(old(Db()), o, target), failure, Db())
    {
      hide RowsAllow, Shift;
      var order := orders[o];
      if order.inventory == target {
        return None;
      }
      if target == Committed && order.inventory != Reserved {
        return Some(Conflict);
      }
      var ok := ShiftRows(order, target);
      if !ok {
        return Some(BadRequest);
      }
      orders := orders[o := order.(inventory := target)];
      return None;
    }

    /** The use of the voucher is deleted, and its counter goes down, but never below zero. */
    method ReleaseVoucherUsage(o: nat)
      requires o < |orders|
      modifies this`vouchers, this`orders
      ensures Db() == ReleaseVoucher(old(Db()), o)
    {
      var usage := orders[o].usage;
      orders := orders[o := orders[o].(usage := None)];
      match usage {
        case None =>
        case Some(x) =>
          if x in vouchers {
            vouchers := vouchers[x := vouchers[x].(usedCount := Max(vouchers[x].usedCount - 1, 0))];
          }
      }
    }

    method SetStatus(o: nat, status: Status)
      requires o < |orders|
      modifies this`orders
      ensures Db() == WithStatus(old(Db()), o, status)
    {
      orders := orders[o := orders[o].(status := status)];
    }

    /** Gives back goods and voucher. */
    method GiveBack(o: nat) returns (failure: Option<Refusal>)
      requires o < |orders|
      modifies this
      ensures AgreesInside(Cancelling(old(Db()), o), failure, Db())
    {
      hide Transition, ReleaseVoucher;
      TransitionLength(Db(), o, Released);
      failure := TransitionInventory(o, Released);
      if failure == None {
        ReleaseVoucherUsage(o);
      }
    }

    // ----- transactions on orders

    /** The checks on a voucher, one after the other, then its discount; `None` where one of them fails. */
    method ValidateVoucher(x: Id, user: Id, amount: nat, now: int) returns (discount: Option<nat>)
      ensures discount.Some? <==> VoucherUsable(Db(), x, user, amount, now)
      ensures discount.Some? ==> discount.value == Discount(vouchers[x], amount)
    {
      hide UsesBy, HalfUp, Discount;
      if x !in vouchers {
        return None;
      }
      var v := vouchers[x];
      if !v.active || v.startsAt > now || v.expiresAt < now {
        return None;
      }
      if v.usageLimit.Some? && v.usedCount >= v.usageLimit.value {
        return None;
      }
      if amount < v.minOrder {
        return None;
      }
      if UsesBy(orders, x, user) >= v.userLimit {
        return None;
      }
      var worth := if v.percent then HalfUp(amount * v.value, WHOLE) else v.value;
      if v.cap.Some? {
        worth := Min(worth, v.cap.value);
      }
      DiscountIs(v, amount);
      return Some(Max(0, Min(amount, worth)));
    }

    method CreateOrder(user: Id, c: Checkout, now: int) returns (failure: Option<Refusal>)
      modifies this
      ensures var spec := ShopTransactions.CreateOrder(old(Db()), user, c, now);
              Agrees(spec, failure, old(Db()), Db())
      ensures Inv(old(Db())) ==> Inv(Db())
    {
      hide Inv, Reserve, VoucherUsable, Discount, Replayed, Insertable;
      var before := Db();
      if Inv(before) { ApplyKeeps(before, ACreate(user, c, now)); }
      if Replayed(orders, user, c.key) {
        return None;
      }
      var shipping := if c.subtotal >= c.freeFrom then 0 else c.baseFee;
      var discount: nat := 0;
      if c.voucher.Some? {
        var valid := ValidateVoucher(c.voucher.value, user, c.subtotal, now);
        if valid == None {
          return Some(BadRequest);
        }
        discount := valid.value;
      }
      UsableVoucher(before, c.voucher, user, c.subtotal, now);
      var reserved := ReserveLines(c.lines);
      if !reserved {
        Rollback(before);
        return Some(Conflict);
      }
      if !Insertable(orders, c.key, c.lines) {
        Rollback(before);
        return Some(Constraint);
      }
      var total := Max(0, c.subtotal - discount + shipping);
      var order := Order(user, c.key, Pending, Reserved, c.lines, c.subtotal, discount, shipping, total, None);
      orders := orders + [order];
      if c.voucher.Some? {
        var x := c.voucher.value;
        vouchers := vouchers[x := vouchers[x].(usedCount := vouchers[x].usedCount + 1)];
        orders := orders[|orders| - 1 := order.(usage := Some(x))];
      }
      return None;
    }

    method UpdatePaymentStatus(o: nat, payment: PaymentStatus, want: Option<Status>, settled: bool)
      returns (failure: Option<Refusal>)
      modifies this
      ensures Agrees(UpdatePayment(old(Db()), o, payment, want, settled), failure, old(Db()), Db())
      ensures Inv(old(Db())) ==> Inv(Db())
    {
      hide Inv, Transition, Cancelling, CompleteWaiting;
      var before := Db();
      if Inv(before) { ApplyKeeps(before, APayment(o, payment, want, settled)); }
      if o >= |orders| {
        return Some(NotFound);
      }
      TransitionLength(before, o, Committed);
      CancellingLength(before, o);
      var order := orders[o];
      var next: Option<Status> := None;
      failure := None;
      if payment == PaidUp {
        if order.status == Cancelled || order.status == Refunded {
          return Some(Conflict);
        }
        if order.status == Pending {
          failure := TransitionInventory(o, Committed);
          next := Some(Confirmed);
        } else if order.inventory != Committed {
          return Some(Conflict);
        }
      } else if payment == Failed {
        if order.status == Pending && !settled {
          failure := GiveBack(o);
          next := Some(Cancelled);
        }
      } else if payment == PaidBack {
        if order.status != Cancelled && order.status != Delivered && order.status != Refunded {
          return Some(Conflict);
        }
        next := Some(Refunded);
      }
      if failure == None && want.Some? && next.Some? && want != next {
        failure := Some(BadRequest);
      }
      if failure != None {
        Rollback(before);
        return;
      }
      if next.Some? && next.value != orders[o].status {
        SetStatus(o, next.value);
      }
      if payment == PaidBack {
        CompleteWaitingReturns(o);
      }
    }

    /** `UPDATE return_requests ... WHERE order_id = o AND status IN (...)`, row by row. */
    method CompleteWaitingReturns(o: nat)
      modifies this`requests
      ensures requests == CompleteWaiting(old(requests), o)
    {
      for i := 0 to |requests|
        invariant |requests| == |old(requests)|
        invariant forall k :: 0 <= k < i ==> requests[k] == CompleteWaiting(old(requests), o)[k]
        invariant forall k :: i <= k < |requests| ==> requests[k] == old(requests)[k]
      {
        var r := requests[i];
        if r.order == o && (r.status == RefundPending || r.status == RefundFailed) {
          requests := requests[i := r.(status := AskCompleted)];
        }
      }
    }

    method UpdateOrderStatus(o: nat, status: Status, payments: seq<Payment>) returns (failure: Option<Refusal>)
      modifies this
      ensures Agrees(UpdateStatus(old(Db()), o, status, payments), failure, old(Db()), Db())
      ensures Inv(old(Db())) ==> Inv(Db())
    {
      hide Inv, Transition, Cancelling;
      var before := Db();
      if Inv(before) { ApplyKeeps(before, AStatus(o, status, payments)); }
      if o >= |orders| {
        return Some(NotFound);
      }
      TransitionLength(before, o, Committed);
      CancellingLength(before, o);
      if orders[o].status == status {
        return None;
      }
      if !Allowed(orders[o].status, status) {
        return Some(BadRequest);
      }
      failure := None;
      if status == Confirmed {
        if payments == [] || (!payments[0].cod && !payments[0].paid) {
          return Some(Conflict);
        }
        failure := TransitionInventory(o, Committed);
      } else if status == Cancelled {
        if exists k :: 0 <= k < |payments| && payments[k].settled {
          return Some(Conflict);
        }
        failure := GiveBack(o);
      }
      if failure != None {
        Rollback(before);
        return;
      }
      SetStatus(o, status);
    }

    // ----- transactions on returns

    /** The loop over the order lines against what is still available. */
    method CheckAvailable(o: nat, picks: seq<Pick>) returns (ok: bool)
      requires o < |orders|
      ensures ok <==> Available(Db(), o, picks)
    {
      hide Picked, Prior;
      for idx := 0 to |orders[o].lines|
        invariant forall k :: 0 <= k < idx ==> Picked(picks, k) <= orders[o].lines[k].quantity - Prior(requests, o, k)
      {
        if Picked(picks, idx) > orders[o].lines[idx].quantity - Prior(requests, o, idx) {
          return false;
        }
      }
      return true;
    }

    /** The loop over the gift campaigns of the order, in any order. */
    method CheckGifts(o: nat, picks: seq<Pick>) returns (ok: bool)
      requires o < |orders|
      ensures ok <==> GiftRule(Db(), o, picks)
    {
      hide Picked, Prior, WhollyPicked;
      var lines := orders[o].lines;
      var all := set l | l in lines && l.gift && l.campaign.Some? && l.campaign != Some("") :: l.campaign.value;
      var left := all;
      while left != {}
        invariant left <= all
        invariant forall idx :: 0 <= idx < |lines| ==>
                    (lines[idx].campaign.Some? && lines[idx].campaign.value in all - left ==>
                       WhollyPicked(Db(), o, picks, idx))
        decreases left
      {
        var campaign :| campaign in left;
        var whole := forall idx :: 0 <= idx < |lines| && lines[idx].campaign == Some(campaign) ==>
                       WhollyPicked(Db(), o, picks, idx);
        if !whole {
          BrokenCampaign(Db(), o, picks, campaign);
          return false;
        }
        left := left - {campaign};
      }
      return true;
    }

    method CreateReturnRequest(o: nat, user: Id, picks: seq<Pick>, inTime: bool, images: nat)
        returns (failure: Option<Refusal>)
      modifies this
      ensures Agrees(AskReturn(old(Db()), o, user, picks, inTime, images), failure, old(Db()), Db())
      ensures Inv(old(Db())) ==> Inv(Db())
    {
      hide Inv, Available, GiftRule, HasActive, ValidPicks, Picked, Share, AskedPrice, Total;
      var before := Db();
      if Inv(before) { ApplyKeeps(before, AAsk(o, user, picks, inTime, images)); }
      if images == 0 {
        return Some(BadRequest);
      }
      if o >= |orders| || orders[o].user != user || orders[o].status != Delivered || !inTime {
        return Some(BadRequest);
      }
      if !ValidPicks(picks, |orders[o].lines|) || HasActive(requests, o) {
        return Some(BadRequest);
      }
      var available := CheckAvailable(o, picks);
      if !available {
        return Some(BadRequest);
      }
      var whole := CheckGifts(o, picks);
      if !whole {
        return Some(BadRequest);
      }
      var order := orders[o];
      var rows: seq<ReturnLine> := [];
      for i := 0 to |order.lines|
        invariant rows == PickLines(order, picks, i)
        invariant Db() == before
      {
        var quantity := Picked(picks, i);
        if quantity > 0 {
          var line := order.lines[i];
          rows := rows + [ReturnLine(i, line.variant, quantity, line.unitPrice * quantity, None, None, 0)];
        }
      }
      var asked := Share(AskedPrice(rows), order.subtotal, order.discount);
      requests := requests + [Return(o, AskPending, rows, asked, 0, false, None)];
      return None;
    }

    method ReviewReturnRequest(r: nat, approve: bool, note: bool) returns (failure: Option<Refusal>)
      modifies this
      ensures Agrees(Review(old(Db()), r, approve, note), failure, old(Db()), Db())
      ensures Inv(old(Db())) ==> Inv(Db())
    {
      hide Inv;
      if Inv(Db()) { ApplyKeeps(Db(), AReview(r, approve, note)); }
      if !approve && !note {
        return Some(BadRequest);
      }
      if r >= |requests| {
        return Some(NotFound);
      }
      if requests[r].status != AskPending {
        return Some(BadRequest);
      }
      requests := requests[r := requests[r].(status := if approve then AskApproved else AskRejected)];
      return None;
    }

    /** Every item gets its share while the amount lasts, the last one the rest. */
    method AllocateItemRefunds(shares: seq<nat>, approved: nat) returns (parts: seq<nat>)
      ensures parts == Allocate(shares, approved)
    {
      parts := [];
      var spent := 0;
      for i := 0 to |shares|
        invariant 0 <= spent <= approved && |parts| == i
        invariant Allocate(shares, approved) == parts + Allocate(shares[i..], approved - spent)
      {
        var remaining := Max(approved - spent, 0);
        var amount := if i == |shares| - 1 then remaining else Min(shares[i], remaining);
        assert shares[i..][1..] == shares[i + 1..] && shares[i..][0] == shares[i];
        ghost var rest := Allocate(shares[i + 1..], remaining - amount);
        assert Allocate(shares[i..], remaining) == [amount] + rest;
        assert parts + ([amount] + rest) == (parts + [amount]) + rest;
        parts := parts + [amount];
        spent := spent + amount;
      }
    }

    method ReceiveReturnRequest(r: nat, choices: seq<Choice>, provider: bool) returns (failure: Option<Refusal>)
      modifies this
      ensures Agrees(Receive(old(Db()), r, choices, provider), failure, old(Db()), Db())
      ensures Inv(old(Db())) ==> Inv(Db())
    {
      hide Inv, ExactChoices, ReceivedLines, Refund, RestockAll;
      var before := Db();
      if Inv(before) { ApplyKeeps(before, AReceive(r, choices, provider)); }
      if r >= |requests| || requests[r].order >= |orders| {
        return Some(NotFound);
      }
      var x := requests[r];
      if x.status == AskCompleted || x.status == RefundPending || x.status == ManualPending {
        return None;
      }
      if x.status == RefundFailed {
        requests := requests[r := x.(status := ManualPending)];
        return None;
      }
      if x.status != AskApproved || orders[x.order].inventory != Committed {
        return Some(BadRequest);
      }
      if !ExactChoices(choices, |x.lines|) {
        return Some(BadRequest);
      }
      ExactCovers(choices, |x.lines|);
      var m := BuildChoices(choices);
      var amount := RefundAmount(r, m);
      UpdateRows(r, m, amount);
      var status := if amount <= 0 then AskCompleted else if provider then RefundPending else ManualPending;
      requests := requests[r := requests[r].(approved := amount, status := status, awaiting := amount > 0 && provider)];
      return None;
    }

    /** Adds up what was accepted, then takes its share of what was paid, within what is left of the order. */
    method RefundAmount(r: nat, m: map<nat, Disposition>) returns (amount: nat)
      requires r < |requests| && requests[r].order < |orders|
      requires forall k :: 0 <= k < |requests[r].lines| ==> k in m
      ensures amount == Refund(Db(), r, m)
    {
      hide Paid, Merchandise;
      var lines := requests[r].lines;
      var order := orders[requests[r].order];
      var gross: nat := 0;
      for i := 0 to |lines|
        invariant gross == AcceptedGross(lines, m, i)
      {
        if m[i] != Rejected {
          gross := gross + lines[i].gross;
        }
      }
      var remaining := Max(Merchandise(order) - Paid(requests, requests[r].order), 0);
      return Min(Share(gross, order.subtotal, order.discount), remaining);
    }

    method BuildChoices(choices: seq<Choice>) returns (m: map<nat, Disposition>)
      ensures m == ChoiceMap(choices)
    {
      m := map[];
      for i := 0 to |choices|
        invariant m == ChoiceMap(choices[..i])
      {
        assert choices[..i + 1][..i] == choices[..i];
        m := m[choices[i].line := choices[i].disposition];
      }
      assert choices[..|choices|] == choices;
    }

    /** The update of one row, and of the stock where the goods go back. */
    method UpdateReturnRow(r: nat, k: nat, row: ReturnLine)
      requires r < |requests| && k < |requests[r].lines|
      modifies this`requests, this`variants
      ensures requests == old(requests)[r := old(requests)[r].(lines := old(requests)[r].lines[k := row])]
      ensures variants == RestockOne(old(variants), row)
    {
      requests := requests[r := requests[r].(lines := requests[r].lines[k := row])];
      if row.disposition == Some(Restock) && row.accepted.Some? && row.variant in variants {
        var variant := variants[row.variant];
        variants := variants[row.variant := variant.(stock := variant.stock + row.accepted.value)];
      }
    }

    /** The loop over the rows: quantity, disposition and refund of each. */
    method UpdateRows(r: nat, m: map<nat, Disposition>, amount: nat)
      requires r < |requests| && requests[r].order < |orders|
      requires forall k :: 0 <= k < |requests[r].lines| ==> k in m
      modifies this`requests, this`variants
      ensures var lines := ReceivedLines(orders[old(requests)[r].order], old(requests)[r].lines, m, amount);
              && requests == old(requests)[r := old(requests)[r].(lines := lines)]
              && variants == RestockAll(old(variants), lines)
    {
      hide AcceptedShares, Allocate, RestockAll, RestockOne, RowsSoFar, ReceivedLines;
      var x := requests[r];
      var order := orders[x.order];
      var parts := AllocateItemRefunds(AcceptedShares(order, x.lines, m, |x.lines|), amount);
      ghost var rows := ReceivedLines(order, x.lines, m, amount);
      var rank := 0;
      RestockNothing(variants);
      RowEnds(rows, x.lines);
      for i := 0 to |x.lines|
        invariant rank == Rank(m, i)
        invariant requests == old(requests)[r := x.(lines := RowsSoFar(rows, x.lines, i))]
        invariant variants == RestockAll(old(variants), rows[..i])
      {
        RowIs(order, x.lines, m, amount, i);
        NextRow(rows, x.lines, i);
        RestockedMore(old(variants), rows[..i], rows[i]);
        var row := ReceivedLine(x.lines[i], m[i], if m[i] == Rejected then 0 else parts[rank]);
        UpdateReturnRow(r, i, row);
        if m[i] != Rejected {
          rank := rank + 1;
        }
      }
    }

    /** The update after the call to the payment service. */
    method RecordDispatch(r: nat, started: bool) returns (failure: Option<Refusal>)
      modifies this
      ensures Agrees(Dispatched(old(Db()), r, started), failure, old(Db()), Db())
      ensures Inv(old(Db())) ==> Inv(Db())
    {
      hide Inv;
      if Inv(Db()) { ApplyKeeps(Db(), ADispatched(r, started)); }
      if r >= |requests| || !requests[r].awaiting {
        return Some(NotFound);
      }
      requests := requests[r := requests[r].(awaiting := false)];
      if requests[r].status != AskCompleted {
        requests := requests[r := requests[r].(status := if started then RefundPending else RefundFailed)];
      }
      return None;
    }

    /** Completes the return, then looks at what the order got back in all. */
    method CompleteReturn(r: nat, transfer: Option<string>)
      requires r < |requests| && requests[r].order < |orders|
      modifies this
      ensures Db() == Complete(old(Db()), r, transfer)
    {
      hide Paid, Merchandise;
      var o := requests[r].order;
      requests := requests[r := requests[r].(status := AskCompleted, transfer := transfer)];
      if Paid(requests, o) >= Merchandise(orders[o]) {
        SetStatus(o, Refunded);
      }
    }

    method UpdateReturnRefundResult(r: nat, completed: bool) returns (failure: Option<Refusal>)
      modifies this
      ensures Agrees(RefundResult(old(Db()), r, completed), failure, old(Db()), Db())
      ensures Inv(old(Db())) ==> Inv(Db())
    {
      hide Inv, Complete;
      if Inv(Db()) { ApplyKeeps(Db(), ARefund(r, completed)); }
      if r >= |requests| || requests[r].order >= |orders| {
        return Some(NotFound);
      }
      if requests[r].status == AskCompleted {
        return None;
      }
      if requests[r].status != RefundPending && requests[r].status != RefundFailed {
        return Some(BadRequest);
      }
      if completed {
        CompleteReturn(r, None);
      } else {
        requests := requests[r := requests[r].(status := RefundFailed)];
      }
      return None;
    }

    /** The query for another return with the reference. */
    method FindTransfer(r: nat, transfer: string) returns (used: bool)
      ensures used <==> TransferUsed(requests, r, transfer)
    {
      for k := 0 to |requests|
        invariant forall j :: 0 <= j < k && j != r ==> requests[j].transfer != Some(transfer)
      {
        if k != r && requests[k].transfer == Some(transfer) {
          return true;
        }
      }
      return false;
    }

    method CompleteManualReturnRefund(r: nat, amount: int, transfer: string, images: nat)
        returns (failure: Option<Refusal>)
      modifies this
      ensures Agrees(ManualRefund(old(Db()), r, amount, transfer, images), failure, old(Db()), Db())
      ensures Inv(old(Db())) ==> Inv(Db())
    {
      hide Inv, Complete, TransferUsed;
      if Inv(Db()) { ApplyKeeps(Db(), AManual(r, amount, transfer, images)); }
      if images == 0 {
        return Some(BadRequest);
      }
      if r >= |requests| || requests[r].order >= |orders| {
        return Some(NotFound);
      }
      if requests[r].status == AskCompleted {
        return None;
      }
      if requests[r].status != ManualPending {
        return Some(BadRequest);
      }
      var used := FindTransfer(r, transfer);
      if used || amount != requests[r].approved {
        return Some(BadRequest);
      }
      CompleteReturn(r, Some(transfer));
      return None;
    }
  }

  lemma AllowedIsKnown(variants: map<Id, Variant>, v: Id, quantity: int, from: Inventory, target: Inventory)
    requires RowAllows(variants, v, quantity, from, target)
    ensures v in variants
  {
  }

  lemma TransitionLength(s: State, o: nat, target: Inventory)
    requires o < |s.orders| && target != Reserved
    ensures Transition(s, o, target).Done? ==> |Transition(s, o, target).state.orders| == |s.orders|
    ensures Transition(s, o, target).Done? ==> Transition(s, o, target).state.orders[o].status == s.orders[o].status
  {
    hide Shift, RowsAllow;
  }

  lemma CancellingLength(s: State, o: nat)
    requires o < |s.orders|
    ensures Cancelling(s, o).Done? ==> |Cancelling(s, o).state.orders| == |s.orders|
    ensures Cancelling(s, o).Done? ==> Cancelling(s, o).state.orders[o].status == s.orders[o].status
  {
    hide Transition;
    TransitionLength(s, o, Released);
  }

  lemma UsableVoucher(s: State, voucher: Option<Id>, user: Id, amount: int, now: int)
    ensures voucher.Some? && VoucherUsable(s, voucher.value, user, amount, now) ==> voucher.value in s.vouchers
  {
  }

  lemma BrokenCampaign(s: State, o: nat, picks: seq<Pick>, campaign: Id)
    requires o < |s.orders| && campaign != ""
    requires exists l :: l in s.orders[o].lines && l.gift && l.campaign == Some(campaign)
    requires exists idx :: 0 <= idx < |s.orders[o].lines| && s.orders[o].lines[idx].campaign == Some(campaign)
                           && !WhollyPicked(s, o, picks, idx)
    ensures !GiftRule(s, o, picks)
  {
    hide WhollyPicked;
    var lines := s.orders[o].lines;
    var idx :| 0 <= idx < |lines| && lines[idx].campaign == Some(campaign) && !WhollyPicked(s, o, picks, idx);
    assert InGiftCampaign(s.orders[o], idx);
  }

  lemma ExactCovers(choices: seq<Choice>, n: nat)
    requires ExactChoices(choices, n)
    ensures forall k :: 0 <= k < n ==> k in ChoiceMap(choices)
  {
    hide ChoiceMap;
  }

  lemma RestockNothing(variants: map<Id, Variant>)
    ensures RestockAll(variants, []) == variants
  {
  }
}
