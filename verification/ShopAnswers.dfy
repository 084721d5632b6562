/**
When the service accepts what customers, staff and the payment service send, and what it then changes, said in
terms of the tables alone.
 */
module ShopAnswers {
  import opened Basics
  import opened Totals
  import opened ShopState
  import opened ShopMoney
  import opened ShopTransactions
  import opened ShopInvariants
  import opened ShopReturns
  import opened ShopRuns
  import opened ShopReturned

  // ----- reports on payments

  /** A failed payment cancels an order if and only if it is pending and no payment for it is settled. */
  lemma FailedReport(s: State, o: nat, want: Option<Status>, settled: bool)
    requires Inv(s) && o < |s.orders|
    ensures var outcome := UpdatePayment(s, o, Failed, want, settled);
            if s.orders[o].status == Pending && !settled then
              if want.None? || want == Some(Cancelled) then
                && outcome.Done? && outcome.state.requests == s.requests
                && outcome.state.orders
                   == s.orders[o := s.orders[o].(status := Cancelled, inventory := Released, usage := None)]
              else outcome == Refused(BadRequest)
            else outcome == Done(s)
  {
    hide OrderInv, ReturnInv, Transition, Cancelling, CompleteWaiting;
    if s.orders[o].status == Pending {
      CancelKeeps(s, o);
      CancelLeavesReturns(s, o);
    }
  }

  lemma CancelLeavesReturns(s: State, o: nat)
    requires o < |s.orders|
    ensures Cancelling(s, o).Done? ==> Cancelling(s, o).state.requests == s.requests
  {
    hide RowsAllow, Shift;
  }

  /**
  A refunded payment is accepted for cancelled, delivered and refunded orders; it makes the order refunded and
  completes its returns that wait for the provider, and changes nothing else.
   */
  lemma RefundReport(s: State, o: nat, want: Option<Status>, settled: bool)
    requires o < |s.orders|
    ensures var outcome := UpdatePayment(s, o, PaidBack, want, settled);
            var from := s.orders[o].status;
            && (outcome == Refused(Conflict) <==> from !in {Cancelled, Delivered, Refunded})
            && (outcome.Done? <==> from in {Cancelled, Delivered, Refunded} && (want.None? || want == Some(Refunded)))
            && (outcome.Done? ==>
                  && var t := outcome.state;
                  && t.variants == s.variants && t.vouchers == s.vouchers
                  && t.orders == s.orders[o := s.orders[o].(status := Refunded)]
                  && |t.requests| == |s.requests|
                  && forall r :: 0 <= r < |s.requests| ==>
                       t.requests[r] ==
                         if s.requests[r].order == o && s.requests[r].status in {RefundPending, RefundFailed}
                         then s.requests[r].(status := AskCompleted) else s.requests[r])
  {
  }

  // ----- changes of status by staff

  /** The steps of an order that staff can take. */
  const STEPS: set<(Status, Status)> := {
    (Pending, Confirmed), (Confirmed, Processing), (Processing, Shipping), (Shipping, Delivered),
    (Pending, Cancelled), (Confirmed, Cancelled), (Processing, Cancelled)
  }

  lemma StepsAre(from: Status, to: Status)
    ensures Allowed(from, to) <==> (from, to) in STEPS
  {
  }

  /** Where the goods are after a step. */
  function GoodsAfter(before: Inventory, to: Status): Inventory {
    if to == Confirmed then Committed else if to == Cancelled then Released else before
  }

  /**
  Staff can take an order to a status if and only if it is there already, or the step is one of the seven, the
  latest payment of a confirmed order is cash on delivery or paid, and no payment of a cancelled one is settled.
   */
  lemma StatusAnswer(s: State, o: nat, status: Status, payments: seq<Payment>)
    requires Inv(s) && o < |s.orders|
    ensures UpdateStatus(s, o, status, payments).Done? <==>
            || s.orders[o].status == status
            || (&& (s.orders[o].status, status) in STEPS
                && (status == Confirmed ==> payments != [] && (payments[0].cod || payments[0].paid))
                && (status == Cancelled ==> forall k :: 0 <= k < |payments| ==> !payments[k].settled))
    ensures UpdateStatus(s, o, status, payments).Done? ==>
              var t := UpdateStatus(s, o, status, payments).state;
              if s.orders[o].status == status then t == s
              else
                && t.requests == s.requests
                && t.orders == s.orders[o := s.orders[o].(
                     status := status, inventory := GoodsAfter(s.orders[o].inventory, status),
                     usage := if status == Cancelled then None else s.orders[o].usage)]
  {
    hide OrderInv, ReturnInv, Transition, Cancelling, Allowed, STEPS;
    StepsAre(s.orders[o].status, status);
    StepFrom(s.orders[o].status, status);
    if s.orders[o].status == Pending {
      CommitKeeps(s, o);
      CommitLeavesReturns(s, o);
    }
    if s.orders[o].status == Pending || s.orders[o].status == Confirmed || s.orders[o].status == Processing {
      CancelKeeps(s, o);
      CancelLeavesReturns(s, o);
    }
  }

  lemma StepFrom(from: Status, to: Status)
    ensures Allowed(from, to) && to == Confirmed ==> from == Pending
    ensures Allowed(from, to) && to == Cancelled ==> from == Pending || from == Confirmed || from == Processing
  {
  }

  lemma CommitLeavesReturns(s: State, o: nat)
    requires o < |s.orders|
    ensures Transition(s, o, Committed).Done? ==> Transition(s, o, Committed).state.requests == s.requests
  {
    hide RowsAllow, Shift;
  }

  // ----- asking for a return

  /** No two picks are about one line. */
  ghost predicate DistinctPicks(picks: seq<Pick>) {
    forall i, j :: 0 <= i < j < |picks| ==> picks[i].line != picks[j].line
  }

  ghost predicate IsPicked(picks: seq<Pick>, idx: nat) {
    exists k :: 0 <= k < |picks| && picks[k].line == idx
  }

  lemma {:induction false} PickedIs(picks: seq<Pick>, idx: nat)
    requires DistinctPicks(picks)
    ensures forall k :: 0 <= k < |picks| && picks[k].line == idx ==> Picked(picks, idx) == picks[k].quantity
    ensures !IsPicked(picks, idx) ==> Picked(picks, idx) == 0
  {
    if picks != [] && picks[|picks| - 1].line != idx {
      var front := picks[..|picks| - 1];
      assert forall k :: 0 <= k < |front| ==> front[k] == picks[k];
      PickedIs(front, idx);
    }
  }

  /** All returns of the order are rejected or completed. */
  ghost predicate NoneOpen(requests: seq<Return>, o: nat) {
    forall r :: 0 <= r < |requests| && requests[r].order == o ==>
      requests[r].status == AskRejected || requests[r].status == AskCompleted
  }

  /** While none is open, what counts as returned is what was accepted back. */
  lemma LeftIs(s: State, o: nat, idx: nat)
    requires ReturnInv(s) && NoneOpen(s.requests, o)
    ensures Prior(s.requests, o, idx) == Taken(s.requests, o, idx)
  {
    hide OneActive, LimitsHold;
    forall r | 0 <= r < |s.requests|
      ensures CountedFor(o, idx)(s.requests[r]) == TakenFor(o, idx)(s.requests[r])
    {
      var x := s.requests[r];
      assert ReturnFits(s.orders, x);
      if x.order == o && x.status == AskCompleted {
        assert forall k :: 0 <= k < |x.lines| ==> RowFits(s.orders[x.order], x, x.lines[k]);
        TotalSame(AcceptedOf(idx), TakenOf(idx), x.lines);
      }
    }
    TotalSame(CountedFor(o, idx), TakenFor(o, idx), s.requests);
  }

  /** Every pick is for something, and for no more than is left of a line of the order. */
  ghost predicate PicksFit(s: State, o: nat, picks: seq<Pick>)
    requires o < |s.orders|
  {
    forall k :: 0 <= k < |picks| ==>
      var p, lines := picks[k], s.orders[o].lines;
      p.line < |lines| && 0 < p.quantity && p.quantity + Taken(s.requests, o, p.line) <= lines[p.line].quantity
  }

  /** Line `idx` has gone back as a whole before, or does so now. */
  ghost predicate GoesBackWhole(s: State, o: nat, picks: seq<Pick>, idx: nat)
    requires o < |s.orders| && idx < |s.orders[o].lines|
  {
    var left := s.orders[o].lines[idx].quantity - Taken(s.requests, o, idx);
    if IsPicked(picks, idx) then exists k :: 0 <= k < |picks| && picks[k].line == idx && picks[k].quantity == left
    else left == 0
  }

  /** Every line of a campaign with a gift among the lines of the order goes back as a whole. */
  ghost predicate CombosWhole(s: State, o: nat, picks: seq<Pick>)
    requires o < |s.orders|
  {
    var lines := s.orders[o].lines;
    forall i, j ::
      0 <= i < |lines| && 0 <= j < |lines| && lines[j].gift && lines[j].campaign == lines[i].campaign
      && lines[i].campaign.Some? && lines[i].campaign.value != "" ==>
      GoesBackWhole(s, o, picks, i)
  }

  lemma CombosAre(s: State, o: nat, picks: seq<Pick>)
    requires ReturnInv(s) && NoneOpen(s.requests, o) && o < |s.orders| && DistinctPicks(picks)
    requires forall k :: 0 <= k < |picks| ==> picks[k].quantity > 0
    ensures GiftRule(s, o, picks) <==> CombosWhole(s, o, picks)
  {
    hide ReturnInv, NoneOpen, Prior, Taken, Picked, DistinctPicks;
    var lines := s.orders[o].lines;
    forall i | 0 <= i < |lines|
      ensures WhollyPicked(s, o, picks, i) <==> GoesBackWhole(s, o, picks, i)
    {
      LeftIs(s, o, i);
      PickedIs(picks, i);
      WholeIs(s, o, picks, i);
    }
    hide WhollyPicked, GoesBackWhole;
  }

  lemma WholeIs(s: State, o: nat, picks: seq<Pick>, idx: nat)
    requires o < |s.orders| && idx < |s.orders[o].lines|
    requires Prior(s.requests, o, idx) == Taken(s.requests, o, idx)
    requires forall k :: 0 <= k < |picks| && picks[k].line == idx ==> Picked(picks, idx) == picks[k].quantity
    requires !IsPicked(picks, idx) ==> Picked(picks, idx) == 0
    ensures WhollyPicked(s, o, picks, idx) <==> GoesBackWhole(s, o, picks, idx)
  {
    hide Prior, Taken, Picked;
    var left := s.orders[o].lines[idx].quantity - Taken(s.requests, o, idx);
    if IsPicked(picks, idx) {
      var k :| 0 <= k < |picks| && picks[k].line == idx;
      assert picks[k].quantity == Picked(picks, idx);
    }
  }

  lemma PicksAre(s: State, o: nat, picks: seq<Pick>)
    requires ReturnInv(s) && NoneOpen(s.requests, o) && o < |s.orders|
    ensures ValidPicks(picks, |s.orders[o].lines|) && Available(s, o, picks) <==>
            1 <= |picks| <= 100 && DistinctPicks(picks) && PicksFit(s, o, picks)
  {
    hide OneActive, ReturnsFit, NoneOpen, Prior, Taken, Picked;
    var lines := s.orders[o].lines;
    if DistinctPicks(picks) {
      forall idx: nat | idx < |lines|
        ensures Prior(s.requests, o, idx) == Taken(s.requests, o, idx)
        ensures forall k :: 0 <= k < |picks| && picks[k].line == idx ==> Picked(picks, idx) == picks[k].quantity
        ensures !IsPicked(picks, idx) ==> Picked(picks, idx) == 0
        ensures Prior(s.requests, o, idx) <= lines[idx].quantity
      {
        LeftIs(s, o, idx);
        PickedIs(picks, idx);
        assert QuantityFits(s, o, idx);
      }
    }
  }

  /**
  A customer's return is accepted if and only if it comes with a picture and in time, for an own delivered order
  with no open return, picks between one and a hundred different lines for no more than is left of each, and takes
  the gift combos of the order back as a whole.
   */
  lemma AskAccepted(s: State, o: nat, user: Id, picks: seq<Pick>, inTime: bool, images: nat)
    requires ReturnInv(s)
    ensures AskReturn(s, o, user, picks, inTime, images).Done? <==>
            && images > 0 && inTime
            && o < |s.orders| && s.orders[o].user == user && s.orders[o].status == Delivered
            && NoneOpen(s.requests, o)
            && 1 <= |picks| <= 100 && DistinctPicks(picks)
            && PicksFit(s, o, picks)
            && CombosWhole(s, o, picks)
  {
    hide ReturnInv, ValidPicks, Available, GiftRule, PicksFit, CombosWhole, DistinctPicks, PickLines, Prior, Taken;
    if o < |s.orders| {
      assert NoneOpen(s.requests, o) <==> !HasActive(s.requests, o);
      if NoneOpen(s.requests, o) {
        PicksAre(s, o, picks);
        if DistinctPicks(picks) && PicksFit(s, o, picks) {
          PositivePicks(s, o, picks);
          CombosAre(s, o, picks);
        }
      }
    }
  }

  lemma PositivePicks(s: State, o: nat, picks: seq<Pick>)
    requires o < |s.orders| && PicksFit(s, o, picks)
    ensures forall k :: 0 <= k < |picks| ==> picks[k].quantity > 0
  {
    hide Taken;
  }

  /** The row of a pick. */
  function RowOf(order: Order, p: Pick): ReturnLine
    requires p.line < |order.lines|
  {
    var l := order.lines[p.line];
    ReturnLine(p.line, l.variant, p.quantity, l.unitPrice * p.quantity, None, None, 0)
  }

  /** The rows are those of the picks of the first `n` lines, each once, in the order of the lines. */
  ghost predicate RowsOfPicks(order: Order, picks: seq<Pick>, rows: seq<ReturnLine>, n: nat) {
    && (forall i, j :: 0 <= i < j < |rows| ==> rows[i].line < rows[j].line)
    && (forall k :: 0 <= k < |picks| && picks[k].line < n && picks[k].line < |order.lines| ==>
          RowOf(order, picks[k]) in rows)
    && forall row :: row in rows ==>
         exists k :: 0 <= k < |picks| && picks[k].line < n && picks[k].line < |order.lines|
                     && row == RowOf(order, picks[k])
  }

  lemma {:induction false} PickLinesAre(order: Order, picks: seq<Pick>, n: nat)
    requires n <= |order.lines| && DistinctPicks(picks) && forall k :: 0 <= k < |picks| ==> picks[k].quantity > 0
    ensures RowsOfPicks(order, picks, PickLines(order, picks, n), n)
  {
    if n > 0 {
      hide Picked, PickLines, DistinctPicks;
      PickLinesAre(order, picks, n - 1);
      PickUnfold(order, picks, n, 0);
      PickedIs(picks, n - 1);
      OneMoreRow(order, picks, PickLines(order, picks, n - 1), n);
    } else {
      assert PickLines(order, picks, 0) == [];
    }
  }

  lemma OneMoreRow(order: Order, picks: seq<Pick>, rows: seq<ReturnLine>, n: nat)
    requires 0 < n <= |order.lines| && RowsOfPicks(order, picks, rows, n - 1)
    requires forall k :: 0 <= k < |picks| ==> picks[k].quantity > 0
    requires forall k :: 0 <= k < |picks| && picks[k].line == n - 1 ==> Picked(picks, n - 1) == picks[k].quantity
    requires !IsPicked(picks, n - 1) ==> Picked(picks, n - 1) == 0
    ensures RowsOfPicks(order, picks, rows + PickRow(order, picks, n), n)
  {
    hide Picked;
    var row := PickRow(order, picks, n);
    if IsPicked(picks, n - 1) {
      var k :| 0 <= k < |picks| && picks[k].line == n - 1;
      assert row == [RowOf(order, picks[k])];
    } else {
      assert row == [] && rows + row == rows;
    }
    forall i | 0 <= i < |rows|
      ensures rows[i].line < n - 1
    {
      assert rows[i] in rows;
    }
  }

  /** An accepted return is a new row, pending, for exactly what was picked, with the refund asked for its price. */
  lemma AskRecords(s: State, o: nat, user: Id, picks: seq<Pick>, inTime: bool, images: nat)
    requires AskReturn(s, o, user, picks, inTime, images).Done?
    ensures var t := AskReturn(s, o, user, picks, inTime, images).state;
            && o < |s.orders|
            && t == s.(requests := t.requests)
            && |t.requests| == |s.requests| + 1 && t.requests[..|s.requests|] == s.requests
            && var y := t.requests[|s.requests|];
            && y.order == o && y.status == AskPending && y.approved == 0 && !y.awaiting && y.transfer == None
            && RowsOfPicks(s.orders[o], picks, y.lines, |s.orders[o].lines|)
            && y.asked == Share(Total((l: ReturnLine) => l.gross, y.lines), s.orders[o].subtotal, s.orders[o].discount)
  {
    hide Available, GiftRule, HasActive, PickLines, RowsOfPicks, Share, Total;
    PickLinesAre(s.orders[o], picks, |s.orders[o].lines|);
    var rows := PickLines(s.orders[o], picks, |s.orders[o].lines|);
    SamePrice(rows);
  }

  lemma SamePrice(rows: seq<ReturnLine>)
    ensures AskedPrice(rows) == Total((l: ReturnLine) => l.gross, rows)
  {
    TotalSame(GrossOf(), (l: ReturnLine) => l.gross, rows);
  }

  // ----- review

  /**
  A review is accepted if and only if the return is pending and a rejection has a note; it sets the status and
  changes nothing else.
   */
  lemma ReviewAnswer(s: State, r: nat, approve: bool, note: bool)
    ensures Review(s, r, approve, note).Done? <==>
            r < |s.requests| && s.requests[r].status == AskPending && (approve || note)
    ensures Review(s, r, approve, note).Done? ==>
              var t := Review(s, r, approve, note).state;
              && (approve ==> t == s.(requests := s.requests[r := s.requests[r].(status := AskApproved)]))
              && (!approve ==> t == s.(requests := s.requests[r := s.requests[r].(status := AskRejected)]))
  {
  }

  /** A rejection gives the picked quantities back to the customer, to be asked for again. */
  lemma RejectionFrees(s: State, r: nat, note: bool, idx: nat)
    requires Review(s, r, false, note).Done?
    ensures var t := Review(s, r, false, note).state;
            var o := s.requests[r].order;
            Prior(t.requests, o, idx) == Prior(s.requests, o, idx) - Total(RequestedOf(idx), s.requests[r].lines)
  {
    hide Total;
    ReturnSums(s.requests, r, s.requests[r].(status := AskRejected), s.requests[r].order);
  }

  // ----- refunds

  /** The answer of the payment service is recorded once, and does not reopen a completed return. */
  lemma DispatchAnswer(s: State, r: nat, started: bool)
    ensures Dispatched(s, r, started).Done? <==> r < |s.requests| && s.requests[r].awaiting
    ensures Dispatched(s, r, started).Done? ==>
              var t, x := Dispatched(s, r, started).state, s.requests[r];
              && t == s.(requests := s.requests[r := x.(awaiting := false, status := t.requests[r].status)])
              && (x.status == AskCompleted ==> t.requests[r].status == AskCompleted)
              && (x.status != AskCompleted ==> t.requests[r].status == if started then RefundPending else RefundFailed)
              && Dispatched(t, r, started) == Refused(NotFound)
  {
  }

  /** The result of a refund is accepted for returns that wait for the provider, and for completed ones. */
  lemma RefundAnswer(s: State, r: nat, completed: bool)
    requires ReturnInv(s)
    ensures RefundResult(s, r, completed).Done? <==>
            r < |s.requests| && s.requests[r].status in {AskCompleted, RefundPending, RefundFailed}
    ensures RefundResult(s, r, completed).Done? ==>
              var t, x := RefundResult(s, r, completed).state, s.requests[r];
              && |t.requests| == |s.requests|
              && t.requests[r].status == (if completed || x.status == AskCompleted then AskCompleted else RefundFailed)
              && forall k :: 0 <= k < |s.requests| && k != r ==> t.requests[k] == s.requests[k]
  {
    hide OneActive, LimitsHold, Paid, Merchandise;
    if r < |s.requests| {
      assert ReturnFits(s.orders, s.requests[r]);
    }
  }

  /**
  A refund by hand is accepted with a picture, for a completed return and for one that waits for it, with the approved
  amount and a reference that no other return has.
   */
  lemma ManualAnswer(s: State, r: nat, amount: int, transfer: string, images: nat)
    requires ReturnInv(s)
    ensures ManualRefund(s, r, amount, transfer, images).Done? <==>
            && images > 0 && r < |s.requests|
            && (|| s.requests[r].status == AskCompleted
                || (&& s.requests[r].status == ManualPending && s.requests[r].approved == amount
                    && forall k :: 0 <= k < |s.requests| && k != r ==> s.requests[k].transfer != Some(transfer)))
    ensures ManualRefund(s, r, amount, transfer, images).Done? ==>
              var t, x := ManualRefund(s, r, amount, transfer, images).state, s.requests[r];
              && t.variants == s.variants && t.vouchers == s.vouchers
              && t.requests == if x.status == AskCompleted then s.requests
                               else s.requests[r := x.(status := AskCompleted, transfer := Some(transfer))]
  {
    hide OneActive, LimitsHold, Paid, Merchandise;
    if r < |s.requests| {
      assert ReturnFits(s.orders, s.requests[r]);
    }
  }

  /** A receipt sent again changes nothing, but a refund that failed is then left to be made by hand. */
  lemma ReceiptAgain(s: State, r: nat, choices: seq<Choice>, provider: bool)
    requires r < |s.requests| && s.requests[r].order < |s.orders| && s.requests[r].status != AskApproved
    ensures s.requests[r].status in {AskCompleted, RefundPending, ManualPending} ==>
              Receive(s, r, choices, provider) == Done(s)
    ensures s.requests[r].status == RefundFailed ==>
              Receive(s, r, choices, provider)
              == Done(s.(requests := s.requests[r := s.requests[r].(status := ManualPending)]))
    ensures s.requests[r].status in {AskPending, AskRejected} ==>
              Receive(s, r, choices, provider) == Refused(BadRequest)
  {
    hide ExactChoices, Refund, ReceivedLines, RestockAll;
  }

  // ----- corrections of the stock

  /** A correction is accepted if and only if it leaves the reserved goods there; it sets what it names only. */
  lemma EditAnswer(s: State, v: Id, stock: Option<int>, active: Option<bool>)
    ensures EditVariant(s, v, stock, active).Done? <==>
            v in s.variants && (stock.None? || s.variants[v].reserved <= stock.value)
    ensures EditVariant(s, v, stock, active).Done? ==>
              var t, x := EditVariant(s, v, stock, active).state, s.variants[v];
              && t == s.(variants := t.variants) && t.variants.Keys == s.variants.Keys
              && (forall w :: w in s.variants && w != v ==> t.variants[w] == s.variants[w])
              && t.variants[v].reserved == x.reserved
              && t.variants[v].stock == (match stock case Some(n) => n case None => x.stock)
              && t.variants[v].active == (match active case Some(b) => b case None => x.active)
  {
  }
}
