/**
Refunds beside the payment: when the payment of an order has been refunded as a whole, which returns of the
order can still pay money out.
 */
module ShopPaybacks {
  import opened Basics
  import opened Totals
  import opened ShopState
  import opened ShopMoney
  import opened ShopTransactions
  import opened ShopInvariants
  import opened ShopReturns
  import opened ShopRuns
  import opened ShopRefunds
  import opened ShopSettled

  // ----- what a return can still bring

  /**
  The return can still pay: its refund is waiting, or its goods are to come and their share is something,
  with something left of what the goods of the order cost.
   */
  predicate CanPay(s: State, x: Return)
    requires x.order < |s.orders|
  {
    var order := s.orders[x.order];
    || IsWaiting(x)
    || ((x.status == AskPending || x.status == AskApproved)
        && Share(AskedPrice(x.lines), order.subtotal, order.discount) > 0
        && Approved(s.requests, x.order) < Merchandise(order))
  }

  ghost predicate OpenFor(s: State, o: nat, r: nat)
    requires o < |s.orders|
  {
    r < |s.requests| && s.requests[r].order == o && CanPay(s, s.requests[r])
  }

  /** Some continuation pays out more for the order through its returns. */
  ghost predicate PaysMore(s: State, o: nat) {
    exists actions :: Paid(Run(s, actions).requests, o) > Paid(s.requests, o)
  }

  /** A return that can pay after the payment was refunded: all but those that the report completes. */
  ghost predicate LeftOpen(s: State, o: nat, r: nat)
    requires o < |s.orders|
  {
    && OpenFor(s, o, r)
    && s.requests[r].status != RefundPending && s.requests[r].status != RefundFailed
  }

  // ----- no more than the open returns

  lemma {:induction false} ShareMonotone(a: nat, b: nat, subtotal: nat, discount: nat)
    requires a <= b
    ensures Share(a, subtotal, discount) <= Share(b, subtotal, discount)
  {
    hide HalfUp;
    if subtotal > 0 {
      var kept := subtotal - Min(discount, subtotal);
      assert a * kept <= b * kept by { NotMore(a, b, kept); }
      HalfUpMonotone(a * kept, b * kept, subtotal);
    }
  }

  lemma AcceptedBelowAsked(x: Return, y: Return)
    requires RequestLater(x, y)
    ensures AcceptedPrice(y.lines) <= AskedPrice(x.lines)
  {
    TotalAtMost(GrossLine(), y.lines, GrossOf(), x.lines);
  }

  /** No return of the order is new. */
  ghost predicate NoNew(s: State, t: State, o: nat) {
    forall r :: |s.requests| <= r < |t.requests| ==> t.requests[r].order != o
  }

  /** Nobody can ask for another return of a refunded order. */
  lemma NoNewReturn(s: State, a: Action, o: nat)
    requires Inv(s) && o < |s.orders| && s.orders[o].status == Refunded && Execute(s, a).Done?
    ensures NoNew(s, Execute(s, a).state, o)
  {
    hide Inv, Transition, ReleaseVoucher, PickLines, GiftRule, Available, HasActive, ValidPicks;
    hide Reserve, VoucherUsable, Discount, Replayed, Insertable, Paid, Merchandise, RestockAll, ReceivedLines, Refund;
    if a.APayment? {
      OrderKeepsRequests(s, a.order);
    } else if a.AStatus? {
      OrderKeepsRequests(s, a.order);
    }
  }

  lemma {:induction false} NoNewInRun(s: State, actions: seq<Action>, o: nat)
    requires Inv(s) && o < |s.orders| && s.orders[o].status == Refunded
    ensures NoNew(s, Run(s, actions), o)
  {
    if actions != [] {
      hide Inv, Apply, NoNew;
      var before, a := actions[..|actions| - 1], actions[|actions| - 1];
      NoNewInRun(s, before, o);
      RunKeeps(s, before);
      StaysRefunded(s, Run(s, before), o);
      ApplyNoNew(Run(s, before), a, o);
      ApplyKeeps(Run(s, before), a);
      NoNewTrans(s, Run(s, before), Run(s, actions), o);
    } else {
      hide Inv;
    }
  }

  lemma ApplyNoNew(s: State, a: Action, o: nat)
    requires Inv(s) && o < |s.orders| && s.orders[o].status == Refunded
    ensures NoNew(s, Apply(s, a), o)
  {
    hide Inv, Execute;
    if Execute(s, a).Done? {
      NoNewReturn(s, a, o);
    }
  }

  lemma NoNewTrans(s: State, t: State, u: State, o: nat)
    requires NoNew(s, t, o) && NoNew(t, u, o) && Later(s, t) && Later(t, u)
    ensures NoNew(s, u, o)
  {
    forall r | |s.requests| <= r < |u.requests|
      ensures u.requests[r].order != o
    {
      if r < |t.requests| {
        assert RequestLater(t.requests[r], u.requests[r]);
      }
    }
  }

  /** Without open returns the rounded shares stay, as long as something is left to refund. */
  lemma SharesStay(s: State, u: State, o: nat)
    requires Later(s, u) && NoNew(s, u, o) && o < |s.orders| && Approved(s.requests, o) < Merchandise(s.orders[o])
    requires forall r :: !OpenFor(s, o, r)
    ensures RoundedShares(u.requests, s.orders[o], o) == RoundedShares(s.requests, s.orders[o], o)
  {
    hide Share, AcceptedPrice, AskedPrice, Approved, Merchandise;
    var order := s.orders[o];
    forall r | 0 <= r < |s.requests|
      ensures ShareFor(order, o)(u.requests[r]) == ShareFor(order, o)(s.requests[r])
    {
      var x, y := s.requests[r], u.requests[r];
      assert RequestLater(x, y);
      if x.order == o && !IsReceived(x.status) && IsReceived(y.status) {
        assert !OpenFor(s, o, r);
        AcceptedBelowAsked(x, y);
        ShareMonotone(AcceptedPrice(y.lines), AskedPrice(x.lines), order.subtotal, order.discount);
      }
    }
    TotalExtends(ShareFor(order, o), s.requests, u.requests);
  }

  /** Without waiting refunds all that was approved is paid. */
  lemma AllPaid(s: State, o: nat)
    requires Inv(s) && o < |s.orders| && forall r :: !OpenFor(s, o, r)
    ensures Paid(s.requests, o) == Approved(s.requests, o)
  {
    hide OrderInv, OneActive, LimitsHold, Share, Approved, Merchandise;
    forall r | 0 <= r < |s.requests|
      ensures PaidFor(o)(s.requests[r]) == ApprovedFor(o)(s.requests[r])
    {
      assert ReturnFits(s.orders, s.requests[r]) && !OpenFor(s, o, r);
    }
    TotalSame(PaidFor(o), ApprovedFor(o), s.requests);
    ApprovedIs(s.requests, o);
  }

  lemma ApprovedIs(requests: seq<Return>, o: nat)
    ensures Approved(requests, o) == Total(ApprovedFor(o), requests)
  {
  }

  lemma NothingMore(s: State, actions: seq<Action>, o: nat)
    requires Inv(s) && AllExact(s) && o < |s.orders| && s.orders[o].status == Refunded
    requires forall r :: !OpenFor(s, o, r)
    ensures Paid(Run(s, actions).requests, o) <= Paid(s.requests, o)
  {
    hide Run, Inv, AllExact, OpenFor, Approved, RoundedShares, Merchandise, Paid;
    var u := Run(s, actions);
    RunKeeps(s, actions);
    RunExact(s, actions);
    NoNewInRun(s, actions, o);
    StaysRefunded(s, u, o);
    assert OrderLater(s.orders[o], u.orders[o]);
    SameMerchandise(s.orders[o], u.orders[o]);
    SameSaleShares(u.requests, s.orders[o], u.orders[o], o);
    ExactAt(s, o);
    ExactAt(u, o);
    PaidWithin(u, o);
    AllPaid(s, o);
    if Approved(s.requests, o) < Merchandise(s.orders[o]) {
      SharesStay(s, u, o);
    }
  }

  // ----- an open return does pay

  /** Every row goes back into the stock. */
  function AllBack(n: nat): (choices: seq<Choice>)
    ensures |choices| == n
  {
    seq(n, k requires 0 <= k < n => Choice(k, Restock))
  }

  lemma {:induction false} AllBackMap(n: nat)
    ensures var m := ChoiceMap(AllBack(n));
            |m| == n && forall k: nat :: k in m <==> k < n
    ensures forall k :: k in ChoiceMap(AllBack(n)) ==> ChoiceMap(AllBack(n))[k] == Restock
  {
    if n > 0 {
      AllBackMap(n - 1);
      assert AllBack(n)[..n - 1] == AllBack(n - 1);
      var front := ChoiceMap(AllBack(n - 1));
      var m := ChoiceMap(AllBack(n));
      assert m == front[n - 1 := Restock];
      assert m.Keys == front.Keys + {n - 1} && n - 1 !in front.Keys;
      assert |m.Keys| == |m| && |front.Keys| == |front|;
    }
  }

  lemma {:induction false} AllAccepted(lines: seq<ReturnLine>, m: map<nat, Disposition>, n: nat)
    requires n <= |lines| && (forall k :: 0 <= k < |lines| ==> k in m && m[k] == Restock)
    ensures AcceptedGross(lines, m, n) == AskedPrice(lines[..n])
  {
    if n > 0 {
      AllAccepted(lines, m, n - 1);
      assert lines[..n][..n - 1] == lines[..n - 1];
    }
  }

  /** The refund of a return whose goods all come back. */
  lemma FullRefund(s: State, r: nat)
    requires Inv(s) && r < |s.requests| && s.requests[r].status == AskApproved
    ensures var x := s.requests[r];
            var m := ChoiceMap(AllBack(|x.lines|));
            && x.order < |s.orders| && (forall k :: 0 <= k < |x.lines| ==> k in m)
            && var order := s.orders[x.order];
            Refund(s, r, m) == Min(Share(AskedPrice(x.lines), order.subtotal, order.discount),
                                   Merchandise(order) - Approved(s.requests, x.order))
  {
    hide Inv, Share, AcceptedGross, Refund, Approved, Merchandise, AskedPrice, ChoiceMap;
    var x := s.requests[r];
    AwaitingIsReceived(s, r);
    AllBackMap(|x.lines|);
    RefundIs(s, r, ChoiceMap(AllBack(|x.lines|)));
    AllAccepted(x.lines, ChoiceMap(AllBack(|x.lines|)), |x.lines|);
    assert x.lines[..|x.lines|] == x.lines;
  }

  /** The goods come in and the refund is to be made by hand. */
  lemma {:induction false} ReceivedByHand(s: State, r: nat)
    requires Inv(s) && r < |s.requests| && s.requests[r].status == AskApproved
    requires CanPayApproved(s, r)
    ensures var t := Apply(s, AReceive(r, AllBack(|s.requests[r].lines|), false));
            && |t.requests| == |s.requests| && t.orders == s.orders && t.requests[r].order == s.requests[r].order
            && t.requests[r].status == ManualPending && t.requests[r].approved > 0
            && Paid(t.requests, s.requests[r].order) == Paid(s.requests, s.requests[r].order)
  {
    hide Inv, Share, Refund, Approved, Merchandise, AskedPrice, ChoiceMap, ReceivedLines, RestockAll, Paid;
    var x := s.requests[r];
    var n := |x.lines|;
    AwaitingIsReceived(s, r);
    AllBackMap(n);
    FullRefund(s, r);
    assert ExactChoices(AllBack(n), n);
    assert Receive(s, r, AllBack(n), false).Done?;
    PaidUnchanged(s.requests, r, Apply(s, AReceive(r, AllBack(n), false)).requests[r], x.order);
  }

  lemma PaidUnchanged(requests: seq<Return>, r: nat, y: Return, o: nat)
    requires r < |requests| && requests[r].status != AskCompleted && y.status != AskCompleted
    ensures Paid(requests[r := y], o) == Paid(requests, o)
  {
    hide Total;
    TotalUpdate(PaidFor(o), requests, r, y);
  }

  predicate CanPayApproved(s: State, r: nat)
    requires r < |s.requests|
  {
    var x := s.requests[r];
    && x.order < |s.orders|
    && Share(AskedPrice(x.lines), s.orders[x.order].subtotal, s.orders[x.order].discount) > 0
    && Approved(s.requests, x.order) < Merchandise(s.orders[x.order])
  }

  function LongestTransfer(requests: seq<Return>): (n: nat)
    ensures forall k :: 0 <= k < |requests| && requests[k].transfer.Some? ==> |requests[k].transfer.value| <= n
  {
    if requests == [] then 0
    else
      var n, last := LongestTransfer(requests[..|requests| - 1]), requests[|requests| - 1].transfer;
      assert forall k :: 0 <= k < |requests| - 1 ==> requests[..|requests| - 1][k] == requests[k];
      if last.Some? && |last.value| > n then |last.value| else n
  }

  /** A reference that no transfer has had before. */
  function FreshTransfer(requests: seq<Return>): string {
    seq(LongestTransfer(requests) + 1, _ => '1')
  }

  /** The last step: the waiting refund is made. */
  function Finishing(s: State, r: nat): Action
    requires r < |s.requests|
  {
    if s.requests[r].status == ManualPending then AManual(r, s.requests[r].approved, FreshTransfer(s.requests), 1)
    else ARefund(r, true)
  }

  lemma FreshIsUnused(requests: seq<Return>, r: nat)
    ensures !TransferUsed(requests, r, FreshTransfer(requests))
  {
  }

  lemma FinishingPays(s: State, r: nat)
    requires Inv(s) && r < |s.requests| && IsWaiting(s.requests[r])
    ensures Paid(Apply(s, Finishing(s, r)).requests, s.requests[r].order)
         == Paid(s.requests, s.requests[r].order) + s.requests[r].approved
    ensures s.requests[r].status == ManualPending ==>
              ByHand(Apply(s, Finishing(s, r)).requests, s.requests[r].order)
              == ByHand(s.requests, s.requests[r].order) + s.requests[r].approved
  {
    hide Inv, Paid, ByHand, Merchandise, TransferUsed, FreshTransfer;
    AwaitingIsReceived(s, r);
    FreshIsUnused(s.requests, r);
    var transfer := if s.requests[r].status == ManualPending then Some(FreshTransfer(s.requests)) else None;
    PaidAfter(s.requests, r, s.requests[r].(status := AskCompleted, transfer := transfer), s.requests[r].order);
    ByHandAfter(s.requests, r, s.requests[r].(status := AskCompleted, transfer := transfer), s.requests[r].order);
  }

  lemma ByHandAfter(requests: seq<Return>, r: nat, y: Return, o: nat)
    requires r < |requests| && requests[r].status != AskCompleted
    ensures ByHand(requests[r := y], o) == ByHand(requests, o) + ByHandFor(o)(y)
  {
    hide Total;
    TotalUpdate(ByHandFor(o), requests, r, y);
  }

  lemma ApprovedOnReview(s: State, r: nat)
    requires Inv(s) && r < |s.requests| && s.requests[r].status == AskPending
    requires CanPayApproved(s, r)
    ensures var t := Apply(s, AReview(r, true, false));
            && t == WithReturn(s, r, s.requests[r].(status := AskApproved))
            && CanPayApproved(t, r)
            && Paid(t.requests, s.requests[r].order) == Paid(s.requests, s.requests[r].order)
  {
    hide Inv, Paid, Merchandise, Approved, Share, AskedPrice;
    var y := s.requests[r].(status := AskApproved);
    PaidUnchanged(s.requests, r, y, s.requests[r].order);
    TotalUpdate(ApprovedFor(s.requests[r].order), s.requests, r, y);
    ApprovedIs(s.requests, s.requests[r].order);
    ApprovedIs(s.requests[r := y], s.requests[r].order);
  }

  /** The actions by which an open return pays. */
  function PayingRun(s: State, r: nat): seq<Action>
    requires r < |s.requests|
  {
    var x := s.requests[r];
    var receive := AReceive(r, AllBack(|x.lines|), false);
    if IsWaiting(x) then [Finishing(s, r)]
    else
      var prefix := if x.status == AskPending then [AReview(r, true, false), receive] else [receive];
      prefix + (if r < |Run(s, prefix).requests| then [Finishing(Run(s, prefix), r)] else [])
  }

  lemma RunSnoc(s: State, actions: seq<Action>, a: Action)
    ensures Run(s, actions + [a]) == Apply(Run(s, actions), a)
  {
    hide Apply;
    assert (actions + [a])[..|actions|] == actions;
  }

  lemma RunOne(s: State, a: Action)
    ensures Run(s, [a]) == Apply(s, a)
  {
    hide Apply;
    assert [a][..0] == [];
  }

  lemma {:induction false} OpenPays(s: State, o: nat, r: nat)
    requires Inv(s) && WaitingPositive(s.requests) && o < |s.orders| && OpenFor(s, o, r)
    ensures Paid(Run(s, PayingRun(s, r)).requests, o) > Paid(s.requests, o)
    ensures LeftOpen(s, o, r) ==> ByHand(Run(s, PayingRun(s, r)).requests, o) > 0
  {
    hide Inv, Apply, Run, Paid, ByHand, Merchandise, Approved, Share, AskedPrice, Finishing;
    var x := s.requests[r];
    if IsWaiting(x) {
      FinishingPays(s, r);
      NothingBelow(s, o);
      RunOne(s, Finishing(s, r));
    } else {
      var receive := AReceive(r, AllBack(|x.lines|), false);
      var prefix := if x.status == AskPending then [AReview(r, true, false), receive] else [receive];
      var t := s;
      if x.status == AskPending {
        ApprovedOnReview(s, r);
        t := Apply(s, AReview(r, true, false));
        RunOne(s, AReview(r, true, false));
        RunSnoc(s, [AReview(r, true, false)], receive);
        assert [AReview(r, true, false)] + [receive] == prefix;
        ApplyKeeps(s, AReview(r, true, false));
      } else {
        RunOne(s, receive);
      }
      ReceivedByHand(t, r);
      var u := Run(s, prefix);
      RunKeeps(s, prefix);
      FinishingPays(u, r);
      NothingBelow(u, o);
      RunSnoc(s, prefix, Finishing(u, r));
    }
  }

  // ----- the payment is refunded

  /** A reachable state: every state after a run from the opening is one. */
  ghost predicate Sound(s: State) { Inv(s) && AllExact(s) && WaitingPositive(s.requests) }

  lemma RunsAreSound(s: State, actions: seq<Action>)
    requires Opening(s)
    ensures Sound(Run(s, actions))
  {
    hide Inv, AllExact, WaitingPositive, Run;
    OpeningInv(s);
    OpeningExact(s);
    OpeningWaits(s);
    RunKeeps(s, actions);
    RunExact(s, actions);
    RunWaits(s, actions);
  }

  /** For a refunded order, more is paid out in some continuation if and only if one of its returns is open. */
  lemma PaysIffOpen(s: State, o: nat)
    requires Sound(s) && o < |s.orders| && s.orders[o].status == Refunded
    ensures PaysMore(s, o) <==> exists r :: OpenFor(s, o, r)
  {
    hide Inv, AllExact, WaitingPositive, Run, Paid, OpenFor;
    if r :| OpenFor(s, o, r) {
      OpenPays(s, o, r);
    } else if PaysMore(s, o) {
      var actions :| Paid(Run(s, actions).requests, o) > Paid(s.requests, o);
      NothingMore(s, actions, o);
    }
  }

  /** What the report of the refunded payment leaves of a return. */
  lemma PaybackLeaves(s: State, o: nat, want: Option<Status>, settled: bool)
    requires UpdatePayment(s, o, PaidBack, want, settled).Done?
    ensures var t := UpdatePayment(s, o, PaidBack, want, settled).state;
            && o < |s.orders| && |t.orders| == |s.orders| && t.orders[o] == s.orders[o].(status := Refunded)
            && t.requests == CompleteWaiting(s.requests, o)
            && forall r :: 0 <= r < |s.requests| && s.requests[r].order == o ==>
                 t.requests[r] == if s.requests[r].status == RefundPending || s.requests[r].status == RefundFailed
                                  then s.requests[r].(status := AskCompleted) else s.requests[r]
  {
  }

  /** What is open after the report is what it left open. */
  lemma PaybackOpen(s: State, o: nat, want: Option<Status>, settled: bool)
    requires Sound(s) && UpdatePayment(s, o, PaidBack, want, settled).Done?
    ensures var t := UpdatePayment(s, o, PaidBack, want, settled).state;
            && o < |s.orders| && o < |t.orders|
            && forall r :: (OpenFor(t, o, r) <==> LeftOpen(s, o, r)) && (LeftOpen(t, o, r) <==> LeftOpen(s, o, r))
  {
    hide Inv, AllExact, Run, Paid, Approved, Share, AskedPrice, Merchandise;
    PaybackLeaves(s, o, want, settled);
    var t := UpdatePayment(s, o, PaidBack, want, settled).state;
    hide UpdatePayment;
    CompleteWaitingSums(s.requests, o, ApprovedFor(o));
    ApprovedIs(s.requests, o);
    ApprovedIs(t.requests, o);
    SameMerchandise(s.orders[o], t.orders[o]);
    WaitingOrder(s.requests, o);
  }

  /**
  After the payment of an order was refunded as a whole, its returns pay out more, in some continuation, if
  and only if one of them was still to be reviewed or received with something to refund, or was waiting for a
  refund by hand.
   */
  lemma PaysAfterPayback(s: State, o: nat, want: Option<Status>, settled: bool)
    requires Sound(s) && UpdatePayment(s, o, PaidBack, want, settled).Done?
    ensures var t := UpdatePayment(s, o, PaidBack, want, settled).state;
            o < |s.orders| && (PaysMore(t, o) <==> exists r :: LeftOpen(s, o, r))
  {
    hide Inv, AllExact, OpenFor, LeftOpen, PaysMore;
    PaybackLeaves(s, o, want, settled);
    PaybackSound(s, o, want, settled);
    PaybackOpen(s, o, want, settled);
    PaysIffOpen(UpdatePayment(s, o, PaidBack, want, settled).state, o);
  }

  /** Money went out for the order by hand, beside its payment, or can still do so in some continuation. */
  ghost predicate GoesOutByHand(s: State, o: nat) {
    exists actions :: ByHand(Run(s, actions).requests, o) > 0
  }

  /** A return that was refunded by hand. */
  ghost predicate RefundedByHand(s: State, o: nat, r: nat) {
    && r < |s.requests| && s.requests[r].order == o && s.requests[r].status == AskCompleted
    && s.requests[r].transfer.Some? && s.requests[r].approved > 0
  }

  lemma NothingBelow(s: State, o: nat)
    requires Inv(s)
    ensures ByHand(s.requests, o) >= 0
    ensures ByHand(s.requests, o) > 0 <==> exists r :: RefundedByHand(s, o, r)
  {
    hide OrderInv, OneActive, LimitsHold;
    forall r | 0 <= r < |s.requests|
      ensures ByHandFor(o)(s.requests[r]) >= 0
      ensures ByHandFor(o)(s.requests[r]) > 0 <==> RefundedByHand(s, o, r)
    {
      assert ReturnFits(s.orders, s.requests[r]);
    }
    TotalBounds(ByHandFor(o), s.requests);
    if forall r :: !RefundedByHand(s, o, r) {
      TotalZero(ByHandFor(o), s.requests);
    }
  }

  /** A refund by hand that is new in `u` is paid in `u` and was not paid before. */
  lemma NewByHandPays(s: State, u: State, o: nat, r: nat)
    requires Inv(s) && Inv(u) && Later(s, u) && RefundedByHand(u, o, r)
    requires r < |s.requests| && s.requests[r].status != AskCompleted
    ensures Paid(u.requests, o) > Paid(s.requests, o)
  {
    hide OrderInv, OneActive, LimitsHold;
    forall k | 0 <= k < |s.requests|
      ensures PaidFor(o)(s.requests[k]) <= PaidFor(o)(u.requests[k])
    {
      assert RequestLater(s.requests[k], u.requests[k]) && ReturnFits(u.orders, u.requests[k]);
    }
    forall k | 0 <= k < |u.requests|
      ensures PaidFor(o)(u.requests[k]) >= 0
    {
      assert ReturnFits(u.orders, u.requests[k]);
    }
    TotalRises(PaidFor(o), s.requests, u.requests, r);
  }

  /** Without a refund by hand before, and without an open return after, nothing goes out by hand. */
  lemma NothingByHand(s: State, actions: seq<Action>, o: nat)
    requires Sound(s) && o < |s.orders| && s.orders[o].status == Refunded
    requires forall r :: !OpenFor(s, o, r) && !RefundedByHand(s, o, r)
    ensures ByHand(Run(s, actions).requests, o) == 0
  {
    hide Inv, AllExact, WaitingPositive, Run, Paid, ByHand, OpenFor;
    var u := Run(s, actions);
    RunKeeps(s, actions);
    NothingMore(s, actions, o);
    NoNewInRun(s, actions, o);
    NothingBelow(u, o);
    forall r: nat
      ensures !RefundedByHand(u, o, r)
    {
      if RefundedByHand(u, o, r) && r < |s.requests| {
        assert RequestLater(s.requests[r], u.requests[r]) && !RefundedByHand(s, o, r);
        if s.requests[r].status != AskCompleted {
          NewByHandPays(s, u, o, r);
        }
      }
    }
  }

  /**
  The payment of an order was refunded as a whole. Money has gone out for the order a second time, or goes
  out in some continuation, if and only if one of its returns was refunded by hand before, was waiting for a
  refund by hand, or was still to be reviewed or received with something to refund.
   */
  lemma PaidTwiceIff(s: State, o: nat, want: Option<Status>, settled: bool)
    requires Sound(s) && UpdatePayment(s, o, PaidBack, want, settled).Done?
    ensures var t := UpdatePayment(s, o, PaidBack, want, settled).state;
            o < |s.orders| && (GoesOutByHand(t, o) <==> exists r :: RefundedByHand(s, o, r) || LeftOpen(s, o, r))
  {
    hide Inv, AllExact, WaitingPositive, Run, Paid, ByHand, OpenFor;
    PaybackLeaves(s, o, want, settled);
    PaybackSound(s, o, want, settled);
    var t := UpdatePayment(s, o, PaidBack, want, settled).state;
    PaybackByHand(s, o, want, settled);
    PaybackOpen(s, o, want, settled);
    hide UpdatePayment;
    RunNothing(t);
    NothingBelow(t, o);
    if r :| RefundedByHand(s, o, r) {
      assert RefundedByHand(t, o, r);
      assert ByHand(Run(t, []).requests, o) > 0;
    } else if r :| LeftOpen(s, o, r) {
      assert LeftOpen(t, o, r);
      OpenPays(t, o, r);
    } else if GoesOutByHand(t, o) {
      var actions :| ByHand(Run(t, actions).requests, o) > 0;
      assert forall r :: !RefundedByHand(t, o, r);
      NothingByHand(t, actions, o);
    }
  }

  lemma RunNothing(s: State)
    ensures Run(s, []) == s
  {
  }

  /** The report completes no return by hand. */
  lemma PaybackByHand(s: State, o: nat, want: Option<Status>, settled: bool)
    requires Inv(s) && UpdatePayment(s, o, PaidBack, want, settled).Done?
    ensures forall r :: RefundedByHand(UpdatePayment(s, o, PaidBack, want, settled).state, o, r)
                   <==> RefundedByHand(s, o, r)
  {
    hide Inv;
    PaybackLeaves(s, o, want, settled);
    var t := UpdatePayment(s, o, PaidBack, want, settled).state;
    hide UpdatePayment;
    WaitingOrder(s.requests, o);
    forall r: nat
      ensures RefundedByHand(t, o, r) <==> RefundedByHand(s, o, r)
    {
      if r < |s.requests| {
        TransferDone(s, r);
      }
    }
  }

  lemma WaitingOrder(requests: seq<Return>, o: nat)
    ensures forall r :: 0 <= r < |requests| ==> CompleteWaiting(requests, o)[r].order == requests[r].order
  {
  }

  lemma PaybackSound(s: State, o: nat, want: Option<Status>, settled: bool)
    requires Sound(s) && UpdatePayment(s, o, PaidBack, want, settled).Done?
    ensures Sound(UpdatePayment(s, o, PaidBack, want, settled).state)
  {
    hide Inv, AllExact, WaitingPositive, UpdatePayment;
    var a := APayment(o, PaidBack, want, settled);
    ApplyKeeps(s, a);
    ApplyExact(s, a);
    ApplyWaits(s, a);
  }
}
