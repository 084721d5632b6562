/**
What a receipt of goods does, said from the rows of the return and the choices of the staff alone: which goods go
back on sale, how each row is recorded, and which receipts are accepted.
 */
module ShopReceipt {
  import opened Basics
  import opened Totals
  import opened ShopState
  import opened ShopTransactions
  import opened ShopReturns

  // ----- the choices

  /** With as many keys as choices, no choice overrides another. */
  lemma {:induction false} MapOfChoices(choices: seq<Choice>)
    ensures |ChoiceMap(choices)| <= |choices|
    ensures forall k :: k in ChoiceMap(choices) <==> exists j :: 0 <= j < |choices| && choices[j].line == k
    ensures |ChoiceMap(choices)| == |choices| ==>
              forall k, d :: (k in ChoiceMap(choices) && ChoiceMap(choices)[k] == d) <==> Choice(k, d) in choices
  {
    if choices != [] {
      var n := |choices| - 1;
      var front, last := choices[..n], choices[n];
      MapOfChoices(front);
      LastChoice(front, last);
      assert choices == front + [last];
    }
  }

  lemma LastChoice(front: seq<Choice>, last: Choice)
    requires |ChoiceMap(front)| <= |front|
    requires forall k :: k in ChoiceMap(front) <==> exists j :: 0 <= j < |front| && front[j].line == k
    requires |ChoiceMap(front)| == |front| ==>
               forall k, d :: (k in ChoiceMap(front) && ChoiceMap(front)[k] == d) <==> Choice(k, d) in front
    ensures var m := ChoiceMap(front + [last]);
            && |m| <= |front| + 1
            && (forall k :: k in m <==> exists j :: 0 <= j < |front + [last]| && (front + [last])[j].line == k)
            && (|m| == |front| + 1 ==> forall k, d :: (k in m && m[k] == d) <==> Choice(k, d) in front + [last])
  {
    var all := front + [last];
    var before, m := ChoiceMap(front), ChoiceMap(all);
    assert all[..|front|] == front;
    assert m == before[last.line := last.disposition];
    assert m.Keys == before.Keys + {last.line};
    if last.line in before { assert m.Keys == before.Keys; }
    forall k
      ensures k in m <==> exists j :: 0 <= j < |all| && all[j].line == k
    {
      if k == last.line { assert all[|front|].line == k; }
      if j :| 0 <= j < |front| && front[j].line == k { assert all[j].line == k; }
    }
    if |m| == |front| + 1 {
      assert last.line !in before;
      assert Choice(last.line, last.disposition) == last;
      forall k, d
        ensures (k in m && m[k] == d) <==> Choice(k, d) in all
      {
        if Choice(k, d) in front { assert k in before; }
      }
    }
  }

  /** The numbers below `n`. */
  ghost function Below(n: nat): (r: set<nat>)
    ensures |r| == n
    ensures forall k :: k in r <==> 0 <= k < n
  {
    if n == 0 then {} else Below(n - 1) + {n - 1}
  }

  /** Some choice is about row `k`. */
  ghost predicate Chosen(choices: seq<Choice>, k: nat) {
    exists j :: 0 <= j < |choices| && choices[j].line == k
  }

  /** Every row has its choice, and there are no more choices than rows. */
  ghost predicate OnePerRow(choices: seq<Choice>, n: nat) {
    |choices| == n && forall k: nat :: k < n ==> Chosen(choices, k)
  }

  lemma ExactIs(choices: seq<Choice>, n: nat)
    ensures ExactChoices(choices, n) <==> OnePerRow(choices, n)
  {
    hide ChoiceMap;
    MapOfChoices(choices);
    var m := ChoiceMap(choices);
    if OnePerRow(choices, n) {
      forall k | k in Below(n)
        ensures k in m
      {
        assert Chosen(choices, k);
      }
      FewerIn(Below(n), m.Keys);
      assert |m| == |m.Keys|;
    }
    if ExactChoices(choices, n) {
      forall k: nat | k < n
        ensures Chosen(choices, k)
      {
        assert k in m;
      }
    }
  }

  lemma FewerIn(a: set<nat>, b: set<nat>)
    requires a <= b
    ensures |a| <= |b|
  {
    assert b == a + (b - a);
  }

  // ----- goods that go back on sale

  /** The quantity of a variant in the first `n` rows that the choices put back on sale. */
  ghost function PutBack(rows: seq<ReturnLine>, choices: seq<Choice>, v: Id, n: nat): nat
    requires n <= |rows|
  {
    if n == 0 then 0
    else
      PutBack(rows, choices, v, n - 1)
      + if rows[n - 1].variant == v && Choice(n - 1, Restock) in choices then rows[n - 1].requested else 0
  }

  /** A row as the receipt leaves it, and the goods it puts back. */
  lemma RowReceived(order: Order, rows: seq<ReturnLine>, choices: seq<Choice>, amount: nat, k: nat)
    requires k < |rows| && ExactChoices(choices, |rows|)
    ensures var row := ReceivedLines(order, rows, ChoiceMap(choices), amount)[k];
            && row.line == rows[k].line && row.variant == rows[k].variant && row.requested == rows[k].requested
            && row.gross == rows[k].gross
            && row.disposition.Some? && Choice(k, row.disposition.value) in choices
            && (Choice(k, Rejected) in choices ==> row.accepted == Some(0) && row.refund == 0)
            && (Choice(k, Rejected) !in choices ==> row.accepted == Some(rows[k].requested))
            && forall v :: RestockLine(v)(row)
                        == if rows[k].variant == v && Choice(k, Restock) in choices then rows[k].requested else 0
  {
    hide Allocate, AcceptedShares, ChoiceMap, Rank, ReceivedLines;
    MapOfChoices(choices);
    RowIs(order, rows, ChoiceMap(choices), amount, k);
  }

  lemma {:induction false} PutBackIs(
      order: Order, rows: seq<ReturnLine>, choices: seq<Choice>, amount: nat, v: Id, n: nat)
    requires n <= |rows| && ExactChoices(choices, |rows|)
    ensures Total(RestockLine(v), ReceivedLines(order, rows, ChoiceMap(choices), amount)[..n])
         == PutBack(rows, choices, v, n)
  {
    hide ReceivedLines, RestockLine, ChoiceMap;
    if n > 0 {
      var received := ReceivedLines(order, rows, ChoiceMap(choices), amount);
      PutBackIs(order, rows, choices, amount, v, n - 1);
      RowReceived(order, rows, choices, amount, n - 1);
      assert received[..n] == received[..n - 1] + [received[n - 1]];
      TotalSnoc(RestockLine(v), received[..n - 1], received[n - 1]);
    } else {
      assert ReceivedLines(order, rows, ChoiceMap(choices), amount)[..0] == [];
    }
  }

  lemma {:induction false} NothingPutBack(rows: seq<ReturnLine>, choices: seq<Choice>, v: Id, n: nat)
    requires n <= |rows| && forall c :: c in choices ==> c.disposition != Restock
    ensures PutBack(rows, choices, v, n) == 0
  {
    if n > 0 {
      NothingPutBack(rows, choices, v, n - 1);
    }
  }

  // ----- receipts

  /** The return as a receipt leaves it. */
  lemma ReceiptIs(s: State, r: nat, choices: seq<Choice>, provider: bool)
    requires r < |s.requests| && s.requests[r].order < |s.orders| && s.requests[r].status == AskApproved
    ensures Receive(s, r, choices, provider).Done? <==>
            s.orders[s.requests[r].order].inventory == Committed && ExactChoices(choices, |s.requests[r].lines|)
    ensures Receive(s, r, choices, provider).Done? ==>
              var t := Receive(s, r, choices, provider).state;
              var x, m := s.requests[r], ChoiceMap(choices);
              var amount := Refund(s, r, m);
              var rows := ReceivedLines(s.orders[x.order], x.lines, m, amount);
              && t.orders == s.orders && t.vouchers == s.vouchers
              && t.variants == RestockAll(s.variants, rows)
              && |t.requests| == |s.requests|
              && (forall k :: 0 <= k < |s.requests| && k != r ==> t.requests[k] == s.requests[k])
              && t.requests[r].lines == rows && t.requests[r].approved == amount
              && t.requests[r].order == x.order && t.requests[r].asked == x.asked
              && t.requests[r].status == (if amount == 0 then AskCompleted
                                          else if provider then RefundPending else ManualPending)
              && t.requests[r].awaiting == (amount > 0 && provider)
  {
    hide ReceivedLines, Refund, RestockAll, ChoiceMap;
  }

  /** An approved return is received if and only if its goods are sold and every row is classified exactly once. */
  lemma ReceiptAccepted(s: State, r: nat, choices: seq<Choice>, provider: bool)
    requires r < |s.requests| && s.requests[r].order < |s.orders| && s.requests[r].status == AskApproved
    ensures Receive(s, r, choices, provider).Done? <==>
              && s.orders[s.requests[r].order].inventory == Committed
              && OnePerRow(choices, |s.requests[r].lines|)
  {
    hide ExactChoices, Receive;
    ReceiptIs(s, r, choices, provider);
    ExactIs(choices, |s.requests[r].lines|);
  }

  /**
  A receipt adds to the stock of a variant exactly what the rows of that variant asked for whose choice is to put
  them back on sale, and touches nothing else about it.
   */
  lemma {:induction false} ReceiptRestocks(s: State, r: nat, choices: seq<Choice>, provider: bool)
    requires r < |s.requests| && s.requests[r].order < |s.orders| && s.requests[r].status == AskApproved
    requires Receive(s, r, choices, provider).Done?
    ensures var t := Receive(s, r, choices, provider).state;
            var rows := s.requests[r].lines;
            && t.variants.Keys == s.variants.Keys
            && forall v :: v in s.variants ==>
                 t.variants[v] == s.variants[v].(stock := s.variants[v].stock + PutBack(rows, choices, v, |rows|))
  {
    hide Receive, ReceivedLines, Refund, ChoiceMap, PutBack;
    ReceiptIs(s, r, choices, provider);
    var x, m := s.requests[r], ChoiceMap(choices);
    var order, amount := s.orders[x.order], Refund(s, r, m);
    var received := ReceivedLines(order, x.lines, m, amount);
    assert received[..|x.lines|] == received;
    forall v | v in s.variants
      ensures Total(RestockLine(v), received) == PutBack(x.lines, choices, v, |x.lines|)
    {
      PutBackIs(order, x.lines, choices, amount, v, |x.lines|);
    }
  }

  /** Goods that are damaged or rejected never come back into the stock. */
  lemma DamagedStaysOut(s: State, r: nat, choices: seq<Choice>, provider: bool)
    requires r < |s.requests| && s.requests[r].order < |s.orders| && s.requests[r].status == AskApproved
    requires Receive(s, r, choices, provider).Done?
    requires forall c :: c in choices ==> c.disposition == Damaged || c.disposition == Rejected
    ensures Receive(s, r, choices, provider).state.variants == s.variants
  {
    hide Receive;
    ReceiptRestocks(s, r, choices, provider);
    forall v | v in s.variants
      ensures PutBack(s.requests[r].lines, choices, v, |s.requests[r].lines|) == 0
    {
      NothingPutBack(s.requests[r].lines, choices, v, |s.requests[r].lines|);
    }
  }

  /** How a receipt records the rows: the choice of each, and all or nothing of what was asked for. */
  lemma ReceiptRecords(s: State, r: nat, choices: seq<Choice>, provider: bool, k: nat)
    requires r < |s.requests| && s.requests[r].order < |s.orders| && s.requests[r].status == AskApproved
    requires Receive(s, r, choices, provider).Done? && k < |s.requests[r].lines|
    ensures var t := Receive(s, r, choices, provider).state;
            && |t.requests| == |s.requests| && |t.requests[r].lines| == |s.requests[r].lines|
            && t.orders == s.orders && t.vouchers == s.vouchers
            && (forall i :: 0 <= i < |s.requests| && i != r ==> t.requests[i] == s.requests[i])
            && var row, before := t.requests[r].lines[k], s.requests[r].lines[k];
            && row.line == before.line && row.variant == before.variant && row.requested == before.requested
            && row.disposition.Some? && Choice(k, row.disposition.value) in choices
            && (Choice(k, Rejected) in choices ==> row.accepted == Some(0) && row.refund == 0)
            && (Choice(k, Rejected) !in choices ==> row.accepted == Some(before.requested))
  {
    hide Receive, ReceivedLines, Refund, ChoiceMap, RestockAll;
    ReceiptIs(s, r, choices, provider);
    var x := s.requests[r];
    RowReceived(s.orders[x.order], x.lines, choices, Refund(s, r, ChoiceMap(choices)), k);
  }
}
