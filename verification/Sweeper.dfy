/** The expiry sweep: one pass over every live checkout. */
module Sweeper {
  import opened Wrappers
  import opened Sums
  import opened Ledger
  import opened Settlement
  import opened Money
  import opened MoneySafety
  import opened MoneyRuns
  import opened MoneyCrash
  import G = Gate

  // ----- one order -----

  /** Past its deadline: a day while pending; once confirmed and prepaid, a quarter of an hour
      or the link's own expiry, whichever is first. */
  predicate Overdue(c: Checkout, now: int) {
    match c.status
    case Pending => now >= c.createdAt + 86400
    case Confirmed =>
      c.confirmedAt.Some? && c.paidBy != G.CashOnDelivery
      && (now >= c.confirmedAt.value + 900 || (c.linkExpiresAt.Some? && now >= c.linkExpiresAt.value))
    case _ => false
  }

  /** A deadline that cannot be computed: a confirmed row that does not say since when, now or
      once an overdue pending row has been corrected from the shop. */
  predicate Unreadable(o: Order, now: int) {
    && o.row.confirmedAt == None
    && (o.row.status == Confirmed || (o.row.status == Pending && Overdue(o.row, now) && o.shop.status == Confirmed))
  }

  /** Exactly when an order's own turn raises, and the row it leaves. */
  lemma {:induction false} TurnRaisesExactly(o: Order, now: int, budget: nat)
    ensures SweepOne(o, now, budget).1 <==> Unreadable(o, now)
    ensures Unreadable(o, now) ==> SweepOne(o, now, budget).0 == o.(row := o.row.(status := Confirmed))
  {
  }

  lemma {:induction false} InStepTurn(o: Order, now: int, stock: int)
    requires InStep(o, stock)
    ensures Perform(o, Resync).0 == o
    ensures !Overdue(o.row, now) ==> SweepOne(o, now, ENOUGH) == (o, false)
    ensures Overdue(o.row, now) ==> o.row.status in {Pending, Confirmed} && (o.row.status == Confirmed ==> OnRail(o))
    ensures var p := Exec(Process(o, ENOUGH, false), Plan(o, Expire(o.row.status == Confirmed)));
      Overdue(o.row, now) && !p.stopped ==> SweepOne(o, now, ENOUGH) == (p.order, false)
  {
  }

  /** What one turn does to an order that is in step with its shop. */
  lemma {:induction false} TurnInStep(o: Order, now: int, stock: int)
    requires InStep(o, stock)
    ensures var (q, raised) := SweepOne(o, now, ENOUGH);
      && !raised && InStep(q, stock)
      && (!Overdue(o.row, now) ==> q == o)
      && (Overdue(o.row, now) ==>
            q.row.status == q.shop.status == Expired && HoldsClosed(q) && q.shop.shelf == stock
            && !q.row.tokenOnRow && !q.row.linkOnRow && (o.row.linkOnRow ==> q.linkCancelled))
  {
    SweepKeepsStep(o, now, stock);
    InStepTurn(o, now, stock);
    if Overdue(o.row, now) {
      InStepIsClosing(o, stock);
      ExpiryCloses(o, ENOUGH, stock);
      ExpiredRow(o, stock);
    }
  }

  lemma {:induction false} ExpiredRow(o: Order, stock: int)
    requires InStep(o, stock) && o.row.status in {Pending, Confirmed} && (o.row.status == Confirmed ==> OnRail(o))
    ensures var q := Exec(Process(o, ENOUGH, false), Plan(o, Expire(o.row.status == Confirmed))).order;
      !q.row.tokenOnRow && !q.row.linkOnRow && (o.row.linkOnRow ==> q.linkCancelled)
  {
    if o.row.status == Confirmed {
      ClosingSequence(o, Expired, true);
    } else {
      BareClosing(o, Expired, true, stock);
    }
  }

  /** A copy the shop has moved past is corrected and nothing else is done to it. */
  lemma {:induction false} StaleCopyIsCorrected(o: Order, now: int, budget: nat)
    requires Overdue(o.row, now) && Terminal(o.shop.status)
    ensures SweepOne(o, now, budget) == (o.(row := o.row.(status := o.shop.status)), false)
  {
  }

  // ----- one pass -----

  /** Each order in turn from the `i`th on, until one raises; those after it are not
      reached. */
  function PassFrom(orders: seq<Order>, i: nat, now: int): (seq<Order>, bool)
    requires i <= |orders|
    decreases |orders| - i
  {
    if i == |orders| then (orders, false)
    else
      var (q, raised) := SweepOne(orders[i], now, ENOUGH);
      if raised then (orders[i := q], true) else PassFrom(orders[i := q], i + 1, now)
  }

  function Pass(orders: seq<Order>, now: int): (seq<Order>, bool) { PassFrom(orders, 0, now) }

  class Store {
    /** The live checkouts, oldest first. */
    var orders: seq<Order>

    constructor (os: seq<Order>)
      ensures orders == os
    {
      orders := os;
    }

    /** One order's turn: check, correct from the shop, check again, then expire. */
    method Turn(o: Order, now: int) returns (q: Order, raised: bool)
      ensures (q, raised) == SweepOne(o, now, ENOUGH)
    {
      if Terminal(o.row.status) { return o, false; }
      var action := ActionFor(o.row, now);
      if action.Err? { return o, true; }
      if action.value == None { return o, false; }
      var synced := o.(row := o.row.(status := o.shop.status));
      action := ActionFor(synced.row, now);
      if action.Err? { return synced, true; }
      if action.value == None { return synced, false; }
      if action.value.value.alertsOnly { return synced, false; }
      var sidecar := new Sidecar(synced, ENOUGH);
      sidecar.ExpireOrder(action.value.value.releasesStock);
      q := sidecar.order;
      if sidecar.stopped && sidecar.budget > 0 {
        q := q.(row := q.row.(status := q.shop.status));
      }
      return q, false;
    }

    method SweepOnce(now: int) returns (raised: bool)
      modifies this
      ensures (orders, raised) == Pass(old(orders), now)
    {
      var i := 0;
      while i < |orders|
        invariant 0 <= i <= |orders| == |old(orders)|
        invariant PassFrom(orders, i, now) == Pass(old(orders), now)
      {
        var q, r := Turn(orders[i], now);
        orders := orders[i := q];
        if r { return true; }
        i := i + 1;
      }
      return false;
    }
  }

  lemma {:induction false} PassFromIsPointwise(orders: seq<Order>, i: nat, now: int)
    requires i <= |orders|
    ensures |PassFrom(orders, i, now).0| == |orders|
    ensures PassFrom(orders, i, now).1 <==> exists k :: i <= k < |orders| && Unreadable(orders[k], now)
    ensures forall j :: 0 <= j < i ==> PassFrom(orders, i, now).0[j] == orders[j]
    ensures !PassFrom(orders, i, now).1 ==>
      forall j :: i <= j < |orders| ==> PassFrom(orders, i, now).0[j] == SweepOne(orders[j], now, ENOUGH).0
    decreases |orders| - i
  {
    if i < |orders| {
      TurnRaisesExactly(orders[i], now, ENOUGH);
      var next := orders[i := SweepOne(orders[i], now, ENOUGH).0];
      PassFromIsPointwise(next, i + 1, now);
      assert forall k :: i < k < |orders| ==> next[k] == orders[k];
      if k :| i <= k < |orders| && Unreadable(orders[k], now) {
        assert k == i || Unreadable(next[k], now);
      }
    }
  }

  /** The pass raises exactly when some order's deadline cannot be read: the loop's promise
      never to raise holds if and only if every confirmed row carries its time. A pass that
      does not raise gives every order its own turn, whatever the others are. */
  lemma {:induction false} PassRaisesExactly(orders: seq<Order>, now: int)
    ensures |Pass(orders, now).0| == |orders|
    ensures Pass(orders, now).1 <==> exists k :: 0 <= k < |orders| && Unreadable(orders[k], now)
    ensures !Pass(orders, now).1 ==>
      forall j :: 0 <= j < |orders| ==> Pass(orders, now).0[j] == SweepOne(orders[j], now, ENOUGH).0
  {
    PassFromIsPointwise(orders, 0, now);
  }

  /** A pass over orders in step with their shops leaves no prepaid order live past its
      deadline and closes what each one held; it leaves the others, and every confirmed cash
      order, exactly as they were; and the same pass again changes nothing. */
  lemma {:induction false} OnePassSettlesAll(orders: seq<Order>, stocks: seq<int>, now: int)
    requires |stocks| == |orders|
    requires forall i :: 0 <= i < |orders| ==> InStep(orders[i], stocks[i])
    ensures var (after, raised) := Pass(orders, now);
      && !raised && |after| == |orders|
      && (forall i :: 0 <= i < |orders| ==> InStep(after[i], stocks[i]) && !Overdue(after[i].row, now))
      && (forall i :: 0 <= i < |orders| && Overdue(orders[i].row, now) ==>
            after[i].row.status == after[i].shop.status == Expired && HoldsClosed(after[i])
            && after[i].shop.shelf == stocks[i] && (orders[i].row.linkOnRow ==> after[i].linkCancelled))
      && (forall i :: 0 <= i < |orders| && !Overdue(orders[i].row, now) ==> after[i] == orders[i])
      && Pass(after, now) == (after, false)
  {
    PassRaisesExactly(orders, now);
    forall i | 0 <= i < |orders| ensures !Unreadable(orders[i], now) {
      TurnInStep(orders[i], now, stocks[i]);
      TurnRaisesExactly(orders[i], now, ENOUGH);
    }
    var after := Pass(orders, now).0;
    forall i | 0 <= i < |orders|
      ensures InStep(after[i], stocks[i]) && !Overdue(after[i].row, now)
      ensures Overdue(orders[i].row, now) ==>
            after[i].row.status == after[i].shop.status == Expired && HoldsClosed(after[i])
            && after[i].shop.shelf == stocks[i] && (orders[i].row.linkOnRow ==> after[i].linkCancelled)
      ensures !Overdue(orders[i].row, now) ==> after[i] == orders[i]
      ensures !Unreadable(after[i], now)
      ensures SweepOne(after[i], now, ENOUGH).0 == after[i]
    {
      TurnInStep(orders[i], now, stocks[i]);
      TurnInStep(after[i], now, stocks[i]);
      TurnRaisesExactly(after[i], now, ENOUGH);
    }
    PassRaisesExactly(after, now);
    assert Pass(after, now).0 == after;
  }

  /** How a pass can be made to raise: a tap that died after the shop took `confirmed` and
      before the row was saved, met a day later. */
  lemma {:induction false} CrashedTapStopsThePass(o: Order, op: Op, now: int, others: seq<Order>)
    requires Started(o) && op.Tap? && op.ruling.Some? && Fits(o, op)
    requires op.now <= o.tokenExpiresAt && o.shop.shelf >= o.shop.qty
    requires now >= o.row.createdAt + 86400
    ensures Pass([Step(o, op, 3)] + others, now) == ([Step(o, op, 3).(row := o.row.(status := Confirmed))] + others, true)
  {
    TapUnrolled(o, op, 3);
    var q := Step(o, op, 3);
    var spent := o.(spent := true);
    DoorOpens(spent, 2, ReserveDoor);
    DoorOpens(Through(spent, ReserveDoor), 1, StatusDoor(Confirmed));
    assert q == Through(Through(spent, ReserveDoor), StatusDoor(Confirmed));
    TurnRaisesExactly(q, now, ENOUGH);
    var q' := q.(row := o.row.(status := Confirmed));
    assert PassFrom([q] + others, 0, now) == (([q] + others)[0 := q'], true);
    assert ([q] + others)[0 := q'] == [q'] + others;
  }
}
