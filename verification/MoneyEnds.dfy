/** What a cancel or an expiry leaves of the row and of the Provider's link, over every life of an
    order, whole or cut anywhere. */
module MoneyEnds {
  import opened Wrappers
  import opened Transcript
  import opened Ledger
  import opened Settlement
  import opened Money
  import opened MoneySafety
  import opened MoneyRuns
  import opened MoneyCrash
  import opened MoneyLives
  import G = Gate

  /** The row an order is closed with. */
  function ClosedRow(c: Checkout, to: Status): Checkout {
    if to == Expired then c.(status := Expired, tokenOnRow := false, linkOnRow := false)
    else c.(status := to, tokenOnRow := false)
  }

  predicate LinkGone(q: Order, r: Order) { r.linkCancelled == (q.linkCancelled || q.row.linkOnRow) }

  predicate SameRowAndLink(q: Order, r: Order) { r.row == q.row && r.linkCancelled == q.linkCancelled }

  /** Closing untouched, or the link gone, or the link gone and the row closed. */
  predicate ClosedSoFar(q: Order, r: Order, to: Status) {
    || SameRowAndLink(q, r)
    || (r.row == q.row && LinkGone(q, r))
    || (r.row == ClosedRow(q.row, to) && LinkGone(q, r))
  }

  lemma {:induction false} OthersKeepRow(p: Process, e: Effect)
    requires e.AtDoor? || e.ReleaseMoney?
    ensures SameRowAndLink(p.order, Go(p, e).order)
    ensures p.stopped ==> Go(p, e) == p
  {
  }

  /** The last two writes: the link first, then the row. */
  lemma {:induction false} LinkThenRow(q: Order, p: Process, to: Status)
    requires SameRowAndLink(q, p.order) && to in {Cancelled, Expired}
    ensures var r := Go(Go(p, CancelLink), SaveClosed(to, to == Expired));
      && ClosedSoFar(q, r.order, to)
      && (!r.stopped ==> r.order.row == ClosedRow(q.row, to) && LinkGone(q, r.order))
      && (p.stopped ==> r == p)
      && (!p.stopped && p.budget >= 2 ==> !r.stopped)
      && r.order.shop == p.order.shop && r.order.ledger == p.order.ledger
  {
  }

  lemma {:induction false} BareCut(q: Order, budget: nat, to: Status)
    requires to in {Cancelled, Expired}
    ensures var r := Exec(Process(q, budget, false), [AtDoor(StatusDoor(to)), CancelLink, SaveClosed(to, to == Expired)]);
      && ClosedSoFar(q, r.order, to)
      && (!r.stopped ==> r.order.row == ClosedRow(q.row, to) && LinkGone(q, r.order))
      && (budget >= 3 && CallDoor(q.shop, StatusDoor(to)).1 == Fine ==> !r.stopped)
      && (!r.stopped ==> r.order.shop == CallDoor(q.shop, StatusDoor(to)).0)
      && (r.stopped && r.budget > 0 ==> r.order.shop.status == q.shop.status)
      && (LinkGone(q, r.order) && !SameRowAndLink(q, r.order) ==> StatusDoor(to) in r.order.shop.answered)
      && r.order.ledger == q.ledger
  {
    var p := Process(q, budget, false);
    ExecThree(p, AtDoor(StatusDoor(to)), CancelLink, SaveClosed(to, to == Expired));
    OthersKeepRow(p, AtDoor(StatusDoor(to)));
    LinkThenRow(q, Go(p, AtDoor(StatusDoor(to))), to);
  }

  lemma {:induction false} DoorGoesOn(p: Process, d: Door)
    ensures var r := Go(p, AtDoor(d));
      && r.order == p.order.(shop := r.order.shop)
      && (r.order.shop != p.order.shop ==> d in r.order.shop.answered)
      && (!r.stopped ==> !p.stopped && d in r.order.shop.answered && r.order.shop.answered[d] == Fine)
      && (p.stopped ==> r == p)
      && (r.stopped && r.budget > 0 ==> r.order.shop.status == p.order.shop.status)
      && (d == ReleaseDoor ==> r.order.shop.status == p.order.shop.status)
      && (forall e :: e in p.order.shop.answered ==> e in r.order.shop.answered && r.order.shop.answered[e] == p.order.shop.answered[e])
  {
  }

  /** A refusal leaves the shop's status where it was. */
  lemma {:induction false} DoorsStop(q: Order, budget: nat, to: Status)
    ensures var p := Go(Go(Go(Process(q, budget, false), AtDoor(ReleaseDoor)), ReleaseMoney), AtDoor(StatusDoor(to)));
      && (p.stopped && p.budget > 0 ==> p.order.shop.status == q.shop.status)
      && (!p.stopped ==> StatusDoor(to) in p.order.shop.answered)
      && (p.order.ledger != q.ledger ==> ReleaseDoor in p.order.shop.answered)
  {
    var p1 := Go(Process(q, budget, false), AtDoor(ReleaseDoor));
    DoorGoesOn(Process(q, budget, false), ReleaseDoor);
    var p2 := Go(p1, ReleaseMoney);
    assert p2.order == p1.order.(ledger := p2.order.ledger) && (p1.stopped ==> p2 == p1) && (p2.stopped ==> p1.stopped || p2.budget == 0);
    DoorGoesOn(p2, StatusDoor(to));
  }

  lemma {:induction false} HeldCut(q: Order, budget: nat, to: Status)
    requires to in {Cancelled, Expired}
    ensures var p := Go(Go(Go(Process(q, budget, false), AtDoor(ReleaseDoor)), ReleaseMoney), AtDoor(StatusDoor(to)));
      var r := Exec(Process(q, budget, false), [AtDoor(ReleaseDoor), ReleaseMoney, AtDoor(StatusDoor(to)), CancelLink, SaveClosed(to, to == Expired)]);
      && ClosedSoFar(q, r.order, to)
      && (!r.stopped ==> r.order.row == ClosedRow(q.row, to) && LinkGone(q, r.order))
      && (p.stopped ==> r == p && SameRowAndLink(q, r.order))
      && (!p.stopped && p.budget >= 2 ==> !r.stopped)
      && r.order.shop == p.order.shop
      && (r.stopped && r.budget > 0 ==> r.order.shop.status == q.shop.status)
      && (LinkGone(q, r.order) && !SameRowAndLink(q, r.order) ==> StatusDoor(to) in r.order.shop.answered)
      && (r.order.ledger != q.ledger ==> ReleaseDoor in r.order.shop.answered)
  {
    var p := Process(q, budget, false);
    DoorsStop(q, budget, to);
    ExecFive(p, AtDoor(ReleaseDoor), ReleaseMoney, AtDoor(StatusDoor(to)), CancelLink, SaveClosed(to, to == Expired));
    OthersKeepRow(p, AtDoor(ReleaseDoor));
    OthersKeepRow(Go(p, AtDoor(ReleaseDoor)), ReleaseMoney);
    OthersKeepRow(Go(Go(p, AtDoor(ReleaseDoor)), ReleaseMoney), AtDoor(StatusDoor(to)));
    LinkThenRow(q, Go(Go(Go(p, AtDoor(ReleaseDoor)), ReleaseMoney), AtDoor(StatusDoor(to))), to);
  }

  /** A cancel that dies at any write, of any order at all: a paid order is left as it is; otherwise
      the row is not closed before the link it names has been cancelled, nor the link before the
      shop was told, nor money let go before stock was asked back; and the row is closed as
      Cancelled with its token off it or not touched. */
  lemma {:induction false} CancelCut(q: Order, budget: nat)
    ensures var r := Step(q, Cancel, budget);
      && (q.row.status == IsPaid ==> r == q)
      && (r.row == q.row || r.row == q.row.(status := Cancelled, tokenOnRow := false))
      && (r.row != q.row && q.row.linkOnRow ==> r.linkCancelled)
      && (q.linkCancelled ==> r.linkCancelled)
      && (r.linkCancelled && !q.linkCancelled ==> q.row.linkOnRow && StatusDoor(Cancelled) in r.shop.answered)
      && (r.ledger != q.ledger ==> ReleaseDoor in r.shop.answered)
  {
    if q.row.status == Confirmed {
      HeldCut(q, budget, Cancelled);
    } else if q.row.status != IsPaid {
      BareCut(q, budget, Cancelled);
    }
  }

  /** The doors a cancel calls accept, unless the shop has sold what the row says is confirmed. */
  lemma {:induction false} DoorsLetGo(q: Order, stock: int, to: Status)
    requires Lived(q, stock) && to in {Cancelled, Expired}
    ensures CallDoor(q.shop, StatusDoor(to)).1 == Fine
    ensures q.row.status == Confirmed ==>
      var p := Go(Go(Go(Process(q, ENOUGH, false), AtDoor(ReleaseDoor)), ReleaseMoney), AtDoor(StatusDoor(to)));
      && (p.stopped <==> q.shop.hold == Committed)
      && (p.stopped ==> p.order.shop.hold == Committed && p.order.shop.status == q.shop.status)
      && (!p.stopped ==> p.budget >= 2)
  {
    if q.row.status == Confirmed {
      var p := Process(q, ENOUGH, false);
      StockGivesBack(q, stock);
      DoorKeepsLived(q, ReleaseDoor, stock);
      StatusIsFine(Go(Go(p, AtDoor(ReleaseDoor)), ReleaseMoney), Perform(q, AtDoor(ReleaseDoor)).0, stock, to);
    }
  }

  lemma {:induction false} StatusIsFine(p: Process, o: Order, stock: int, to: Status)
    requires Lived(o, stock) && p.order.shop == o.shop
    ensures !p.stopped && p.budget > 0 ==> !Go(p, AtDoor(StatusDoor(to))).stopped && Go(p, AtDoor(StatusDoor(to))).budget == p.budget - 1
    ensures p.stopped ==> Go(p, AtDoor(StatusDoor(to))) == p
  {
  }

  /** Over every life: a cancel of an order that is not paid runs to its end, cancels the link the
      row names and leaves the row Cancelled with its token off it, unless the shop has sold the
      stock of a confirmed row, and then row and link stay as they were. */
  lemma {:induction false} CancelEnds(o: Order, events: seq<Event>)
    requires Started(o) && AllHappen(o, events)
    ensures var q := Life(o, events);
      var r := Step(q, Cancel, ENOUGH);
      var refused := q.row.status == Confirmed && q.shop.hold == Committed;
      && (q.row.status == IsPaid ==> r == q)
      && (q.row.status != IsPaid && refused ==> r.row == q.row && r.linkCancelled == q.linkCancelled && r.shop.hold == Committed)
      && (q.row.status != IsPaid && !refused ==>
            && r.row == q.row.(status := Cancelled, tokenOnRow := false)
            && r.linkCancelled == (q.linkCancelled || q.row.linkOnRow)
            && (StatusDoor(Cancelled) !in q.shop.answered ==> r.shop.status == Cancelled))
  {
    EveryLifeIsLived(o, events);
    CancelOfLived(Life(o, events), o.shop.shelf);
  }

  lemma {:induction false} CancelOfLived(q: Order, stock: int)
    requires Lived(q, stock)
    ensures var r := Step(q, Cancel, ENOUGH);
      var refused := q.row.status == Confirmed && q.shop.hold == Committed;
      && (q.row.status == IsPaid ==> r == q)
      && (q.row.status != IsPaid && refused ==> r.row == q.row && r.linkCancelled == q.linkCancelled && r.shop.hold == Committed)
      && (q.row.status != IsPaid && !refused ==>
            && r.row == q.row.(status := Cancelled, tokenOnRow := false)
            && r.linkCancelled == (q.linkCancelled || q.row.linkOnRow)
            && (StatusDoor(Cancelled) !in q.shop.answered ==> r.shop.status == Cancelled))
  {
    DoorsLetGo(q, stock, Cancelled);
    if q.row.status == Confirmed {
      HeldCut(q, ENOUGH, Cancelled);
      ShopAfterRelease(q, Cancelled);
    } else if q.row.status != IsPaid {
      BareCut(q, ENOUGH, Cancelled);
    }
  }

  lemma {:induction false} ShopAfterRelease(q: Order, to: Status)
    ensures var p := Go(Go(Go(Process(q, ENOUGH, false), AtDoor(ReleaseDoor)), ReleaseMoney), AtDoor(StatusDoor(to)));
      StatusDoor(to) !in q.shop.answered && !p.stopped ==> p.order.shop.status == to
  {
  }

  /** What an expiry cut anywhere leaves, with the correction a refused one is followed by. */
  lemma {:induction false} ExpiryCut(s: Order, budget: nat)
    requires s.row.status in {Pending, Confirmed} && s.shop.status != Expired
    ensures var p := Exec(Process(s, budget, false), Plan(s, Expire(s.row.status == Confirmed)));
      var r := if p.stopped && p.budget > 0 then Perform(p.order, Resync).0 else p.order;
      r.row.status == Expired ==> r.row == ClosedRow(s.row, Expired) && LinkGone(s, r)
  {
    if s.row.status == Confirmed {
      HeldCut(s, budget, Expired);
    } else {
      BareCut(s, budget, Expired);
    }
  }

  /** A sweep that dies at any write, over any order: the row is not newly expired before the link
      it names has been cancelled, and then neither token nor link is on it. */
  lemma {:induction false} SweepCut(o: Order, now: int, budget: nat)
    requires o.row.status != Expired && o.shop.status != Expired
    ensures var r := SweepOne(o, now, budget).0;
      r.row.status == Expired ==>
        !r.row.tokenOnRow && !r.row.linkOnRow && (o.row.linkOnRow ==> r.linkCancelled)
  {
    SweepShape(o, now, budget);
    var s := Perform(o, Resync).0;
    if s.row.status in {Pending, Confirmed} { ExpiryCut(s, budget); }
  }

  // ----- the order of the other writes -----

  /** The row a tap confirms. */
  function ConfirmedRow(c: Checkout, now: int, paidBy: G.Method, ruling: Body, linkSeconds: int): Checkout {
    var cash := paidBy == G.CashOnDelivery;
    c.(paidBy := paidBy, status := Confirmed, confirmedAt := Some(now),
       linkExpiresAt := if cash then None else Some(now + linkSeconds), linkOnRow := !cash, decision := Some(ruling))
  }

  /** What each point of a tap has done: the token first, then stock, then the shop's status, then
      the money, and the row last. */
  ghost predicate TapInOrder(q: Order, r: Order, row: Checkout, prepaid: bool) {
    && r.linkCancelled == q.linkCancelled
    && (r.shop != q.shop ==> r.spent)
    && (StatusDoor(Confirmed) in r.shop.answered ==>
          StatusDoor(Confirmed) in q.shop.answered || (ReserveDoor in r.shop.answered && r.shop.answered[ReserveDoor] == Fine))
    && (r.ledger != q.ledger ==> prepaid && StatusDoor(Confirmed) in r.shop.answered && r.shop.answered[StatusDoor(Confirmed)] == Fine)
    && (r.row == q.row || r.row == row)
    && (r.row != q.row ==>
          && r.spent && !q.spent
          && ReserveDoor in r.shop.answered && r.shop.answered[ReserveDoor] == Fine
          && StatusDoor(Confirmed) in r.shop.answered && r.shop.answered[StatusDoor(Confirmed)] == Fine
          && (prepaid ==> r.ledger != q.ledger))
  }

  /** The first three writes of a tap: token, stock, status. */
  ghost predicate Fronted(q: Order, p: Process) {
    && p.order == q.(spent := p.order.spent, shop := p.order.shop)
    && (p.order.shop != q.shop ==> p.order.spent)
    && (!p.stopped ==>
          && p.order.spent && !q.spent
          && ReserveDoor in p.order.shop.answered && p.order.shop.answered[ReserveDoor] == Fine
          && StatusDoor(Confirmed) in p.order.shop.answered && p.order.shop.answered[StatusDoor(Confirmed)] == Fine)
    && (StatusDoor(Confirmed) in p.order.shop.answered ==>
          StatusDoor(Confirmed) in q.shop.answered
          || (ReserveDoor in p.order.shop.answered && p.order.shop.answered[ReserveDoor] == Fine))
  }

  lemma {:induction false} TapFront(q: Order, now: int, budget: nat)
    ensures Fronted(q, Go(Go(Go(Process(q, budget, false), SpendToken(now)), AtDoor(ReserveDoor)), AtDoor(StatusDoor(Confirmed))))
  {
    var p1 := Go(Process(q, budget, false), SpendToken(now));
    DoorGoesOn(p1, ReserveDoor);
    DoorGoesOn(Go(p1, AtDoor(ReserveDoor)), StatusDoor(Confirmed));
  }

  lemma {:induction false} CashTail(q: Order, p: Process, now: int, paidBy: G.Method, ruling: Body, linkSeconds: int)
    requires Fronted(q, p) && paidBy == G.CashOnDelivery
    ensures TapInOrder(q, Go(p, SaveConfirmed(paidBy, now, None, ruling)).order, ConfirmedRow(q.row, now, paidBy, ruling, linkSeconds), false)
  {
  }

  lemma {:induction false} PrepaidTail(q: Order, p: Process, now: int, paidBy: G.Method, ruling: Body, linkSeconds: int)
    requires Fronted(q, p) && paidBy != G.CashOnDelivery && Shaped(q)
    ensures TapInOrder(q, Go(Go(p, HoldMoney), SaveConfirmed(paidBy, now, Some(now + linkSeconds), ruling)).order,
      ConfirmedRow(q.row, now, paidBy, ruling, linkSeconds), true)
  {
    var held := Go(p, HoldMoney);
    if !p.stopped {
      assert p.order.ledger == [];
      MoneyEffects(p.order);
    }
    assert held.order == p.order.(ledger := held.order.ledger);
    assert held.order.ledger != q.ledger ==> !p.stopped;
    assert !held.stopped ==> !p.stopped && held.order.ledger != q.ledger;
  }

  /** A tap that dies at any write. */
  lemma {:induction false} TapCut(q: Order, now: int, paidBy: G.Method, ruling: Body, linkSeconds: int, budget: nat)
    requires Shaped(q)
    ensures TapInOrder(q, Step(q, Tap(now, paidBy, Some(ruling), linkSeconds), budget),
      ConfirmedRow(q.row, now, paidBy, ruling, linkSeconds), paidBy != G.CashOnDelivery)
  {
    if q.row.tokenOnRow {
      var p0 := Process(q, budget, false);
      var p3 := Go(Go(Go(p0, SpendToken(now)), AtDoor(ReserveDoor)), AtDoor(StatusDoor(Confirmed)));
      TapFront(q, now, budget);
      if paidBy == G.CashOnDelivery {
        ExecFour(p0, SpendToken(now), AtDoor(ReserveDoor), AtDoor(StatusDoor(Confirmed)), SaveConfirmed(paidBy, now, None, ruling));
        CashTail(q, p3, now, paidBy, ruling, linkSeconds);
      } else {
        ExecFive(p0, SpendToken(now), AtDoor(ReserveDoor), AtDoor(StatusDoor(Confirmed)), HoldMoney,
          SaveConfirmed(paidBy, now, Some(now + linkSeconds), ruling));
        PrepaidTail(q, p3, now, paidBy, ruling, linkSeconds);
      }
    }
  }

  /** What each point of completing a payment has done. Settled: the capture first, then the stock
      sold, then the shop's status, and the row last. Not settled: the money let go first, then
      the row, and the shop's status last. */
  ghost predicate PaymentInOrder(q: Order, r: Order, settles: bool) {
    && r.spent == q.spent && r.linkCancelled == q.linkCancelled
    && (r.row != q.row || r.shop != q.shop || r.ledger != q.ledger ==>
          q.row.status in {Pending, Confirmed} && q.row.linkOnRow && q.row.decision.Some?)
    && (settles && r.shop != q.shop ==> r.ledger == [Reserved(q), Captured(q)] && q.ledger == [Reserved(q)])
    && (settles && StatusDoor(IsPaid) in r.shop.answered && StatusDoor(IsPaid) !in q.shop.answered ==>
          CommitDoor in r.shop.answered && r.shop.answered[CommitDoor] == Fine)
    && (settles && r.row != q.row ==>
          && r.row == q.row.(status := IsPaid)
          && CommitDoor in r.shop.answered && r.shop.answered[CommitDoor] == Fine
          && StatusDoor(IsPaid) in r.shop.answered && r.shop.answered[StatusDoor(IsPaid)] == Fine)
    && (!settles ==> r.ledger in [q.ledger, [Reserved(q), Let(q)]])
    && (!settles && r.row != q.row ==> r.row == q.row.(status := IsFailed) && OpenHolds(r.ledger) == 0)
    && (!settles && r.shop != q.shop ==> r.row.status == IsFailed)
  }

  /** A Provider's callback that dies at any write. */
  lemma {:induction false} DeliverCut(q: Order, record: ProviderRecord, budget: nat)
    requires Shaped(q)
    ensures PaymentInOrder(q, Step(q, Deliver(record), budget),
      record.succeeded && record.amountMinor == q.row.totalMinor && record.currency == q.row.currency)
  {
    if q.row.status in {Pending, Confirmed} && q.row.linkOnRow && q.row.decision.Some? {
      if Reconciles(TermsOf(q), record) { SettledCut(q, record, budget); } else { FailedCut(q, record, budget); }
    }
  }

  lemma {:induction false} SettledCut(q: Order, record: ProviderRecord, budget: nat)
    requires Shaped(q) && q.row.status in {Pending, Confirmed} && q.row.linkOnRow && q.row.decision.Some?
    requires Reconciles(TermsOf(q), record)
    ensures PaymentInOrder(q, Step(q, Deliver(record), budget), true)
  {
    var p0 := Process(q, budget, false);
    SettleEffect(q, record);
    ExecFour(p0, SettleMoney(record), AtDoor(CommitDoor), AtDoor(StatusDoor(IsPaid)), SaveStatus(IsPaid));
    var p1 := Go(p0, SettleMoney(record));
    DoorGoesOn(p1, CommitDoor);
    DoorGoesOn(Go(p1, AtDoor(CommitDoor)), StatusDoor(IsPaid));
  }

  lemma {:induction false} FailedCut(q: Order, record: ProviderRecord, budget: nat)
    requires Shaped(q) && q.row.status in {Pending, Confirmed} && q.row.linkOnRow && q.row.decision.Some?
    requires !Reconciles(TermsOf(q), record)
    ensures PaymentInOrder(q, Step(q, Deliver(record), budget), false)
  {
    var p0 := Process(q, budget, false);
    SettleEffect(q, record);
    ReleaseEffect(q);
    MoneyGivesBack(q);
    ExecThree(p0, SettleMoney(record), SaveStatus(IsFailed), AtDoor(StatusDoor(IsFailed)));
    DoorGoesOn(Go(Go(p0, SettleMoney(record)), SaveStatus(IsFailed)), StatusDoor(IsFailed));
  }

  /** Cash that dies at any write: the capture first, and for cash alone, then the shop's status,
      and the row last. */
  lemma {:induction false} CollectCut(q: Order, budget: nat)
    requires Shaped(q)
    ensures var r := Step(q, Collect, budget);
      && r.spent == q.spent && r.linkCancelled == q.linkCancelled
      && r.ledger in [q.ledger, [Collected(q)]]
      && (r.shop != q.shop ==> OnCash(q) && r.ledger == [Collected(q)])
      && (r.row == q.row || r.row == q.row.(status := IsPaid))
      && (r.row != q.row ==> StatusDoor(IsPaid) in r.shop.answered && r.shop.answered[StatusDoor(IsPaid)] == Fine)
  {
    var p0 := Process(q, budget, false);
    CashEffect(q);
    ExecThree(p0, CollectMoney, AtDoor(StatusDoor(IsPaid)), SaveStatus(IsPaid));
    DoorGoesOn(Go(p0, CollectMoney), StatusDoor(IsPaid));
  }
}
