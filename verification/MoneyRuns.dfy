/** Runs in which every operation finishes: the row, the shop, the Ledger and the stock move
    together. */
module MoneyRuns {
  import opened Wrappers
  import opened Sums
  import opened Transcript
  import opened Ledger
  import opened Settlement
  import opened Money
  import opened MoneySafety
  import G = Gate

  /** What the shop has already answered never stands in the way of what comes next. */
  ghost predicate Unobstructed(o: Order) {
    var a, s := o.shop.answered, o.row.status;
    && (ReserveDoor in a || StatusDoor(Confirmed) in a ==> o.spent)
    && (StatusDoor(Confirmed) in a ==> o.row.decision.Some?)
    && (ReleaseDoor in a ==> o.shop.hold == Released && a[ReleaseDoor] == Fine)
    && (CommitDoor in a ==> o.shop.hold == Committed && a[CommitDoor] == Fine)
    && (forall t :: StatusDoor(t) in a ==> a[StatusDoor(t)] == Fine)
    && (StatusDoor(Cancelled) in a ==> s == Cancelled || s == IsPaid)
    && (StatusDoor(Expired) in a ==> s == Expired || s == Cancelled)
    && (StatusDoor(IsPaid) in a ==> s == IsPaid)
    && (StatusDoor(IsFailed) in a ==> s == IsFailed || s == Cancelled)
  }

  /** Before a decision is stored: nothing held, nothing moved. */
  ghost predicate Undecided(o: Order) {
    && o.row.decision == None && o.ledger == [] && o.shop.hold == NoHold && !o.row.linkOnRow
    && o.row.status in {Pending, Cancelled, Expired}
    && (o.row.tokenOnRow ==> o.row.status == Pending)
  }

  /** Cash: no hold in the Ledger ever, one capture exactly when paid. */
  ghost predicate CashInStep(o: Order) {
    && OnCash(o) && o.spent && o.row.confirmedAt.Some? && o.row.paidBy == G.CashOnDelivery && !o.row.linkOnRow
    && o.row.status in {Confirmed, IsPaid, Cancelled}
    && (o.ledger == [Collected(o)] <==> o.row.status == IsPaid)
    && (o.row.status == Confirmed ==> o.shop.hold == Held)
    && (o.row.status == Cancelled ==> o.shop.hold == Released)
    && o.shop.hold in {Held, Released}
    && StatusDoor(Expired) !in o.shop.answered && StatusDoor(IsFailed) !in o.shop.answered
  }

  /** Prepaid: held, and held in the Ledger, exactly while confirmed; a failed settlement
      lets the money go and leaves the stock held. */
  ghost predicate RailInStep(o: Order) {
    && OnRail(o) && o.spent && o.row.confirmedAt.Some? && o.row.paidBy != G.CashOnDelivery
    && o.row.status in {Confirmed, IsPaid, IsFailed, Cancelled, Expired}
    && (o.row.status == Confirmed ==> o.ledger == [Reserved(o)] && o.shop.hold == Held && o.row.linkOnRow)
    && (o.row.status == IsPaid ==> o.ledger == [Reserved(o), Captured(o)] && o.shop.hold == Committed)
    && (o.row.status in {IsFailed, Cancelled, Expired} ==>
          o.ledger == if o.row.totalMinor > 0 then [Reserved(o), Let(o)] else [Reserved(o)])
    && (o.row.status == IsFailed ==> o.shop.hold == Held)
    && (o.row.status == Expired ==> o.shop.hold == Released)
    && (o.row.status == Cancelled ==> o.shop.hold in {Held, Released})
  }

  /** Units taken off the shelf by this order and not given back. */
  function Out(s: Shop): int { if s.hold in {Held, Committed} then s.qty else 0 }

  /** `stock` is what was on the shelf when the order was started. */
  ghost predicate InStep(o: Order, stock: int) {
    && Shaped(o)
    && o.row.status == o.shop.status
    && o.shop.shelf + Out(o.shop) == stock
    && o.shop.shelf >= 0
    && Unobstructed(o)
    && (Undecided(o) || CashInStep(o) || RailInStep(o))
    && (o.row.status in {Pending, Confirmed} ==> o.row.tokenOnRow)
  }

  lemma {:induction false} StartsInStep(o: Order)
    requires Started(o)
    ensures InStep(o, o.shop.shelf)
  {
  }

  // ----- cancel and expire -----

  /** The row after the closing save. */
  function Closed(c: Checkout, s: Status, dropLink: bool): Checkout {
    c.(status := s, tokenOnRow := false, linkOnRow := c.linkOnRow && !dropLink)
  }

  /** Ledger rows once the hold has been let go. */
  function LetGo(o: Order): seq<Row> {
    if o.ledger == [Reserved(o)] && o.row.totalMinor > 0 then [Reserved(o), Let(o)] else o.ledger
  }

  /** A door asked for the first time, answering. */
  function Through(o: Order, d: Door): Order {
    o.(shop := RunDoor(o.shop, d).0.(answered := o.shop.answered[d := Fine]))
  }

  lemma {:induction false} DoorOpens(o: Order, budget: nat, d: Door)
    requires budget > 0 && d !in o.shop.answered && RunDoor(o.shop, d).1 == Fine
    ensures Go(Process(o, budget, false), AtDoor(d)) == Process(Through(o, d), budget - 1, false)
  {
  }

  lemma {:induction false} MoneyLetGo(o: Order, budget: nat)
    requires budget > 0 && Shaped(o)
    ensures Go(Process(o, budget, false), ReleaseMoney) == Process(o.(ledger := LetGo(o)), budget - 1, false)
  {
    MoneyEffects(o);
  }

  /** Where the closing sequence that `cancel` and `expire` share ends: stock and money given
      back, then the status, then the row. */
  function ClosedFrom(o: Order, to: Status, dropLink: bool): Order {
    var q := Through(Through(o, ReleaseDoor).(ledger := LetGo(o)), StatusDoor(to));
    q.(linkCancelled := o.linkCancelled || o.row.linkOnRow, row := Closed(o.row, to, dropLink))
  }

  lemma {:induction false} ClosingSequence(o: Order, to: Status, dropLink: bool)
    requires Shaped(o) && o.shop.hold == Held
    requires ReleaseDoor !in o.shop.answered && StatusDoor(to) !in o.shop.answered
    ensures Exec(Process(o, ENOUGH, false),
        [AtDoor(ReleaseDoor), ReleaseMoney, AtDoor(StatusDoor(to)), CancelLink, SaveClosed(to, dropLink)])
      == Process(ClosedFrom(o, to, dropLink), ENOUGH - 5, false)
  {
    var p := Process(o, ENOUGH, false);
    ExecFive(p, AtDoor(ReleaseDoor), ReleaseMoney, AtDoor(StatusDoor(to)), CancelLink, SaveClosed(to, dropLink));
    GivenBack(o, ENOUGH);
    StatusMoved(Through(o, ReleaseDoor).(ledger := LetGo(o)), to, dropLink, ENOUGH - 2);
  }

  lemma {:induction false} GivenBack(o: Order, budget: nat)
    requires budget > 1 && Shaped(o) && o.shop.hold == Held && ReleaseDoor !in o.shop.answered
    ensures Go(Go(Process(o, budget, false), AtDoor(ReleaseDoor)), ReleaseMoney)
      == Process(Through(o, ReleaseDoor).(ledger := LetGo(o)), budget - 2, false)
  {
    DoorOpens(o, budget, ReleaseDoor);
    MoneyLetGo(Through(o, ReleaseDoor), budget - 1);
  }

  lemma {:induction false} StatusMoved(o: Order, to: Status, dropLink: bool, budget: nat)
    requires budget > 2 && StatusDoor(to) !in o.shop.answered
    ensures Go(Go(Go(Process(o, budget, false), AtDoor(StatusDoor(to))), CancelLink), SaveClosed(to, dropLink))
      == Process(Through(o, StatusDoor(to)).(linkCancelled := o.linkCancelled || o.row.linkOnRow, row := Closed(o.row, to, dropLink)),
           budget - 3, false)
  {
    DoorOpens(o, budget, StatusDoor(to));
  }

  /** A status change alone: closing an order that holds nothing it knows of. */
  lemma {:induction false} BareClosing(o: Order, to: Status, dropLink: bool, stock: int)
    requires InStep(o, stock) && o.row.status in {Pending, IsFailed, Cancelled, Expired} && to in {Cancelled, Expired}
    requires to == Expired ==> o.row.status == Pending
    ensures var q := Exec(Process(o, ENOUGH, false), [AtDoor(StatusDoor(to)), CancelLink, SaveClosed(to, dropLink)]);
      && !q.stopped
      && q.order.shop.status == to && q.order.shop.hold == o.shop.hold
      && q.order == o.(shop := o.shop.(status := to, answered := o.shop.answered[StatusDoor(to) := Fine]),
        linkCancelled := o.linkCancelled || o.row.linkOnRow, row := Closed(o.row, to, dropLink))
  {
    ExecThree(Process(o, ENOUGH, false), AtDoor(StatusDoor(to)), CancelLink, SaveClosed(to, dropLink));
    if StatusDoor(to) in o.shop.answered {
      assert o.shop.answered[StatusDoor(to) := Fine] == o.shop.answered;
    }
  }

  lemma {:induction false} ClosedStaysInStep(o: Order, to: Status, dropLink: bool, stock: int)
    requires InStep(o, stock) && o.row.status == Confirmed
    requires to == Cancelled || (to == Expired && OnRail(o))
    ensures InStep(ClosedFrom(o, to, dropLink), stock)
  {
  }

  lemma {:induction false} CancelOfConfirmed(o: Order, stock: int)
    requires InStep(o, stock) && o.row.status == Confirmed
    ensures InStep(Step(o, Cancel, ENOUGH), stock)
  {
    ClosingSequence(o, Cancelled, false);
    ClosedStaysInStep(o, Cancelled, false, stock);
    assert Plan(o, Cancel) == [AtDoor(ReleaseDoor), ReleaseMoney, AtDoor(StatusDoor(Cancelled)), CancelLink, SaveClosed(Cancelled, false)];
  }

  lemma {:induction false} CancelOfOther(o: Order, stock: int)
    requires InStep(o, stock) && o.row.status in {Pending, IsFailed, Cancelled, Expired}
    ensures InStep(Step(o, Cancel, ENOUGH), stock)
  {
    BareClosing(o, Cancelled, false, stock);
    assert Plan(o, Cancel) == [AtDoor(StatusDoor(Cancelled)), CancelLink, SaveClosed(Cancelled, false)];
  }

  lemma {:induction false} CancelKeepsStep(o: Order, stock: int)
    requires InStep(o, stock)
    ensures InStep(Step(o, Cancel, ENOUGH), stock)
  {
    if o.row.status == Confirmed {
      CancelOfConfirmed(o, stock);
    } else if o.row.status != IsPaid {
      CancelOfOther(o, stock);
    }
  }

  predicate TimeKnown(c: Checkout) { c.status == Confirmed ==> c.confirmedAt.Some? }

  /** A sweep leaves the order, or its resynced copy, or runs the plan its status asks for. */
  lemma {:induction false} SweepShape(o: Order, now: int, budget: nat)
    ensures TimeKnown(o.row) && TimeKnown(Perform(o, Resync).0.row) ==> !SweepOne(o, now, budget).1
    ensures var s := Perform(o, Resync).0;
      var p := Exec(Process(s, budget, false), Plan(s, Expire(s.row.status == Confirmed)));
      || SweepOne(o, now, budget).0 == o || SweepOne(o, now, budget).0 == s
      || (s.row.status in {Pending, Confirmed} && !(s.row.status == Confirmed && s.row.paidBy == G.CashOnDelivery)
          && SweepOne(o, now, budget).0 == if p.stopped && p.budget > 0 then Perform(p.order, Resync).0 else p.order)
  {
  }

  lemma {:induction false} SweepOfConfirmed(o: Order, now: int, stock: int)
    requires InStep(o, stock) && o.row.status == Confirmed
    ensures InStep(SweepOne(o, now, ENOUGH).0, stock) && !SweepOne(o, now, ENOUGH).1
  {
    assert Perform(o, Resync).0 == o;
    SweepShape(o, now, ENOUGH);
    if OnRail(o) {
      ClosingSequence(o, Expired, true);
      ClosedStaysInStep(o, Expired, true, stock);
      assert Plan(o, Expire(true)) == [AtDoor(ReleaseDoor), ReleaseMoney, AtDoor(StatusDoor(Expired)), CancelLink, SaveClosed(Expired, true)];
    }
  }

  lemma {:induction false} SweepOfPending(o: Order, now: int, stock: int)
    requires InStep(o, stock) && o.row.status == Pending
    ensures InStep(SweepOne(o, now, ENOUGH).0, stock) && !SweepOne(o, now, ENOUGH).1
  {
    assert Perform(o, Resync).0 == o;
    BareClosing(o, Expired, true, stock);
    assert Plan(o, Expire(false)) == [AtDoor(StatusDoor(Expired)), CancelLink, SaveClosed(Expired, true)];
  }

  lemma {:induction false} SweepKeepsStep(o: Order, now: int, stock: int)
    requires InStep(o, stock)
    ensures InStep(SweepOne(o, now, ENOUGH).0, stock)
    ensures !SweepOne(o, now, ENOUGH).1
  {
    if o.row.status == Confirmed {
      SweepOfConfirmed(o, now, stock);
    } else if o.row.status == Pending {
      SweepOfPending(o, now, stock);
    }
  }

  // ----- collect and complete -----

  function PaidFrom(o: Order): Order {
    o.(shop := o.shop.(status := IsPaid, answered := o.shop.answered[StatusDoor(IsPaid) := Fine]),
       row := o.row.(status := IsPaid))
  }

  lemma {:induction false} CollectSequence(o: Order)
    requires Shaped(o)
    requires StatusDoor(IsPaid) in o.shop.answered ==>
      o.shop.answered[StatusDoor(IsPaid)] == Fine && o.shop.status == IsPaid
    ensures Step(o, Collect, ENOUGH) == if OnCash(o) then PaidFrom(o.(ledger := [Collected(o)])) else o
  {
    var p := Process(o, ENOUGH, false);
    ExecThree(p, CollectMoney, AtDoor(StatusDoor(IsPaid)), SaveStatus(IsPaid));
    CashEffect(o);
    if OnCash(o) {
      var q := o.(ledger := [Collected(o)]);
      assert Go(p, CollectMoney) == Process(q, ENOUGH - 1, false);
      if StatusDoor(IsPaid) in o.shop.answered {
        assert o.shop.answered[StatusDoor(IsPaid) := Fine] == o.shop.answered;
      } else {
        DoorOpens(q, ENOUGH - 1, StatusDoor(IsPaid));
      }
    }
  }

  lemma {:induction false} CollectKeepsStep(o: Order, stock: int)
    requires InStep(o, stock)
    ensures InStep(Step(o, Collect, ENOUGH), stock)
  {
    CollectSequence(o);
  }

  lemma {:induction false} PaymentSequence(o: Order, record: ProviderRecord)
    requires Shaped(o) && OnRail(o) && o.ledger == [Reserved(o)] && o.row.totalMinor > 0
    requires o.row.linkOnRow && o.row.status == Confirmed && o.shop.hold == Held
    requires CommitDoor !in o.shop.answered && StatusDoor(IsPaid) !in o.shop.answered
    requires Reconciles(TermsOf(o), record)
    ensures Step(o, Deliver(record), ENOUGH)
      == PaidFrom(Through(o.(ledger := [Reserved(o), Captured(o)]), CommitDoor))
  {
    var p := Process(o, ENOUGH, false);
    ExecFour(p, SettleMoney(record), AtDoor(CommitDoor), AtDoor(StatusDoor(IsPaid)), SaveStatus(IsPaid));
    SettleEffect(o, record);
    var o1 := o.(ledger := [Reserved(o), Captured(o)]);
    assert Go(p, SettleMoney(record)) == Process(o1, ENOUGH - 1, false);
    DoorOpens(o1, ENOUGH - 1, CommitDoor);
    DoorOpens(Through(o1, CommitDoor), ENOUGH - 2, StatusDoor(IsPaid));
  }

  lemma {:induction false} FailureSequence(o: Order, record: ProviderRecord)
    requires Shaped(o) && OnRail(o)
    requires o.row.linkOnRow && o.row.status == Confirmed && StatusDoor(IsFailed) !in o.shop.answered
    requires !Reconciles(TermsOf(o), record)
    ensures Step(o, Deliver(record), ENOUGH)
      == Through(o.(ledger := LetGo(o), row := o.row.(status := IsFailed)), StatusDoor(IsFailed))
  {
    var p := Process(o, ENOUGH, false);
    ExecThree(p, SettleMoney(record), SaveStatus(IsFailed), AtDoor(StatusDoor(IsFailed)));
    SettleEffect(o, record);
    MoneyEffects(o);
    var o2 := o.(ledger := LetGo(o), row := o.row.(status := IsFailed));
    assert Go(Go(p, SettleMoney(record)), SaveStatus(IsFailed)) == Process(o2, ENOUGH - 2, false);
    DoorOpens(o2, ENOUGH - 2, StatusDoor(IsFailed));
  }

  /** A prepaid order of nothing has nothing to capture: the callback changes nothing. */
  lemma {:induction false} NothingToCapture(o: Order, record: ProviderRecord)
    requires Shaped(o) && OnRail(o) && o.row.totalMinor == 0
    requires o.row.linkOnRow && o.row.status == Confirmed && Reconciles(TermsOf(o), record)
    ensures Step(o, Deliver(record), ENOUGH) == o
  {
    var p := Process(o, ENOUGH, false);
    ExecFour(p, SettleMoney(record), AtDoor(CommitDoor), AtDoor(StatusDoor(IsPaid)), SaveStatus(IsPaid));
    SettleEffect(o, record);
  }

  lemma {:induction false} PaidStaysInStep(o: Order, stock: int)
    requires InStep(o, stock) && OnRail(o) && o.row.status == Confirmed
    ensures InStep(PaidFrom(Through(o.(ledger := [Reserved(o), Captured(o)]), CommitDoor)), stock)
  {
  }

  lemma {:induction false} FailedStaysInStep(o: Order, stock: int)
    requires InStep(o, stock) && OnRail(o) && o.row.status == Confirmed
    ensures InStep(Through(o.(ledger := LetGo(o), row := o.row.(status := IsFailed)), StatusDoor(IsFailed)), stock)
  {
  }

  lemma {:induction false} DeliverKeepsStep(o: Order, record: ProviderRecord, stock: int)
    requires InStep(o, stock)
    ensures InStep(Step(o, Deliver(record), ENOUGH), stock)
  {
    if o.row.linkOnRow && !Terminal(o.row.status) {
      assert OnRail(o) && o.row.status == Confirmed;
      if !Reconciles(TermsOf(o), record) {
        FailureSequence(o, record);
        FailedStaysInStep(o, stock);
      } else if o.row.totalMinor > 0 {
        PaymentSequence(o, record);
        PaidStaysInStep(o, stock);
      } else {
        NothingToCapture(o, record);
      }
    }
  }

  // ----- tap -----

  lemma {:induction false} TapSequence(o: Order, op: Op)
    requires Shaped(o) && op.Tap? && op.ruling.Some? && Fits(o, op)
    requires o.row.tokenOnRow && !o.spent && op.now <= o.tokenExpiresAt
    requires ReserveDoor !in o.shop.answered && StatusDoor(Confirmed) !in o.shop.answered
    ensures var spent := o.(spent := true);
      var held := Through(Through(spent, ReserveDoor), StatusDoor(Confirmed));
      var saved := held.row.(paidBy := op.paidBy, status := Confirmed, confirmedAt := Some(op.now), decision := op.ruling);
      Step(o, op, ENOUGH) ==
        if o.shop.shelf < o.shop.qty then spent.(shop := o.shop.(answered := o.shop.answered[ReserveDoor := Refuses]))
        else if op.paidBy == G.CashOnDelivery then held.(row := saved.(linkExpiresAt := None, linkOnRow := false))
        else held.(ledger := [Reserved(o)],
                   row := saved.(linkExpiresAt := Some(op.now + op.linkSeconds), linkOnRow := true))
  {
    TapUnrolled(o, op, ENOUGH);
    var spent := o.(spent := true);
    assert Go(Process(o, ENOUGH, false), SpendToken(op.now)) == Process(spent, ENOUGH - 1, false);
    if o.shop.shelf >= o.shop.qty {
      DoorOpens(spent, ENOUGH - 1, ReserveDoor);
      DoorOpens(Through(spent, ReserveDoor), ENOUGH - 2, StatusDoor(Confirmed));
      MoneyEffects(Through(Through(spent, ReserveDoor), StatusDoor(Confirmed)));
    }
  }

  /** A tap whose token is spent or late goes nowhere; one the Gate refuses only spends it. */
  lemma {:induction false} TapStopped(o: Order, op: Op)
    requires op.Tap?
    ensures !o.row.tokenOnRow || o.spent || op.now > o.tokenExpiresAt ==> Step(o, op, ENOUGH) == o
    ensures o.row.tokenOnRow && !o.spent && op.now <= o.tokenExpiresAt && op.ruling == None ==>
              Step(o, op, ENOUGH) == o.(spent := true)
  {
    if o.row.tokenOnRow {
      var p1 := Go(Process(o, ENOUGH, false), SpendToken(op.now));
      if op.ruling == None {
        assert Exec(Process(o, ENOUGH, false), [SpendToken(op.now)]) == Exec(p1, [SpendToken(op.now)][1..]);
      } else {
        TapUnrolled(o, op, ENOUGH);
      }
    }
  }

  lemma {:induction false} TapEndsInStep(o: Order, op: Op, stock: int)
    requires InStep(o, stock) && op.Tap? && op.ruling.Some? && Fits(o, op)
    requires o.row.tokenOnRow && !o.spent && op.now <= o.tokenExpiresAt
    ensures InStep(Step(o, op, ENOUGH), stock)
  {
    TapSequence(o, op);
  }

  lemma {:induction false} TapKeepsStep(o: Order, op: Op, stock: int)
    requires InStep(o, stock) && op.Tap? && Fits(o, op)
    ensures InStep(Step(o, op, ENOUGH), stock)
  {
    if o.row.tokenOnRow && !o.spent && op.now <= o.tokenExpiresAt && op.ruling.Some? {
      TapEndsInStep(o, op, stock);
    } else {
      TapStopped(o, op);
    }
  }

  // ----- every run -----

  /** Events that run to their end. */
  ghost predicate Finishes(e: Event) {
    match e
    case Does(op, budget) => budget == ENOUGH && !op.Expire?
    case Sweeps(now, budget) => budget == ENOUGH
    case ShopActs(shop) => false
  }

  lemma {:induction false} EventKeepsStep(o: Order, e: Event, stock: int)
    requires InStep(o, stock) && Finishes(e) && Allowed(o, e)
    ensures InStep(Next(o, e), stock)
  {
    match e
    case Does(op, _) =>
      match op {
        case Tap(_, _, _, _) => TapKeepsStep(o, op, stock);
        case Deliver(record) => DeliverKeepsStep(o, record, stock);
        case Cancel => CancelKeepsStep(o, stock);
        case Collect => CollectKeepsStep(o, stock);
        case Expire(_) =>
      }
    case Sweeps(now, _) => SweepKeepsStep(o, now, stock);
    case ShopActs(_) =>
  }

  lemma {:induction false} RunStaysInStep(o: Order, events: seq<Event>)
    requires Started(o) && AllAllowed(o, events)
    requires forall i :: 0 <= i < |events| ==> Finishes(events[i])
    ensures InStep(Life(o, events), o.shop.shelf)
  {
    if events == [] {
      StartsInStep(o);
    } else {
      var before, e := events[..|events| - 1], events[|events| - 1];
      RunStaysInStep(o, before);
      LedgerShapeOverEveryRun(o, before);
      assert Allowed(o, e) && Finishes(e);
      EventKeepsStep(Life(o, before), e, o.shop.shelf);
    }
  }

  /** What a reader of the row may conclude, `stock` being what was on the shelf when the
      order was started: the row says what the shop says; a prepaid order of a positive total
      holds money exactly while it is confirmed, and has been captured exactly when it is
      paid; cash is never held; and what left the shelf is what the order still holds or has
      sold. */
  ghost predicate RowTellsAll(q: Order, stock: int) {
    && q.row.status == q.shop.status
    && (OnRail(q) && q.row.totalMinor > 0 ==>
          && (OpenHolds(q.ledger) > 0 <==> q.row.status == Confirmed)
          && (Sum(q.ledger, CAPTURE) > 0 <==> q.row.status == IsPaid))
    && (!OnRail(q) ==> OpenHolds(q.ledger) == 0)
    && (q.row.status == Confirmed ==> q.shop.hold == Held)
    && (q.row.status == Expired ==> q.shop.hold in {NoHold, Released})
    && q.shop.shelf + Out(q.shop) == stock
    && q.shop.shelf >= 0
  }

  lemma {:induction false} InStepTells(q: Order, stock: int)
    requires InStep(q, stock)
    ensures RowTellsAll(q, stock)
  {
    if RailInStep(q) {
      RailTells(q);
    } else {
      HeldByShape(q);
    }
  }

  lemma {:induction false} RailTells(q: Order)
    requires Shaped(q) && RailInStep(q)
    ensures q.row.totalMinor > 0 ==>
      && (OpenHolds(q.ledger) > 0 <==> q.row.status == Confirmed)
      && (Sum(q.ledger, CAPTURE) > 0 <==> q.row.status == IsPaid)
  {
    HeldByShape(q);
    CapturedByShape(q);
    RailByStatus(q);
  }

  /** The Ledger's shape says what the status is. */
  lemma {:induction false} RailByStatus(q: Order)
    requires RailInStep(q) && q.ledger != []
    ensures q.row.totalMinor > 0 ==> (q.ledger == [Reserved(q)] <==> q.row.status == Confirmed)
    ensures q.ledger == [Reserved(q), Captured(q)] <==> q.row.status == IsPaid
    ensures q.ledger != [Collected(q)]
  {
    var rows := q.ledger;
    assert rows[0] == Reserved(q);
    assert q.row.status == Confirmed ==> |rows| == 1;
    assert q.row.status == IsPaid ==> |rows| == 2 && rows[1] == Captured(q);
    assert q.row.totalMinor > 0 && q.row.status in {IsFailed, Cancelled, Expired} ==> |rows| == 2 && rows[1] == Let(q);
  }

  /** In every run of start, tap, complete, cancel, collect and sweep that is not cut short,
      the row tells all, and the total is the one fixed at the start. */
  lemma {:induction false} EveryRunStaysInStep(o: Order, events: seq<Event>)
    requires Started(o) && AllAllowed(o, events)
    requires forall i :: 0 <= i < |events| ==> Finishes(events[i])
    ensures RowTellsAll(Life(o, events), o.shop.shelf)
    ensures Life(o, events).row.totalMinor == o.row.totalMinor
  {
    RunStaysInStep(o, events);
    LedgerShapeOverEveryRun(o, events);
    InStepTells(Life(o, events), o.shop.shelf);
  }

  lemma {:induction false} CapturedByShape(o: Order)
    requires Shaped(o)
    ensures Sum(o.ledger, CAPTURE) == if o.ledger == [Reserved(o), Captured(o)] || o.ledger == [Collected(o)] then o.row.totalMinor else 0
  {
    SumOne(Reserved(o));
    SumOne(Collected(o));
    SumSnocs([Reserved(o)], Let(o));
    SumSnocs([Reserved(o)], Captured(o));
    assert [Reserved(o)] + [Let(o)] == [Reserved(o), Let(o)];
    assert [Reserved(o)] + [Captured(o)] == [Reserved(o), Captured(o)];
  }
}
