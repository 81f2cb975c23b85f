/** Every life of an order, wherever its operations die, and what a full cancel or expiry
    closes in each. */
module MoneyLives {
  import opened Wrappers
  import opened Sums
  import opened Transcript
  import opened Ledger
  import opened Settlement
  import opened Money
  import opened MoneySafety
  import opened MoneyRuns
  import opened MoneyCrash
  import opened Sweeper
  import G = Gate

  // ----- what can happen -----

  /** Any operation, dying anywhere; any sweep; and staff moving the status at the shop, who
      confirm nothing that holds no stock. */
  ghost predicate Happens(o: Order, e: Event) {
    match e
    case Does(op, _) => Fits(o, op) && !op.Expire?
    case Sweeps(_, _) => true
    case ShopActs(s) => s == o.shop.(status := s.status) && (s.status == Confirmed ==> o.shop.hold != NoHold)
  }

  ghost predicate AllHappen(o: Order, events: seq<Event>) {
    forall i :: 0 <= i < |events| ==> Happens(Life(o, events[..i]), events[i])
  }

  /** What every such life keeps: each door's answer is still true of the hold, the units are
      all accounted for, and nothing is confirmed, decided or reserved in money without a
      stock hold having been taken. */
  ghost predicate Lived(o: Order, stock: int) {
    var a, h := o.shop.answered, o.shop.hold;
    && Shaped(o)
    && o.shop.shelf >= 0 && o.shop.shelf + Out(o.shop) == stock
    && (ReleaseDoor in a ==> (a[ReleaseDoor] == Fine && h == Released) || (a[ReleaseDoor] == Refuses && h == Committed))
    && (CommitDoor in a && a[CommitDoor] == Fine ==> h == Committed)
    && (h == Committed ==> o.ledger == [Reserved(o), Captured(o)])
    && (h == NoHold ==> Untouched(o))
    && (h != NoHold ==> ReserveDoor in a)
    && (!o.spent ==> h == NoHold && ReserveDoor !in a)
    && (forall t :: StatusDoor(t) in a ==> a[StatusDoor(t)] == Fine)
  }

  predicate Untouched(o: Order) {
    && ReleaseDoor !in o.shop.answered && CommitDoor !in o.shop.answered
    && o.row.status != Confirmed && o.shop.status != Confirmed && o.row.decision == None && o.ledger == []
  }

  lemma {:induction false} StartsLived(o: Order)
    requires Started(o)
    ensures Lived(o, o.shop.shelf)
  {
  }

  // ----- one effect -----

  /** Effects outside the tap, each where the code performs it. */
  ghost predicate Safe(o: Order, e: Effect) {
    match e
    case AtDoor(ReserveDoor) => false
    case AtDoor(ReleaseDoor) => o.shop.hold != NoHold
    case AtDoor(CommitDoor) => o.ledger == [Reserved(o), Captured(o)]
    case AtDoor(StatusDoor(t)) => t != Confirmed
    case SettleMoney(_) => o.row.decision.Some?
    case SaveStatus(s) => s != Confirmed
    case SaveClosed(s, _) => s != Confirmed
    case Resync => true
    case ReleaseMoney => true
    case CollectMoney => true
    case CancelLink => true
    case _ => false
  }

  /** The four money effects leave the shop alone, a captured Ledger as it is, and an empty
      one empty unless there is a decision. */
  lemma {:induction false} MoneySpares(o: Order, e: Effect)
    requires Shaped(o) && (e.SettleMoney? || e.ReleaseMoney? || e.CollectMoney?)
    requires e.SettleMoney? ==> o.row.decision.Some?
    ensures var q := Perform(o, e).0;
      && q == o.(ledger := q.ledger)
      && (o.ledger == [Reserved(o), Captured(o)] ==> q.ledger == o.ledger)
      && (o.row.decision == None && o.ledger == [] ==> q.ledger == [])
  {
    ReleaseEffect(o);
    CashEffect(o);
    if e.SettleMoney? { SettleEffect(o, e.record); }
  }

  lemma {:induction false} DoorKeepsLived(o: Order, d: Door, stock: int)
    requires Lived(o, stock) && Safe(o, AtDoor(d))
    ensures Lived(Perform(o, AtDoor(d)).0, stock)
  {
    assert Perform(o, AtDoor(d)).0 == o.(shop := CallDoor(o.shop, d).0);
    assert Shaped(o.(shop := CallDoor(o.shop, d).0));
  }

  lemma {:induction false} MoneyKeepsLived(o: Order, e: Effect, stock: int)
    requires Lived(o, stock) && Safe(o, e) && (e.SettleMoney? || e.ReleaseMoney? || e.CollectMoney?)
    ensures Lived(Perform(o, e).0, stock)
  {
    MoneySpares(o, e);
    EffectKeepsShape(o, e);
  }

  lemma {:induction false} EffectKeepsLived(o: Order, e: Effect, stock: int)
    requires Lived(o, stock) && Safe(o, e)
    ensures Lived(Perform(o, e).0, stock)
  {
    match e
    case AtDoor(d) => DoorKeepsLived(o, d, stock);
    case SettleMoney(_) => MoneyKeepsLived(o, e, stock);
    case ReleaseMoney => MoneyKeepsLived(o, e, stock);
    case CollectMoney => MoneyKeepsLived(o, e, stock);
    case _ => EffectKeepsShape(o, e);
  }

  /** What is safe stays safe: a hold once taken is never untaken, a capture never undone. */
  lemma {:induction false} SafeStays(o: Order, e: Effect, f: Effect, stock: int)
    requires Lived(o, stock) && Safe(o, e) && Safe(o, f)
    ensures Safe(Perform(o, e).0, f)
  {
    if e.SettleMoney? || e.ReleaseMoney? || e.CollectMoney? { MoneySpares(o, e); }
  }

  lemma {:induction false} ExecKeepsLived(p: Process, es: seq<Effect>, stock: int)
    requires Lived(p.order, stock) && forall e :: e in es ==> Safe(p.order, e)
    ensures Lived(Exec(p, es).order, stock)
    decreases |es|
  {
    if es != [] {
      var q := Go(p, es[0]);
      assert es[0] in es;
      if p.stopped || p.budget == 0 {
        assert q.order == p.order;
      } else {
        EffectKeepsLived(p.order, es[0], stock);
        forall e | e in es[1..] ensures Safe(q.order, e) { SafeStays(p.order, es[0], e, stock); }
      }
      ExecKeepsLived(q, es[1..], stock);
    }
  }

  // ----- operations that die anywhere -----

  lemma {:induction false} CloseKeepsLived(o: Order, op: Op, budget: nat, stock: int)
    requires Lived(o, stock)
    requires op == Cancel || (op.Expire? && (op.releasesStock ==> o.row.status == Confirmed))
    ensures Lived(Step(o, op, budget), stock)
  {
    forall e | e in Plan(o, op) ensures Safe(o, e) { }
    ExecKeepsLived(Process(o, budget, false), Plan(o, op), stock);
  }

  lemma {:induction false} CollectKeepsLived(o: Order, budget: nat, stock: int)
    requires Lived(o, stock)
    ensures Lived(Step(o, Collect, budget), stock)
  {
    forall e | e in Plan(o, Collect) ensures Safe(o, e) { }
    ExecKeepsLived(Process(o, budget, false), Plan(o, Collect), stock);
  }

  /** Door 4 is asked only once the money is captured. */
  lemma {:induction false} DeliverKeepsLived(o: Order, record: ProviderRecord, budget: nat, stock: int)
    requires Lived(o, stock)
    ensures Lived(Step(o, Deliver(record), budget), stock)
  {
    var es := Plan(o, Deliver(record));
    if es != [] {
      var p := Process(o, budget, false);
      var q := Go(p, es[0]);
      SettleEffect(o, record);
      if budget > 0 { EffectKeepsLived(o, es[0], stock); }
      if q.stopped {
        StoppedIsStopped(q, es[1..]);
      } else {
        forall e | e in es[1..] ensures Safe(q.order, e) { }
        ExecKeepsLived(q, es[1..], stock);
      }
    }
  }

  /** A tap between its writes: past its token, with nothing decided or reserved in money. */
  ghost predicate MidTap(p: Process, stock: int) {
    && Lived(p.order, stock)
    && (!p.stopped ==> p.order.spent && p.order.ledger == [] && p.order.row.decision == None)
  }

  lemma {:induction false} TapSpends(o: Order, now: int, budget: nat, stock: int)
    requires Lived(o, stock)
    ensures var q := Go(Process(o, budget, false), SpendToken(now));
      MidTap(q, stock) && (!q.stopped ==> ReserveDoor !in q.order.shop.answered)
  {
    StartOfTap(o, now, budget);
  }

  lemma {:induction false} TapReserves(p: Process, stock: int)
    requires MidTap(p, stock) && (!p.stopped ==> ReserveDoor !in p.order.shop.answered)
    ensures var q := Go(p, AtDoor(ReserveDoor));
      MidTap(q, stock) && (!q.stopped ==> q.order.shop.hold == Held)
  {
    var q := Go(p, AtDoor(ReserveDoor));
    if q.order != p.order { assert Shaped(q.order); }
  }

  lemma {:induction false} TapConfirms(p: Process, stock: int)
    requires MidTap(p, stock) && (!p.stopped ==> p.order.shop.hold == Held)
    ensures var q := Go(p, AtDoor(StatusDoor(Confirmed)));
      MidTap(q, stock) && (!q.stopped ==> q.order.shop.hold == Held)
  {
    var q := Go(p, AtDoor(StatusDoor(Confirmed)));
    if q.order != p.order { assert Shaped(q.order); }
  }

  lemma {:induction false} TapHoldsMoney(p: Process, stock: int)
    requires MidTap(p, stock) && (!p.stopped ==> p.order.shop.hold == Held)
    ensures var q := Go(p, HoldMoney);
      && Lived(q.order, stock) && q.order.id == p.order.id
      && (!q.stopped ==> q.order.shop.hold == Held && q.order.spent && q.order.ledger == [Reserved(q.order)] && q.order.row.decision == None)
  {
    if !p.stopped && p.budget > 0 { HoldEffect(p.order); }
  }

  /** The save that ends a tap, on what the tap holds by then. */
  lemma {:induction false} TapSaves(p: Process, op: Op, expires: Option<int>, stock: int)
    requires Lived(p.order, stock) && op.Tap? && op.ruling.Some? && Fits(p.order, op)
    requires !p.stopped ==> p.order.spent && p.order.shop.hold == Held && p.order.row.decision == None
    requires !p.stopped ==> p.order.ledger == if op.paidBy == G.CashOnDelivery then [] else [Reserved(p.order)]
    ensures Lived(Go(p, SaveConfirmed(op.paidBy, op.now, expires, op.ruling.value)).order, stock)
  {
    var q := Go(p, SaveConfirmed(op.paidBy, op.now, expires, op.ruling.value)).order;
    if q != p.order { assert Shaped(q); }
  }

  lemma {:induction false} TapKeepsLived(o: Order, op: Op, budget: nat, stock: int)
    requires Lived(o, stock) && op.Tap? && Fits(o, op)
    ensures Lived(Step(o, op, budget), stock)
  {
    if o.row.tokenOnRow {
      var p0 := Process(o, budget, false);
      TapSpends(o, op.now, budget, stock);
      var p1 := Go(p0, SpendToken(op.now));
      if op.ruling == None {
        assert Exec(p0, [SpendToken(op.now)]) == Exec(p1, [SpendToken(op.now)][1..]);
      } else {
        TapReserves(p1, stock);
        var p2 := Go(p1, AtDoor(ReserveDoor));
        TapConfirms(p2, stock);
        var p3 := Go(p2, AtDoor(StatusDoor(Confirmed)));
        assert p3.order.id == o.id;
        TapUnrolled(o, op, budget);
        if op.paidBy == G.CashOnDelivery {
          TapSaves(p3, op, None, stock);
        } else {
          TapHoldsMoney(p3, stock);
          TapSaves(Go(p3, HoldMoney), op, Some(op.now + op.linkSeconds), stock);
        }
      }
    }
  }

  lemma {:induction false} SweepKeepsLived(o: Order, now: int, budget: nat, stock: int)
    requires Lived(o, stock)
    ensures Lived(SweepOne(o, now, budget).0, stock)
  {
    EffectKeepsLived(o, Resync, stock);
    var synced := Perform(o, Resync).0;
    ExpiryKeepsLived(synced, synced.row.status == Confirmed, budget, stock);
    SweepShape(o, now, budget);
  }

  lemma {:induction false} ExpiryKeepsLived(o: Order, releasesStock: bool, budget: nat, stock: int)
    requires Lived(o, stock) && (releasesStock ==> o.row.status == Confirmed)
    ensures var q := Exec(Process(o, budget, false), Plan(o, Expire(releasesStock))).order;
      Lived(q, stock) && Lived(Perform(q, Resync).0, stock)
  {
    CloseKeepsLived(o, Expire(releasesStock), budget, stock);
    EffectKeepsLived(Step(o, Expire(releasesStock), budget), Resync, stock);
  }

  lemma {:induction false} EventKeepsLived(o: Order, e: Event, stock: int)
    requires Lived(o, stock) && Happens(o, e)
    ensures Lived(Next(o, e), stock)
  {
    match e
    case Does(op, budget) =>
      match op {
        case Tap(_, _, _, _) => TapKeepsLived(o, op, budget, stock);
        case Deliver(record) => DeliverKeepsLived(o, record, budget, stock);
        case Cancel => CloseKeepsLived(o, op, budget, stock);
        case Collect => CollectKeepsLived(o, budget, stock);
        case Expire(_) =>
      }
    case Sweeps(now, budget) => SweepKeepsLived(o, now, budget, stock);
    case ShopActs(s) => assert Shaped(o.(shop := s));
  }

  /** Over every life, wherever its operations die: the doors' answers stay true, and the units
      off the shelf are the ones this order holds or has sold, taken once and given back once. */
  lemma {:induction false} EveryLifeIsLived(o: Order, events: seq<Event>)
    requires Started(o) && AllHappen(o, events)
    ensures Lived(Life(o, events), o.shop.shelf)
  {
    if events == [] {
      StartsLived(o);
    } else {
      var n := |events| - 1;
      var before := events[..n];
      forall i | 0 <= i < n ensures Happens(Life(o, before[..i]), before[i]) {
        assert before[..i] == events[..i] && Happens(Life(o, events[..i]), events[i]);
      }
      EveryLifeIsLived(o, before);
      assert Happens(Life(o, events[..n]), events[n]);
      EventKeepsLived(Life(o, before), events[n], o.shop.shelf);
    }
  }

  // ----- what a full cancel or expiry closes -----

  /** A plan that moves statuses and the link leaves stock and money as they are. */
  predicate StatusOnly(e: Effect) {
    (e.AtDoor? && e.door.StatusDoor?) || e.CancelLink? || e.SaveClosed? || e.Resync?
  }

  lemma {:induction false} StatusOnlySpares(p: Process, es: seq<Effect>)
    requires forall e :: e in es ==> StatusOnly(e)
    ensures Exec(p, es).order.shop.hold == p.order.shop.hold && Exec(p, es).order.ledger == p.order.ledger
    decreases |es|
  {
    if es != [] {
      assert es[0] in es;
      StatusOnlySpares(Go(p, es[0]), es[1..]);
    }
  }

  lemma {:induction false} StockGivesBack(o: Order, stock: int)
    requires Lived(o, stock) && o.shop.hold != NoHold
    ensures var (q, goesOn) := Perform(o, AtDoor(ReleaseDoor));
      && Shaped(q) && q.shop.status == o.shop.status && q.ledger == o.ledger
      && (goesOn ==> q.shop.hold == Released)
      && (!goesOn ==> q.shop.hold == Committed && q.ledger == [Reserved(q), Captured(q)])
  {
    DoorKeepsLived(o, ReleaseDoor, stock);
  }

  lemma {:induction false} MoneyGivesBack(o: Order)
    requires Shaped(o)
    ensures var q := Perform(o, ReleaseMoney).0;
      OpenHolds(q.ledger) == 0 && q.shop == o.shop
    ensures o.ledger == [Reserved(o), Captured(o)] ==> OpenHolds(o.ledger) == 0
  {
    ReleaseEffect(o);
    HeldByShape(o);
    EffectKeepsShape(o, ReleaseMoney);
    HeldByShape(Perform(o, ReleaseMoney).0);
  }

  /** The two writes that give back, on any lived order that holds or has sold something. */
  lemma {:induction false} GivesBack(o: Order, budget: nat, stock: int)
    requires Lived(o, stock) && o.shop.hold != NoHold
    ensures var q := Go(Go(Process(o, budget, false), AtDoor(ReleaseDoor)), ReleaseMoney);
      && q.order.shop.status == o.shop.status
      && (budget >= 2 ==> HoldsClosed(q.order))
      && (budget < 2 ==> q.stopped)
  {
    StockGivesBack(o, stock);
    MoneyGivesBack(Perform(o, AtDoor(ReleaseDoor)).0);
  }

  /** A close that dies anywhere: from a confirmed row the shop's status does not move before
      stock and money are given back; from any other row they are never touched. */
  lemma {:induction false} CloseExactly(o: Order, op: Op, budget: nat, stock: int)
    requires Lived(o, stock)
    requires op == Cancel || (op.Expire? && (op.releasesStock <==> o.row.status == Confirmed))
    ensures var q := Step(o, op, budget);
      && (o.row.status == Confirmed ==> q.shop.status == o.shop.status || HoldsClosed(q))
      && (o.row.status == Confirmed && budget >= 2 ==> HoldsClosed(q))
      && (o.row.status != Confirmed ==> (HoldsClosed(q) <==> HoldsClosed(o)))
  {
    var p := Process(o, budget, false);
    var es := Plan(o, op);
    if o.row.status == Confirmed {
      GivesBack(o, budget, stock);
      var q := Go(Go(p, AtDoor(ReleaseDoor)), ReleaseMoney);
      assert es[0] == AtDoor(ReleaseDoor) && es[1..][0] == ReleaseMoney;
      assert Exec(p, es) == Exec(q, es[1..][1..]);
      forall e | e in es[1..][1..] ensures StatusOnly(e) { }
      StatusOnlySpares(q, es[1..][1..]);
      if q.stopped { StoppedIsStopped(q, es[1..][1..]); }
    } else {
      forall e | e in es ensures StatusOnly(e) { }
      StatusOnlySpares(p, es);
    }
  }

  /** Over every life: a cancel that runs to its end leaves stock and money closed if and only
      if the row was confirmed, or nothing was held, when the call came; and so does the
      expiry of a row that can expire. */
  lemma {:induction false} ClosesExactly(o: Order, events: seq<Event>, op: Op)
    requires Started(o) && AllHappen(o, events)
    requires var q := Life(o, events);
      op == Cancel || (op.Expire? && q.row.status in {Pending, Confirmed} && (op.releasesStock <==> q.row.status == Confirmed))
    ensures var q := Life(o, events);
      HoldsClosed(Step(q, op, ENOUGH)) <==> q.row.status == Confirmed || HoldsClosed(q)
  {
    EveryLifeIsLived(o, events);
    CloseExactly(Life(o, events), op, ENOUGH, o.shop.shelf);
  }

  // ----- a tap that dies -----

  /** What a tap leaves when it dies after its stock hold, after the shop's status, and, when
      prepaid, after its money hold. The row still says pending. */
  function Tapped(o: Order, writes: nat): Order {
    var spent := o.(spent := true);
    var held := Through(spent, ReserveDoor);
    if writes <= 2 then held
    else if writes == 3 then Through(held, StatusDoor(Confirmed))
    else Through(held, StatusDoor(Confirmed)).(ledger := [Reserved(o)])
  }

  lemma {:induction false} DeadTap(o: Order, now: int, paidBy: G.Method, ruling: Body, linkSeconds: int, writes: nat)
    requires Started(o) && now <= o.tokenExpiresAt && o.shop.shelf >= o.shop.qty
    requires 2 <= writes <= if paidBy == G.CashOnDelivery then 3 else 4
    ensures Step(o, Tap(now, paidBy, Some(ruling), linkSeconds), writes) == Tapped(o, writes)
  {
    TapUnrolled(o, Tap(now, paidBy, Some(ruling), linkSeconds), writes);
    var spent := o.(spent := true);
    assert Go(Process(o, writes, false), SpendToken(now)) == Process(spent, writes - 1, false);
    DoorOpens(spent, writes - 1, ReserveDoor);
    var held := Through(spent, ReserveDoor);
    if writes > 2 { DoorOpens(held, writes - 2, StatusDoor(Confirmed)); }
    if writes > 3 { HoldEffect(Through(held, StatusDoor(Confirmed))); }
  }

  /** The code's comment has it that only a confirmed order ever took a hold. A tap that died
      after door 3 took one while the row says pending, and a full cancel or expiry then tells
      the shop the order is over with the stock, and the money if it got that far, still held. */
  lemma {:induction false} DeadTapKeepsItsHold(o: Order, now: int, paidBy: G.Method, ruling: Body, linkSeconds: int, writes: nat, op: Op)
    requires Started(o) && now <= o.tokenExpiresAt && o.shop.shelf >= o.shop.qty
    requires 2 <= writes <= if paidBy == G.CashOnDelivery then 3 else 4
    requires op in {Cancel, Expire(false)}
    ensures var tapped := Step(o, Tap(now, paidBy, Some(ruling), linkSeconds), writes);
      var q := Step(tapped, op, ENOUGH);
      && tapped.row.status == Pending
      && q.row.status == q.shop.status == (if op == Cancel then Cancelled else Expired)
      && q.shop.hold == Held && q.shop.shelf == o.shop.shelf - o.shop.qty && !HoldsClosed(q)
      && (writes == 4 ==> OpenHolds(q.ledger) == o.row.totalMinor)
  {
    DeadTap(o, now, paidBy, ruling, linkSeconds, writes);
    var tapped := Tapped(o, writes);
    var to := if op == Cancel then Cancelled else Expired;
    StatusMoved(tapped, to, op != Cancel, ENOUGH);
    ExecThree(Process(tapped, ENOUGH, false), AtDoor(StatusDoor(to)), CancelLink, SaveClosed(to, op != Cancel));
    SumOne(Reserved(o));
  }

  /** And for good: once both sides say it is over, no cancel or sweep gives that
      stock back, however often it comes and wherever it dies. */
  lemma {:induction false} OverIsOver(o: Order, events: seq<Event>)
    requires o.row.status in {Cancelled, Expired} && o.row.decision == None && o.shop.hold == Held
    requires forall i :: 0 <= i < |events| ==> Attempt(events[i])
    ensures var q := Life(o, events);
      q.shop.hold == Held && q.shop.shelf == o.shop.shelf && q.row.status in {Cancelled, Expired} && q.row.decision == None
  {
    if events != [] {
      var n := |events| - 1;
      var q := Life(o, events[..n]);
      OverIsOver(o, events[..n]);
      assert Attempt(events[n]);
      if events[n].Does? {
        var p, es := Process(q, events[n].budget, false), Plan(q, Cancel);
        StatusOnlyRuns(p, es);
      }
    }
  }

  lemma {:induction false} StatusOnlyRuns(p: Process, es: seq<Effect>)
    requires forall e :: e in es ==> StatusOnly(e) && !e.Resync? && (e.SaveClosed? ==> e.status in {Cancelled, Expired})
    ensures var q := Exec(p, es).order;
      && q.shop.hold == p.order.shop.hold && q.shop.shelf == p.order.shop.shelf && q.row.decision == p.order.row.decision
      && (p.order.row.status in {Cancelled, Expired} ==> q.row.status in {Cancelled, Expired})
    decreases |es|
  {
    if es != [] {
      assert es[0] in es;
      StatusOnlyRuns(Go(p, es[0]), es[1..]);
    }
  }

  // ----- one turn of a sweep, on any lived order -----

  /** Past a deadline now, and past one that expires it once corrected from the shop. */
  predicate StillDue(o: Order, now: int) {
    var action := ActionFor(o.row, now);
    action.Ok? && action.value.Some? && Overdue(o.row.(status := o.shop.status), now)
  }

  lemma {:induction false} TurnUnfolds(o: Order, now: int)
    requires !SweepOne(o, now, ENOUGH).1
    ensures !StillDue(o, now) ==>
      SweepOne(o, now, ENOUGH).0 in {o, Perform(o, Resync).0} && !Overdue(SweepOne(o, now, ENOUGH).0.row, now)
    ensures var synced := Perform(o, Resync).0;
      var p := Exec(Process(synced, ENOUGH, false), Plan(synced, Expire(synced.row.status == Confirmed)));
      StillDue(o, now) ==>
        SweepOne(o, now, ENOUGH).0 == if p.stopped && p.budget > 0 then Perform(p.order, Resync).0 else p.order
    ensures StillDue(o, now) ==> o.shop.status in {Pending, Confirmed}
  {
  }

  /** What one turn leaves of an order: stock and money are touched only where the order is due
      on both counts, and are then closed if and only if the shop said confirmed or nothing was
      held; the Provider's link is cancelled where the row expires; and the row stays overdue
      only where the shop has sold the stock and still says confirmed. */
  ghost predicate TurnLeaves(o: Order, q: Order, now: int) {
    && (!StillDue(o, now) ==> q.shop == o.shop && q.ledger == o.ledger)
    && (StillDue(o, now) ==> (HoldsClosed(q) <==> o.shop.status == Confirmed || HoldsClosed(o)))
    && (StillDue(o, now) && q.row.status == Expired && o.row.linkOnRow ==> q.linkCancelled)
    && (Overdue(q.row, now) <==> StillDue(o, now) && o.shop.status == Confirmed && o.shop.hold == Committed)
  }

  lemma {:induction false} TurnExactly(o: Order, now: int, stock: int)
    requires Lived(o, stock) && !SweepOne(o, now, ENOUGH).1
    ensures Lived(SweepOne(o, now, ENOUGH).0, stock)
    ensures TurnLeaves(o, SweepOne(o, now, ENOUGH).0, now)
  {
    SweepKeepsLived(o, now, ENOUGH, stock);
    TurnUnfolds(o, now);
    if StillDue(o, now) { DueTurn(o, now, stock); }
  }

  lemma {:induction false} DueTurn(o: Order, now: int, stock: int)
    requires Lived(o, stock) && StillDue(o, now) && o.shop.status in {Pending, Confirmed}
    ensures var synced := Perform(o, Resync).0;
      var p := Exec(Process(synced, ENOUGH, false), Plan(synced, Expire(synced.row.status == Confirmed)));
      TurnLeaves(o, if p.stopped && p.budget > 0 then Perform(p.order, Resync).0 else p.order, now)
  {
    EffectKeepsLived(o, Resync, stock);
    var synced := Perform(o, Resync).0;
    CloseExactly(synced, Expire(synced.row.status == Confirmed), ENOUGH, stock);
    ExpiryEnds(synced, stock);
  }

  /** A pass over any lived orders, whatever died before it, that does not raise. */
  lemma {:induction false} PassExactly(orders: seq<Order>, stocks: seq<int>, now: int)
    requires |stocks| == |orders| && forall i :: 0 <= i < |orders| ==> Lived(orders[i], stocks[i])
    requires !Pass(orders, now).1
    ensures var after := Pass(orders, now).0;
      && |after| == |orders|
      && forall i :: 0 <= i < |orders| ==> Lived(after[i], stocks[i]) && TurnLeaves(orders[i], after[i], now)
  {
    PassRaisesExactly(orders, now);
    forall i | 0 <= i < |orders|
      ensures Lived(Pass(orders, now).0[i], stocks[i]) && TurnLeaves(orders[i], Pass(orders, now).0[i], now)
    {
      TurnRaisesExactly(orders[i], now, ENOUGH);
      TurnExactly(orders[i], now, stocks[i]);
    }
  }

  /** A whole expiry ends in an expired row, unless the shop has sold the stock and refuses. */
  lemma {:induction false} ExpiryEnds(o: Order, stock: int)
    requires Lived(o, stock) && o.row.status == o.shop.status && o.row.status in {Pending, Confirmed}
    ensures var p := Exec(Process(o, ENOUGH, false), Plan(o, Expire(o.row.status == Confirmed)));
      && (p.stopped <==> o.row.status == Confirmed && o.shop.hold == Committed)
      && (p.stopped ==> p.budget > 0 && p.order.shop.status == o.shop.status && p.order.row == o.row)
      && (!p.stopped ==> p.order.row.status == Expired && (o.row.linkOnRow ==> p.order.linkCancelled))
  {
    var p := Process(o, ENOUGH, false);
    if o.row.status == Confirmed {
      ExecFive(p, AtDoor(ReleaseDoor), ReleaseMoney, AtDoor(StatusDoor(Expired)), CancelLink, SaveClosed(Expired, true));
      StockGivesBack(o, stock);
    } else {
      ExecThree(p, AtDoor(StatusDoor(Expired)), CancelLink, SaveClosed(Expired, true));
    }
  }
}
