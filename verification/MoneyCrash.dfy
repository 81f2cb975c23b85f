/** Crash safety of `cancel` and `expire`: whatever prefix of their effects happened, however
    often, nothing is closed at the shop before its holds are, nothing goes back twice, and
    running again to the end finishes the job. */
module MoneyCrash {
  import opened Wrappers
  import opened Sums
  import opened Transcript
  import opened Ledger
  import opened Settlement
  import opened Money
  import opened MoneySafety
  import opened MoneyRuns
  import G = Gate

  // ----- dying is stopping at a prefix -----

  predicate AllGoOn(o: Order, es: seq<Effect>)
    decreases |es|
  {
    es == [] || (Perform(o, es[0]).1 && AllGoOn(Perform(o, es[0]).0, es[1..]))
  }

  /** The order after exactly `k` effects. */
  function Reach(o: Order, es: seq<Effect>, k: nat): Order
    requires k <= |es|
    decreases k
  {
    if k == 0 then o else Reach(Perform(o, es[0]).0, es[1..], k - 1)
  }

  lemma {:induction false} StoppedIsStopped(p: Process, es: seq<Effect>)
    requires p.stopped
    ensures Exec(p, es) == p
    decreases |es|
  {
    if es != [] { StoppedIsStopped(Go(p, es[0]), es[1..]); }
  }

  lemma {:induction false} BudgetIsPrefix(o: Order, es: seq<Effect>, budget: nat)
    requires AllGoOn(o, es)
    ensures var k := if budget < |es| then budget else |es|;
      && Exec(Process(o, budget, false), es).order == Reach(o, es, k)
      && (Exec(Process(o, budget, false), es).stopped <==> budget < |es|)
      && (budget < |es| ==> Exec(Process(o, budget, false), es).budget == 0)
    decreases |es|
  {
    if es != [] {
      if budget == 0 {
        StoppedIsStopped(Go(Process(o, budget, false), es[0]), es[1..]);
      } else {
        BudgetIsPrefix(Perform(o, es[0]).0, es[1..], budget - 1);
      }
    }
  }

  // ----- orders that are being closed -----

  /** The closing doors answer, and what they answered is still so. */
  ghost predicate DoorsOpen(o: Order) {
    var a := o.shop.answered;
    && (ReleaseDoor in a <==> o.shop.hold == Released)
    && (ReleaseDoor in a ==> a[ReleaseDoor] == Fine)
    && (StatusDoor(Cancelled) in a ==> a[StatusDoor(Cancelled)] == Fine && o.shop.status == Cancelled)
    && (StatusDoor(Expired) in a ==> a[StatusDoor(Expired)] == Fine && o.shop.status in {Expired, Cancelled})
  }

  /** Nothing was ever held. */
  ghost predicate ClosingEmpty(o: Order) {
    && o.row.decision == None && o.ledger == [] && o.shop.hold == NoHold && !o.row.linkOnRow
    && o.row.status in {Pending, Cancelled, Expired}
    && o.shop.status in {Pending, Cancelled, Expired}
  }

  /** Stock first, then money, then the shop's status, then the row. */
  ghost predicate ClosingHeld(o: Order) {
    && o.row.decision.Some? && o.row.confirmedAt.Some?
    && o.row.status in {Confirmed, Cancelled, Expired}
    && o.shop.status in {Confirmed, Cancelled, Expired}
    && o.shop.hold in {Held, Released}
    && (OnCash(o) ==> o.ledger == [])
    && (OnRail(o) ==> o.ledger in [[Reserved(o)], [Reserved(o), Let(o)]])
    && (o.shop.hold == Held ==> OpenHolds(o.ledger) == if OnRail(o) then o.row.totalMinor else 0)
    && (o.row.status != Confirmed || o.shop.status != Confirmed ==> o.shop.hold == Released && OpenHolds(o.ledger) == 0)
  }

  ghost predicate Closing(o: Order, stock: int) {
    && Shaped(o) && DoorsOpen(o)
    && o.shop.shelf + Out(o.shop) == stock
    && (ClosingEmpty(o) || ClosingHeld(o))
  }

  lemma {:induction false} InStepIsClosing(o: Order, stock: int)
    requires InStep(o, stock) && o.row.status in {Pending, Confirmed}
    ensures Closing(o, stock)
  {
    HeldByShape(o);
  }

  function HeldPlan(to: Status, dropLink: bool): seq<Effect> {
    [AtDoor(ReleaseDoor), ReleaseMoney, AtDoor(StatusDoor(to)), CancelLink, SaveClosed(to, dropLink)]
  }

  function EmptyPlan(to: Status, dropLink: bool): seq<Effect> {
    [AtDoor(StatusDoor(to)), CancelLink, SaveClosed(to, dropLink)]
  }

  lemma {:induction false} ReleaseStage(o: Order, stock: int)
    requires Closing(o, stock) && ClosingHeld(o) && o.row.status == Confirmed
    ensures var (q, goesOn) := Perform(o, AtDoor(ReleaseDoor));
      goesOn && Closing(q, stock) && ClosingHeld(q) && q.shop.hold == Released && q.row == o.row
      && q.shop.status == o.shop.status
  {
  }

  lemma {:induction false} MoneyStage(o: Order, stock: int)
    requires Closing(o, stock) && ClosingHeld(o) && o.row.status == Confirmed && o.shop.hold == Released
    ensures var (q, goesOn) := Perform(o, ReleaseMoney);
      goesOn && Closing(q, stock) && ClosingHeld(q) && OpenHolds(q.ledger) == 0 && q.row == o.row && q.shop == o.shop
  {
    ReleaseEffect(o);
    if o.ledger == [Reserved(o)] && o.row.totalMinor > 0 {
      LetGo(o, stock);
    } else {
      HeldByShape(o);
    }
  }

  lemma {:induction false} LetGo(o: Order, stock: int)
    requires Closing(o, stock) && ClosingHeld(o) && o.shop.hold == Released && o.ledger == [Reserved(o)]
    ensures var q := o.(ledger := [Reserved(o), Let(o)]);
      Closing(q, stock) && ClosingHeld(q) && OpenHolds(q.ledger) == 0
  {
    var q := o.(ledger := [Reserved(o), Let(o)]);
    HeldByShape(q);
    assert |q.ledger| == 2;
  }

  /** Closed on every side that can be closed. */
  ghost predicate HoldsClosed(o: Order) {
    o.shop.hold != Held && OpenHolds(o.ledger) == 0
  }

  lemma {:induction false} ShopMoved(o: Order, s: Shop, stock: int)
    requires Closing(o, stock) && HoldsClosed(o)
    requires s.hold == o.shop.hold && s.shelf == o.shop.shelf && s.qty == o.shop.qty
    requires s.status in {Cancelled, Expired} && DoorsOpen(o.(shop := s))
    ensures Closing(o.(shop := s), stock) && HoldsClosed(o.(shop := s))
  {
    assert Shaped(o.(shop := s));
  }

  lemma {:induction false} StatusStage(o: Order, to: Status, stock: int)
    requires Closing(o, stock) && HoldsClosed(o)
    requires to == Cancelled || (to == Expired && o.shop.status in {Pending, Confirmed})
    ensures var (q, goesOn) := Perform(o, AtDoor(StatusDoor(to)));
      goesOn && Closing(q, stock) && HoldsClosed(q) && q.row == o.row && q.shop.status == to
  {
    var (s, answer) := CallDoor(o.shop, StatusDoor(to));
    assert answer == Fine && s.status == to;
    assert DoorsOpen(o.(shop := s));
    ShopMoved(o, s, stock);
  }

  lemma {:induction false} LinkStage(o: Order, stock: int)
    requires Closing(o, stock)
    ensures var (q, goesOn) := Perform(o, CancelLink);
      goesOn && Closing(q, stock) && q.row == o.row && q.shop == o.shop && q.ledger == o.ledger
  {
  }

  lemma {:induction false} SaveStage(o: Order, to: Status, dropLink: bool, stock: int)
    requires Closing(o, stock) && HoldsClosed(o) && o.shop.status == to && to in {Cancelled, Expired}
    ensures var (q, goesOn) := Perform(o, SaveClosed(to, dropLink));
      goesOn && Closing(q, stock) && HoldsClosed(q) && q.row.status == q.shop.status == to
  {
  }

  /** Every prefix of the closing sequence of an order that holds something. */
  lemma {:induction false} HeldPrefix(o: Order, to: Status, dropLink: bool, k: nat, stock: int)
    requires Closing(o, stock) && ClosingHeld(o) && o.row.status == Confirmed && k <= 5
    requires to == Cancelled || (to == Expired && o.shop.status == Confirmed)
    ensures AllGoOn(o, HeldPlan(to, dropLink))
    ensures Closing(Reach(o, HeldPlan(to, dropLink), k), stock)
    ensures k == 5 ==> var q := Reach(o, HeldPlan(to, dropLink), k);
      HoldsClosed(q) && q.row.status == q.shop.status == to
  {
    ReleaseStage(o, stock);
    var o1 := Perform(o, AtDoor(ReleaseDoor)).0;
    MoneyStage(o1, stock);
    var o2 := Perform(o1, ReleaseMoney).0;
    assert HeldPlan(to, dropLink)[1..] == [ReleaseMoney] + EmptyPlan(to, dropLink);
    assert ([ReleaseMoney] + EmptyPlan(to, dropLink))[1..] == EmptyPlan(to, dropLink);
    EmptyPrefix(o2, to, dropLink, if k >= 2 then k - 2 else 0, stock);
    if k >= 2 {
      assert Reach(o, HeldPlan(to, dropLink), k) == Reach(o1, [ReleaseMoney] + EmptyPlan(to, dropLink), k - 1);
    }
  }

  lemma {:induction false} EmptyPrefix(o: Order, to: Status, dropLink: bool, k: nat, stock: int)
    requires Closing(o, stock) && HoldsClosed(o) && k <= 3
    requires to == Cancelled || (to == Expired && o.shop.status in {Pending, Confirmed})
    ensures AllGoOn(o, EmptyPlan(to, dropLink))
    ensures Closing(Reach(o, EmptyPlan(to, dropLink), k), stock)
    ensures k == 3 ==> var q := Reach(o, EmptyPlan(to, dropLink), k);
      HoldsClosed(q) && q.row.status == q.shop.status == to
  {
    var o1, o2, o3 := EmptyStages(o, to, dropLink, stock);
    ThreeStages(o, EmptyPlan(to, dropLink), [o, o1, o2, o3]);
    var q := [o, o1, o2, o3][k];
    assert Reach(o, EmptyPlan(to, dropLink), k) == q && Closing(q, stock);
  }

  lemma {:induction false} EmptyStages(o: Order, to: Status, dropLink: bool, stock: int) returns (o1: Order, o2: Order, o3: Order)
    requires Closing(o, stock) && HoldsClosed(o)
    requires to == Cancelled || (to == Expired && o.shop.status in {Pending, Confirmed})
    ensures Perform(o, AtDoor(StatusDoor(to))) == (o1, true) && Perform(o1, CancelLink) == (o2, true)
    ensures Perform(o2, SaveClosed(to, dropLink)) == (o3, true)
    ensures Closing(o1, stock) && Closing(o2, stock) && Closing(o3, stock)
    ensures HoldsClosed(o3) && o3.row.status == o3.shop.status == to
  {
    StatusStage(o, to, stock);
    o1 := Perform(o, AtDoor(StatusDoor(to))).0;
    LinkStage(o1, stock);
    o2 := Perform(o1, CancelLink).0;
    SaveStage(o2, to, dropLink, stock);
    o3 := Perform(o2, SaveClosed(to, dropLink)).0;
  }

  /** The orders three effects pass through, when each goes on. */
  lemma {:induction false} ThreeStages(o: Order, es: seq<Effect>, os: seq<Order>)
    requires |es| == 3 && |os| == 4 && os[0] == o
    requires forall i :: 0 <= i < 3 ==> Perform(os[i], es[i]) == (os[i + 1], true)
    ensures AllGoOn(o, es)
    ensures forall k :: 0 <= k <= 3 ==> Reach(o, es, k) == os[k]
  {
    assert Perform(os[0], es[0]) == (os[0 + 1], true) && Perform(os[1], es[1]) == (os[1 + 1], true);
    assert Perform(os[2], es[2]) == (os[2 + 1], true);
    assert es[1..][0] == es[1] && es[1..][1..][0] == es[2] && es[1..][1..][1..] == [];
    assert AllGoOn(os[2], es[1..][1..]);
    assert AllGoOn(os[1], es[1..]);
    assert Reach(os[1], es[1..], 1) == os[2] && Reach(os[2], es[1..][1..], 1) == os[3];
    assert Reach(os[1], es[1..], 2) == Reach(os[2], es[1..][1..], 1);
    assert Reach(o, es, 0) == os[0] && Reach(o, es, 1) == os[1] && Reach(o, es, 2) == os[2] && Reach(o, es, 3) == os[3];
  }

  lemma {:induction false} NothingHeldIsClosed(o: Order, stock: int)
    requires Closing(o, stock) && o.row.status != Confirmed
    ensures HoldsClosed(o)
  {
    HeldByShape(o);
  }

  lemma {:induction false} CancelCloses(o: Order, budget: nat, stock: int)
    requires Closing(o, stock)
    ensures Closing(Step(o, Cancel, budget), stock)
    ensures budget >= 5 ==> var q := Step(o, Cancel, budget);
      HoldsClosed(q) && q.row.status == q.shop.status == Cancelled
  {
    if o.row.status == Confirmed {
      HeldRun(o, Cancelled, false, budget, stock);
    } else {
      NothingHeldIsClosed(o, stock);
      EmptyRun(o, Cancelled, false, budget, stock);
    }
  }

  lemma {:induction false} ResyncKeepsClosing(o: Order, stock: int)
    requires Closing(o, stock)
    ensures Closing(Perform(o, Resync).0, stock)
  {
  }

  /** What running a closing plan leaves: stopped only by dying, and done when not. */
  ghost predicate ClosedOrDead(p: Process, to: Status, stock: int) {
    && Closing(p.order, stock)
    && (p.stopped ==> p.budget == 0)
    && (!p.stopped ==> HoldsClosed(p.order) && p.order.row.status == p.order.shop.status == to)
  }

  lemma {:induction false} EmptyRun(o: Order, to: Status, dropLink: bool, budget: nat, stock: int)
    requires Closing(o, stock) && HoldsClosed(o)
    requires to == Cancelled || (to == Expired && o.shop.status in {Pending, Confirmed})
    ensures ClosedOrDead(Exec(Process(o, budget, false), EmptyPlan(to, dropLink)), to, stock)
    ensures budget >= 3 ==> !Exec(Process(o, budget, false), EmptyPlan(to, dropLink)).stopped
  {
    EmptyPrefix(o, to, dropLink, if budget < 3 then budget else 3, stock);
    BudgetIsPrefix(o, EmptyPlan(to, dropLink), budget);
  }

  lemma {:induction false} HeldRun(o: Order, to: Status, dropLink: bool, budget: nat, stock: int)
    requires Closing(o, stock) && ClosingHeld(o) && o.row.status == Confirmed
    requires to == Cancelled || (to == Expired && o.shop.status == Confirmed)
    ensures ClosedOrDead(Exec(Process(o, budget, false), HeldPlan(to, dropLink)), to, stock)
    ensures budget >= 5 ==> !Exec(Process(o, budget, false), HeldPlan(to, dropLink)).stopped
  {
    HeldPrefix(o, to, dropLink, if budget < 5 then budget else 5, stock);
    BudgetIsPrefix(o, HeldPlan(to, dropLink), budget);
  }

  lemma {:induction false} ExpiryCloses(s: Order, budget: nat, stock: int)
    requires Closing(s, stock) && s.row.status == s.shop.status && s.row.status in {Pending, Confirmed}
    ensures var p := Exec(Process(s, budget, false), Plan(s, Expire(s.row.status == Confirmed)));
      ClosedOrDead(p, Expired, stock) && (budget >= 5 ==> !p.stopped)
  {
    if s.row.status == Pending {
      assert Plan(s, Expire(false)) == EmptyPlan(Expired, true);
      NothingHeldIsClosed(s, stock);
      EmptyRun(s, Expired, true, budget, stock);
    } else {
      assert Plan(s, Expire(true)) == HeldPlan(Expired, true);
      assert ClosingHeld(s);
      HeldRun(s, Expired, true, budget, stock);
    }
  }

  lemma {:induction false} SweepCloses(o: Order, now: int, budget: nat, stock: int)
    requires Closing(o, stock)
    ensures Closing(SweepOne(o, now, budget).0, stock)
    ensures !SweepOne(o, now, budget).1
  {
    ResyncKeepsClosing(o, stock);
    var s := Perform(o, Resync).0;
    assert TimeKnown(o.row) && TimeKnown(s.row);
    SweepShape(o, now, budget);
    if s.row.status in {Pending, Confirmed} {
      ExpiryCloses(s, budget, stock);
      ResyncKeepsClosing(Exec(Process(s, budget, false), Plan(s, Expire(s.row.status == Confirmed))).order, stock);
    }
  }

  /** An attempt to close: a cancel or a sweep that dies anywhere. */
  predicate Attempt(e: Event) { e.Sweeps? || (e.Does? && e.op == Cancel) }

  lemma {:induction false} AttemptsKeepClosing(o: Order, attempts: seq<Event>, stock: int)
    requires InStep(o, stock) && o.row.status in {Pending, Confirmed}
    requires forall i :: 0 <= i < |attempts| ==> Attempt(attempts[i])
    ensures Closing(Life(o, attempts), stock)
  {
    if attempts == [] {
      InStepIsClosing(o, stock);
    } else {
      var before, e := attempts[..|attempts| - 1], attempts[|attempts| - 1];
      AttemptsKeepClosing(o, before, stock);
      assert Attempt(e);
      match e
      case Does(_, budget) => CancelCloses(Life(o, before), budget, stock);
      case Sweeps(now, budget) => SweepCloses(Life(o, before), now, budget, stock);
    }
  }

  /** Crash safety. After any number of cancels and sweeps, each dying after any prefix of its
      effects: a shop that says cancelled or expired holds no stock and no money for the order;
      the stock given back is what was held, once; the Ledger has let go at most once, of
      exactly the total; and one cancel that runs to its end leaves the order cancelled on
      both sides with everything closed. */
  lemma {:induction false} ClosingIsCrashSafe(o: Order, attempts: seq<Event>, stock: int)
    requires InStep(o, stock) && o.row.status in {Pending, Confirmed}
    requires forall i :: 0 <= i < |attempts| ==> Attempt(attempts[i])
    ensures var q := Life(o, attempts);
      && (q.shop.status in {Cancelled, Expired} ==> HoldsClosed(q))
      && q.shop.shelf + Out(q.shop) == stock
      && q.ledger in [[], [Reserved(q)], [Reserved(q), Let(q)]]
    ensures var r := Step(Life(o, attempts), Cancel, ENOUGH);
      && r.row.status == r.shop.status == Cancelled
      && HoldsClosed(r) && r.shop.shelf == stock
  {
    AttemptsKeepClosing(o, attempts, stock);
    HeldByShape(Life(o, attempts));
    CancelCloses(Life(o, attempts), ENOUGH, stock);
  }
}
