/** What every run of the money path keeps. */
module MoneySafety {
  import opened Wrappers
  import opened Sums
  import opened Transcript
  import opened Ledger
  import opened Settlement
  import opened Money
  import G = Gate

  // ----- the shapes an order's Ledger can have -----

  function Reserved(o: Order): Row {
    Row(RESERVE, o.id, o.row.totalMinor, o.row.currency, EntryKey(o.id, RESERVE, ATTEMPT), false)
  }

  function Captured(o: Order): Row {
    Row(CAPTURE, o.id, o.row.totalMinor, o.row.currency, EntryKey(o.id, CAPTURE, ATTEMPT), true)
  }

  function Let(o: Order): Row {
    Row(RELEASE, o.id, o.row.totalMinor, o.row.currency, EntryKey(o.id, RELEASE, ATTEMPT), true)
  }

  /** Cash: a capture with no hold behind it. */
  function Collected(o: Order): Row {
    Row(CAPTURE, o.id, o.row.totalMinor, o.row.currency, EntryKey(o.id, CAPTURE, ATTEMPT), false)
  }

  predicate OnCash(o: Order) {
    o.row.decision.Some? && o.row.decision.value.authorityKind == Some(ConfirmedIntent)
  }

  predicate OnRail(o: Order) {
    o.row.decision.Some? && o.row.decision.value.authorityKind != Some(ConfirmedIntent)
  }

  /** Which logs an order may have: nothing, a hold, a hold taken, a hold let go, or, on
      cash alone, one capture. Every amount is the order's total. */
  ghost predicate Shaped(o: Order) {
    && (o.ledger in [[], [Reserved(o)], [Reserved(o), Let(o)]]
        || (OnRail(o) && o.ledger == [Reserved(o), Captured(o)])
        || (OnCash(o) && o.ledger == [Collected(o)]))
    && (OnCash(o) ==> o.ledger in [[], [Collected(o)]])
    && (OnRail(o) ==> o.ledger != [])
    && (!o.spent ==> o.ledger == [] && o.row.decision == None)
    && (o.row.decision.Some? ==> G.PermittedShape(o.row.decision.value) && o.row.decision.value.header.orderId == o.id)
  }

  lemma {:induction false} OneRow(r: Row, order: string)
    requires r.order == order
    ensures Of([r], order) == [r]
  {
    assert [r] == [] + [r];
    OfSnoc([], r, order);
  }

  lemma {:induction false} TwoRows(r: Row, t: Row, order: string)
    requires r.order == t.order == order
    ensures Of([r, t], order) == [r, t]
  {
    assert [r, t] == [r] + [t];
    OneRow(r, order);
    OfSnoc([r], t, order);
  }

  lemma {:induction false} SumOne(r: Row)
    ensures OpenHolds([r]) == AmountIf(RESERVE)(r) - ClosingAmount()(r)
    ensures forall kind :: Sum([r], kind) == AmountIf(kind)(r)
  {
    SumSnocs([], r);
    assert [] + [r] == [r];
  }

  lemma {:induction false} SumTwo(r: Row, t: Row)
    ensures OpenHolds([r, t]) == OpenHolds([r]) + AmountIf(RESERVE)(t) - ClosingAmount()(t)
  {
    SumSnocs([r], t);
    assert [r] + [t] == [r, t];
  }

  /** What is held, read off the shape. */
  lemma {:induction false} HeldByShape(o: Order)
    requires Shaped(o)
    ensures Of(o.ledger, o.id) == o.ledger
    ensures OpenHolds(o.ledger) == if o.ledger == [Reserved(o)] then o.row.totalMinor else 0
  {
    OneRow(Reserved(o), o.id);
    OneRow(Collected(o), o.id);
    TwoRows(Reserved(o), Let(o), o.id);
    TwoRows(Reserved(o), Captured(o), o.id);
    SumOne(Reserved(o));
    SumOne(Collected(o));
    SumTwo(Reserved(o), Let(o));
    SumTwo(Reserved(o), Captured(o));
  }

  /** The money effects on a shaped Ledger, exactly. */
  lemma {:induction false} HoldEffect(o: Order)
    requires Shaped(o) && o.ledger == []
    ensures Perform(o, HoldMoney) == (o.(ledger := [Reserved(o)]), true)
  {
    HeldByShape(o);
    assert [] + [Reserved(o)] == [Reserved(o)];
    assert RowFor([], Write(RESERVE, o.id, o.row.totalMinor, o.row.currency, ATTEMPT, false)) == Reserved(o);
  }

  lemma {:induction false} ReleaseEffect(o: Order)
    requires Shaped(o)
    ensures Perform(o, ReleaseMoney) ==
      (if o.ledger == [Reserved(o)] && o.row.totalMinor > 0 then o.(ledger := [Reserved(o), Let(o)]) else o, true)
  {
    HeldByShape(o);
    if o.ledger == [Reserved(o)] {
      assert [Reserved(o)] + [Let(o)] == [Reserved(o), Let(o)];
      var w := Write(RELEASE, o.id, o.row.totalMinor, o.row.currency, ATTEMPT, false);
      assert RowFor([Reserved(o)], w) == Let(o);
    }
  }

  lemma {:induction false} MoneyEffects(o: Order)
    requires Shaped(o)
    ensures o.ledger == [] ==> Perform(o, HoldMoney) == (o.(ledger := [Reserved(o)]), true)
    ensures Perform(o, ReleaseMoney) ==
      (if o.ledger == [Reserved(o)] && o.row.totalMinor > 0 then o.(ledger := [Reserved(o), Let(o)]) else o, true)
  {
    if o.ledger == [] { HoldEffect(o); }
    ReleaseEffect(o);
  }

  lemma {:induction false} CashEffect(o: Order)
    requires Shaped(o)
    ensures Perform(o, CollectMoney) ==
      if OnCash(o) then (o.(ledger := [Collected(o)]), true) else (o, false)
  {
    if o.row.decision.Some? { PermittedIsComplete(o.row.decision.value); }
    if OnCash(o) {
      HeldByShape(o);
      CashApplies(o);
      CollectsAs(TermsOf(o), o.ledger, [Collected(o)]);
    }
  }

  /** `collect` on a complete cash decision is its one capture. */
  lemma {:induction false} CollectsAs(t: Terms, rows: seq<Row>, after: seq<Row>)
    requires t.transcript.authorityKind == Some(ConfirmedIntent) && Complete(t.transcript.checks)
    requires var w := CaptureOf(t.transcript.header.orderId, t.totalMinor, t.currency, true);
      Refusal(Of(rows, t.transcript.header.orderId), w) == None && Apply(rows, w) == after
    ensures CollectSpec(t, rows) == After(t.transcript, after, Paid)
  {
  }

  lemma {:induction false} CashApplies(o: Order)
    requires o.ledger in [[], [Collected(o)]]
    requires Of(o.ledger, o.id) == o.ledger && OpenHolds(o.ledger) == 0
    ensures var w := CaptureOf(o.id, o.row.totalMinor, o.row.currency, true);
      Refusal(Of(o.ledger, o.id), w) == None && Apply(o.ledger, w) == [Collected(o)]
  {
    var w := CaptureOf(o.id, o.row.totalMinor, o.row.currency, true);
    assert RowFor(o.ledger, w) == Collected(o);
    if o.ledger == [] {
      assert [] + [Collected(o)] == [Collected(o)];
    } else {
      assert Collected(o) in o.ledger;
    }
  }

  lemma {:induction false} SettleCaptures(o: Order, record: ProviderRecord)
    requires Shaped(o) && o.row.decision.Some? && Reconciles(TermsOf(o), record)
    requires o.ledger == [Reserved(o)] && o.row.totalMinor > 0
    ensures Perform(o, SettleMoney(record)) == (o.(ledger := [Reserved(o), Captured(o)]), true)
  {
    HeldByShape(o);
    PermittedIsComplete(o.row.decision.value);
    var w := CaptureOf(o.id, record.amountMinor, record.currency, false);
    assert [Reserved(o)] + [Captured(o)] == [Reserved(o), Captured(o)];
    assert RowFor([Reserved(o)], w) == Captured(o);
  }

  lemma {:induction false} SettleRaises(o: Order, record: ProviderRecord)
    requires Shaped(o) && o.row.decision.Some? && Reconciles(TermsOf(o), record)
    requires o.ledger != [Reserved(o)] || o.row.totalMinor == 0
    ensures Perform(o, SettleMoney(record)) == (o, false)
  {
    HeldByShape(o);
    SettlesExactly(TermsOf(o), record, o.ledger);
  }

  /** `settle`, on a Ledger that has been a hold and nothing else. */
  lemma {:induction false} SettleEffect(o: Order, record: ProviderRecord)
    requires Shaped(o) && o.row.decision.Some?
    ensures Perform(o, SettleMoney(record)) ==
      if !Reconciles(TermsOf(o), record) then Perform(o, ReleaseMoney)
      else if o.ledger == [Reserved(o)] && o.row.totalMinor > 0 then (o.(ledger := [Reserved(o), Captured(o)]), true)
      else (o, false)
  {
    if Reconciles(TermsOf(o), record) {
      if o.ledger == [Reserved(o)] && o.row.totalMinor > 0 {
        SettleCaptures(o, record);
      } else {
        SettleRaises(o, record);
      }
    }
  }

  // ----- every run, with every crash -----

  /** What an operation never changes. */
  predicate SameOrder(o: Order, q: Order) {
    q.id == o.id && q.row.totalMinor == o.row.totalMinor && q.row.currency == o.row.currency
  }

  /** Effects outside the tap. */
  predicate AfterTap(e: Effect) { !e.SpendToken? && !e.HoldMoney? && !e.SaveConfirmed? }

  lemma {:induction false} EffectKeepsShape(o: Order, e: Effect)
    requires Shaped(o) && AfterTap(e)
    ensures Shaped(Perform(o, e).0) && SameOrder(o, Perform(o, e).0)
    ensures Perform(o, e).0.spent == o.spent && Perform(o, e).0.row.decision == o.row.decision
    ensures o.ledger == [] && o.row.decision == None ==> Perform(o, e).0.ledger == []
  {
    if e.SettleMoney? || e.ReleaseMoney? || e.CollectMoney? { MoneyMoves(o, e); }
  }

  lemma {:induction false} MoneyMoves(o: Order, e: Effect)
    requires Shaped(o) && (e.SettleMoney? || e.ReleaseMoney? || e.CollectMoney?)
    ensures var q := Perform(o, e).0;
      || q == o
      || (o.ledger == [Reserved(o)] && q == o.(ledger := [Reserved(o), Let(o)]))
      || (o.ledger == [Reserved(o)] && OnRail(o) && q == o.(ledger := [Reserved(o), Captured(o)]))
      || (OnCash(o) && q == o.(ledger := [Collected(o)]))
  {
    ReleaseEffect(o);
    if e.CollectMoney? {
      CashEffect(o);
    } else if e.SettleMoney? && o.row.decision.Some? {
      SettleEffect(o, e.record);
      if OnCash(o) { CashHoldsNothing(o); }
    }
  }

  lemma {:induction false} CashHoldsNothing(o: Order)
    requires Shaped(o) && OnCash(o)
    ensures o.ledger != [Reserved(o)]
  {
    assert o.ledger == [] || (|o.ledger| == 1 && o.ledger[0] == Collected(o));
  }

  lemma {:induction false} ExecKeepsShape(p: Process, es: seq<Effect>)
    requires Shaped(p.order) && forall e :: e in es ==> AfterTap(e)
    ensures Shaped(Exec(p, es).order) && SameOrder(p.order, Exec(p, es).order)
    decreases |es|
  {
    if es != [] {
      EffectKeepsShape(p.order, es[0]);
      ExecKeepsShape(Go(p, es[0]), es[1..]);
    }
  }

  /** A tap in progress: past its token, with no decision stored yet. */
  ghost predicate Tapping(p: Process) {
    Shaped(p.order) && (!p.stopped ==> p.order.spent && p.order.ledger == [] && p.order.row.decision == None)
  }

  lemma {:induction false} DoorWhileTapping(p: Process, d: Door)
    requires Tapping(p)
    ensures Tapping(Go(p, AtDoor(d))) && SameOrder(p.order, Go(p, AtDoor(d)).order)
  {
    EffectKeepsShape(p.order, AtDoor(d));
  }

  lemma {:induction false} EndOfTap(p: Process, op: Op)
    requires Tapping(p) && op.Tap? && op.ruling.Some? && Fits(p.order, op)
    ensures op.paidBy == G.CashOnDelivery ==>
      var q := Go(p, SaveConfirmed(op.paidBy, op.now, None, op.ruling.value)).order;
      Shaped(q) && SameOrder(p.order, q)
    ensures op.paidBy != G.CashOnDelivery ==>
      var q := Go(Go(p, HoldMoney), SaveConfirmed(op.paidBy, op.now, Some(op.now + op.linkSeconds), op.ruling.value)).order;
      Shaped(q) && SameOrder(p.order, q)
  {
    MoneyEffects(p.order);
  }

  lemma {:induction false} StartOfTap(o: Order, now: int, budget: nat)
    requires Shaped(o)
    ensures Tapping(Go(Process(o, budget, false), SpendToken(now)))
    ensures SameOrder(o, Go(Process(o, budget, false), SpendToken(now)).order)
  {
  }

  /** A tap that gets past its token starts from an empty Ledger and no decision. */
  lemma {:induction false} TapKeepsShape(o: Order, op: Op, budget: nat)
    requires Shaped(o) && op.Tap? && Fits(o, op)
    ensures Shaped(Step(o, op, budget)) && SameOrder(o, Step(o, op, budget))
  {
    if o.row.tokenOnRow {
      var p0 := Process(o, budget, false);
      StartOfTap(o, op.now, budget);
      var p1 := Go(p0, SpendToken(op.now));
      if op.ruling == None {
        assert Exec(p0, [SpendToken(op.now)]) == Exec(p1, [SpendToken(op.now)][1..]);
      } else {
        DoorWhileTapping(p1, ReserveDoor);
        var p2 := Go(p1, AtDoor(ReserveDoor));
        DoorWhileTapping(p2, StatusDoor(Confirmed));
        var p3 := Go(p2, AtDoor(StatusDoor(Confirmed)));
        EndOfTap(p3, op);
        TapUnrolled(o, op, budget);
      }
    }
  }

  lemma {:induction false} TapUnrolled(o: Order, op: Op, budget: nat)
    requires o.row.tokenOnRow && op.Tap? && op.ruling.Some?
    ensures var p3 := Go(Go(Go(Process(o, budget, false), SpendToken(op.now)), AtDoor(ReserveDoor)), AtDoor(StatusDoor(Confirmed)));
      Step(o, op, budget) ==
        if op.paidBy == G.CashOnDelivery then Go(p3, SaveConfirmed(op.paidBy, op.now, None, op.ruling.value)).order
        else Go(Go(p3, HoldMoney), SaveConfirmed(op.paidBy, op.now, Some(op.now + op.linkSeconds), op.ruling.value)).order
  {
    var p0 := Process(o, budget, false);
    if op.paidBy == G.CashOnDelivery {
      ExecFour(p0, SpendToken(op.now), AtDoor(ReserveDoor), AtDoor(StatusDoor(Confirmed)),
        SaveConfirmed(op.paidBy, op.now, None, op.ruling.value));
    } else {
      ExecFive(p0, SpendToken(op.now), AtDoor(ReserveDoor), AtDoor(StatusDoor(Confirmed)), HoldMoney,
        SaveConfirmed(op.paidBy, op.now, Some(op.now + op.linkSeconds), op.ruling.value));
    }
  }

  lemma {:induction false} StepKeepsShape(o: Order, op: Op, budget: nat)
    requires Shaped(o) && Fits(o, op)
    ensures Shaped(Step(o, op, budget)) && SameOrder(o, Step(o, op, budget))
  {
    if op.Tap? {
      TapKeepsShape(o, op, budget);
    } else {
      ExecKeepsShape(Process(o, budget, false), Plan(o, op));
    }
  }

  /** One event in an order's life: an operation that dies after so many effects, a sweep, or
      anything at all happening at the shop. */
  datatype Event = Does(op: Op, budget: nat) | Sweeps(now: int, budget: nat) | ShopActs(shop: Shop)

  ghost predicate Allowed(o: Order, e: Event) { e.Does? ==> Fits(o, e.op) }

  function Next(o: Order, e: Event): Order {
    match e
    case Does(op, budget) => Step(o, op, budget)
    case Sweeps(now, budget) => SweepOne(o, now, budget).0
    case ShopActs(shop) => o.(shop := shop)
  }

  function Life(o: Order, events: seq<Event>): Order {
    if events == [] then o else Next(Life(o, events[..|events| - 1]), events[|events| - 1])
  }

  ghost predicate AllAllowed(o: Order, events: seq<Event>) {
    forall i :: 0 <= i < |events| ==> Allowed(o, events[i])
  }

  lemma {:induction false} ExpiryKeepsShape(o: Order, releasesStock: bool, budget: nat)
    requires Shaped(o)
    ensures var q := Exec(Process(o, budget, false), Plan(o, Expire(releasesStock))).order;
      && Shaped(q) && SameOrder(o, q)
      && Shaped(Perform(q, Resync).0) && SameOrder(o, Perform(q, Resync).0)
  {
    ExecKeepsShape(Process(o, budget, false), Plan(o, Expire(releasesStock)));
    EffectKeepsShape(Exec(Process(o, budget, false), Plan(o, Expire(releasesStock))).order, Resync);
  }

  lemma {:induction false} SweepKeepsShape(o: Order, now: int, budget: nat)
    requires Shaped(o)
    ensures Shaped(SweepOne(o, now, budget).0) && SameOrder(o, SweepOne(o, now, budget).0)
  {
    EffectKeepsShape(o, Resync);
    var synced := Perform(o, Resync).0;
    ExpiryKeepsShape(synced, true, budget);
    ExpiryKeepsShape(synced, false, budget);
  }

  /** Over every run, however often a process dies and wherever: a prepaid order's Ledger is
      nothing, RESERVE, RESERVE and CAPTURE, or RESERVE and RELEASE; a cash order's is nothing
      or one CAPTURE; and every amount is the total fixed when the order was started. */
  lemma {:induction false} LedgerShapeOverEveryRun(o: Order, events: seq<Event>)
    requires Started(o) && AllAllowed(o, events)
    ensures Shaped(Life(o, events)) && SameOrder(o, Life(o, events))
    ensures 0 <= OpenHolds(Life(o, events).ledger) <= o.row.totalMinor
  {
    if events == [] {
    } else {
      var before := events[..|events| - 1];
      LedgerShapeOverEveryRun(o, before);
      var e, q := events[|events| - 1], Life(o, before);
      assert Allowed(o, e);
      match e {
        case Does(op, budget) => StepKeepsShape(q, op, budget);
        case Sweeps(now, budget) => SweepKeepsShape(q, now, budget);
        case ShopActs(shop) =>
      }
    }
    HeldByShape(Life(o, events));
  }

  // ----- one tap -----

  lemma {:induction false} ExecKeepsSpent(p: Process, es: seq<Effect>)
    ensures p.order.spent ==> Exec(p, es).order.spent
    decreases |es|
  {
    if es != [] { ExecKeepsSpent(Go(p, es[0]), es[1..]); }
  }

  lemma {:induction false} SpentStaysSpent(o: Order, e: Event)
    requires o.spent
    ensures Next(o, e).spent
  {
    match e
    case Does(op, budget) => ExecKeepsSpent(Process(o, budget, false), Plan(o, op));
    case Sweeps(_, budget) =>
      var synced := Perform(o, Resync).0;
      ExecKeepsSpent(Process(synced, budget, false), Plan(synced, Expire(true)));
      ExecKeepsSpent(Process(synced, budget, false), Plan(synced, Expire(false)));
    case ShopActs(_) =>
  }

  /** A tap that gets past the token, to the Gate and the hold. */
  predicate GetsPast(o: Order, e: Event) {
    e.Does? && e.op.Tap? && e.budget > 0 && o.row.tokenOnRow && !o.spent && e.op.now <= o.tokenExpiresAt
  }

  lemma {:induction false} PastMeansSpent(o: Order, e: Event)
    requires GetsPast(o, e)
    ensures Next(o, e).spent
  {
    var p := Process(o, e.budget, false);
    var es := Plan(o, e.op);
    assert es[0] == SpendToken(e.op.now);
    assert Go(p, es[0]).order.spent;
    ExecKeepsSpent(Go(p, es[0]), es[1..]);
  }

  lemma {:induction false} SpentFromThenOn(o: Order, events: seq<Event>, k: nat)
    requires k <= |events| && Life(o, events[..k]).spent
    ensures Life(o, events).spent
    decreases |events| - k
  {
    if k == |events| {
      assert events[..k] == events;
    } else {
      SpentStaysSpent(Life(o, events[..k]), events[k]);
      assert events[..k + 1][..k] == events[..k] && events[..k + 1][k] == events[k];
      SpentFromThenOn(o, events, k + 1);
    }
  }

  /** Over every run, whatever crashes and whatever the shop does, at most one tap gets past
      an order's token. */
  lemma {:induction false} OneTapGetsPast(o: Order, events: seq<Event>, i: nat, j: nat)
    requires i < j < |events|
    ensures !(GetsPast(Life(o, events[..i]), events[i]) && GetsPast(Life(o, events[..j]), events[j]))
  {
    if GetsPast(Life(o, events[..i]), events[i]) {
      PastMeansSpent(Life(o, events[..i]), events[i]);
      assert events[..j][..i + 1][..i] == events[..i] && events[..j][..i + 1][i] == events[i];
      assert Life(o, events[..j][..i + 1]).spent;
      SpentFromThenOn(o, events[..j], i + 1);
    }
  }
}
