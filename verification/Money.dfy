/** The money path of one order as a machine: what the sidecar, the shop and the Provider
    durably hold, the effects each operation performs in order, and the operations as
    sequences of effects that may stop anywhere. */
module Money {
  import opened Wrappers
  import opened Transcript
  import opened Ledger
  import opened Settlement
  import G = Gate

  datatype Status = Pending | Confirmed | IsPaid | Cancelled | Expired | IsFailed | Refunded | Completed

  // ----- the shop's side of one order -----

  /** The state of the order's hold rows. */
  datatype Hold = NoHold | Held | Committed | Released

  /** Doors 3, 4, 5 and 8 with the attempt each caller uses: one key per door, and for door
      8 one per target status. */
  datatype Door = ReserveDoor | CommitDoor | ReleaseDoor | StatusDoor(to: Status)

  datatype Answer = Fine | Refuses

  /** `shelf` is what is left to sell of this basket, `qty` what the basket takes. */
  datatype Shop = Shop(status: Status, hold: Hold, shelf: int, qty: nat, answered: map<Door, Answer>)

  /** A door runs once per key; a repeated key replays the first answer, refusal or not. */
  function CallDoor(s: Shop, d: Door): (Shop, Answer) {
    if d in s.answered then (s, s.answered[d])
    else
      var (after, answer) := RunDoor(s, d);
      (after.(answered := s.answered[d := answer]), answer)
  }

  function RunDoor(s: Shop, d: Door): (Shop, Answer) {
    match d
    case ReserveDoor =>
      if s.shelf >= s.qty then (s.(hold := Held, shelf := s.shelf - s.qty), Fine) else (s, Refuses)
    case CommitDoor =>
      if s.hold == Held then (s.(hold := Committed), Fine)
      else if s.hold == Committed then (s, Fine) else (s, Refuses)
    case ReleaseDoor =>
      if s.hold == Held then (s.(hold := Released, shelf := s.shelf + s.qty), Fine)
      else if s.hold == Released then (s, Fine) else (s, Refuses)
    case StatusDoor(to) => (s.(status := to), Fine)
  }

  // ----- the sidecar's side -----

  /** The checkout row. The tap token is live while the row still names it. */
  datatype Checkout = Checkout(
    paidBy: G.Method, status: Status, totalMinor: nat, currency: string, tokenOnRow: bool, linkOnRow: bool,
    createdAt: int, confirmedAt: Option<int>, linkExpiresAt: Option<int>, decision: Option<Body>)

  /** One order: its row, its tap token, its Ledger rows, the Provider's link, the shop. */
  datatype Order = Order(
    id: string, row: Checkout, spent: bool, tokenExpiresAt: int, ledger: seq<Row>, linkCancelled: bool, shop: Shop)

  function TermsOf(o: Order): Terms
    requires o.row.decision.Some?
  {
    Terms(o.row.decision.value, o.row.totalMinor, o.row.currency)
  }

  // ----- effects -----

  datatype Effect =
    | SpendToken(now: int)
    | AtDoor(door: Door)
    | HoldMoney
    | SettleMoney(record: ProviderRecord)
    | ReleaseMoney
    | CollectMoney
    | CancelLink
    | SaveConfirmed(paidBy: G.Method, now: int, linkExpiresAt: Option<int>, decision: Body)
    | SaveStatus(status: Status)
    | SaveClosed(status: Status, dropLink: bool)
    | Resync

  /** One durable write; the flag says whether the operation goes on after it. */
  function Perform(o: Order, e: Effect): (Order, bool) {
    match e
    case SpendToken(now) =>
      if o.spent || now > o.tokenExpiresAt then (o, false) else (o.(spent := true), true)
    case AtDoor(d) =>
      var (shop, answer) := CallDoor(o.shop, d);
      (o.(shop := shop), answer == Fine)
    case HoldMoney =>
      var w := Write(RESERVE, o.id, o.row.totalMinor, o.row.currency, ATTEMPT, false);
      if Refusal(Of(o.ledger, o.id), w).Some? then (o, false) else (o.(ledger := Apply(o.ledger, w)), true)
    case SettleMoney(record) =>
      if o.row.decision == None then (o, false)
      else
        var after := SettleSpec(TermsOf(o), record, o.ledger);
        (o.(ledger := after.rows), after.verdict != Raised)
    case ReleaseMoney => (o.(ledger := ReleasedIfHeld(o.ledger, o.id, o.row.currency)), true)
    case CollectMoney =>
      if o.row.decision == None then (o, false)
      else
        var after := CollectSpec(TermsOf(o), o.ledger);
        (o.(ledger := after.rows), after.verdict == Paid)
    case CancelLink => (o.(linkCancelled := o.linkCancelled || o.row.linkOnRow), true)
    case SaveConfirmed(paidBy, now, expires, decision) =>
      (o.(row := o.row.(paidBy := paidBy, status := Confirmed, confirmedAt := Some(now),
            linkExpiresAt := expires, linkOnRow := expires.Some?, decision := Some(decision))), true)
    case SaveStatus(s) => (o.(row := o.row.(status := s)), true)
    case SaveClosed(s, dropLink) =>
      (o.(row := o.row.(status := s, tokenOnRow := false, linkOnRow := o.row.linkOnRow && !dropLink)), true)
    case Resync => (o.(row := o.row.(status := o.shop.status)), true)
  }

  /** A process that dies after `budget` more effects; a refusal stops it as well. */
  datatype Process = Process(order: Order, budget: nat, stopped: bool)

  function Go(p: Process, e: Effect): Process {
    if p.stopped || p.budget == 0 then p.(stopped := true)
    else
      var (o, goesOn) := Perform(p.order, e);
      Process(o, p.budget - 1, !goesOn)
  }

  function Exec(p: Process, es: seq<Effect>): Process
    decreases |es|
  {
    if es == [] then p else Exec(Go(p, es[0]), es[1..])
  }

  // ----- operations -----

  /** The sidecar's two clocks, in seconds. */
  const PENDING_TTL: int := 86400
  const PAYMENT_WINDOW: int := 900
  const COD_DELIVERY_WINDOW: int := 604800

  datatype Deadline = Deadline(at: int, releasesStock: bool, alertsOnly: bool)

  /** The next deadline, none for a status that is never swept, or an error for a confirmed
      row that does not say when it was confirmed. */
  function NextDeadline(c: Checkout): Result<Option<Deadline>, ()> {
    match c.status
    case Pending => Ok(Some(Deadline(c.createdAt + PENDING_TTL, false, false)))
    case Confirmed =>
      if c.confirmedAt == None then Err(())
      else if c.paidBy == G.CashOnDelivery then
        Ok(Some(Deadline(c.confirmedAt.value + COD_DELIVERY_WINDOW, false, true)))
      else
        var window := c.confirmedAt.value + PAYMENT_WINDOW;
        var at := if c.linkExpiresAt.Some? && c.linkExpiresAt.value < window then c.linkExpiresAt.value else window;
        Ok(Some(Deadline(at, true, false)))
    case _ => Ok(None)
  }

  /** `_action_for`: the deadline that has passed, if any. */
  function ActionFor(c: Checkout, now: int): Result<Option<Deadline>, ()> {
    match NextDeadline(c)
    case Err(e) => Err(e)
    case Ok(None) => Ok(None)
    case Ok(Some(d)) => if now < d.at then Ok(None) else Ok(Some(d))
  }

  datatype Op =
    | Tap(now: int, paidBy: G.Method, ruling: Option<Body>, linkSeconds: int)
    | Deliver(record: ProviderRecord)
    | Cancel
    | Collect
    | Expire(releasesStock: bool)

  /** Statuses a Provider's callback never moves an order out of. */
  predicate Terminal(s: Status) { s !in {Pending, Confirmed} }

  /** What `complete` writes, for a link the row names and a decision it keeps. */
  function CompletePlan(o: Order, record: ProviderRecord): seq<Effect> {
    if !o.row.linkOnRow || o.row.decision == None then []
    else if Reconciles(TermsOf(o), record) then
      [SettleMoney(record), AtDoor(CommitDoor), AtDoor(StatusDoor(IsPaid)), SaveStatus(IsPaid)]
    else [SettleMoney(record), SaveStatus(IsFailed), AtDoor(StatusDoor(IsFailed))]
  }

  function Plan(o: Order, op: Op): seq<Effect> {
    match op
    case Tap(now, paidBy, ruling, linkSeconds) =>
      if !o.row.tokenOnRow then []
      else if ruling == None then [SpendToken(now)]
      else if paidBy == G.CashOnDelivery then
        [SpendToken(now), AtDoor(ReserveDoor), AtDoor(StatusDoor(Confirmed)),
         SaveConfirmed(paidBy, now, None, ruling.value)]
      else
        [SpendToken(now), AtDoor(ReserveDoor), AtDoor(StatusDoor(Confirmed)), HoldMoney,
         SaveConfirmed(paidBy, now, Some(now + linkSeconds), ruling.value)]
    case Deliver(record) => if Terminal(o.row.status) then [] else CompletePlan(o, record)
    case Cancel =>
      if o.row.status == IsPaid then []
      else if o.row.status == Confirmed then
        [AtDoor(ReleaseDoor), ReleaseMoney, AtDoor(StatusDoor(Cancelled)), CancelLink, SaveClosed(Cancelled, false)]
      else [AtDoor(StatusDoor(Cancelled)), CancelLink, SaveClosed(Cancelled, false)]
    case Collect => [CollectMoney, AtDoor(StatusDoor(IsPaid)), SaveStatus(IsPaid)]
    case Expire(releasesStock) =>
      if releasesStock then
        [AtDoor(ReleaseDoor), ReleaseMoney, AtDoor(StatusDoor(Expired)), CancelLink, SaveClosed(Expired, true)]
      else [AtDoor(StatusDoor(Expired)), CancelLink, SaveClosed(Expired, true)]
  }

  /** What an operation leaves when the process dies after `budget` effects. */
  function Step(o: Order, op: Op, budget: nat): Order {
    Exec(Process(o, budget, false), Plan(o, op)).order
  }

  /** Longer than any plan: the operation runs to its end. */
  const ENOUGH: nat := 10

  /** One order's turn in a sweep. The row is checked against its deadline, then corrected
      from the shop, then checked again; an overdue order expires, and an expiry the shop
      refuses leaves the row corrected once more. The flag says the deadline itself raised,
      which ends the whole pass. */
  function SweepOne(o: Order, now: int, budget: nat): (Order, bool) {
    if Terminal(o.row.status) then (o, false)
    else
      match ActionFor(o.row, now)
      case Err(_) => (o, true)
      case Ok(None) => (o, false)
      case Ok(Some(_)) =>
        var synced := Perform(o, Resync).0;
        match ActionFor(synced.row, now)
        case Err(_) => (synced, true)
        case Ok(None) => (synced, false)
        case Ok(Some(d)) =>
          if d.alertsOnly then (synced, false)
          else
            var p := Exec(Process(synced, budget, false), Plan(synced, Expire(d.releasesStock)));
            (if p.stopped && p.budget > 0 then Perform(p.order, Resync).0 else p.order, false)
  }

  /** An order as `start` leaves it: pending on both sides, nothing held, nothing moved. */
  ghost predicate Started(o: Order) {
    && o.row.status == Pending && o.shop.status == Pending
    && !o.spent && o.row.tokenOnRow && !o.row.linkOnRow
    && o.row.decision == None && o.row.confirmedAt == None
    && o.ledger == [] && !o.linkCancelled
    && o.shop.hold == NoHold && o.shop.answered == map[] && o.shop.shelf >= 0
  }

  /** The Gate's ruling a tap may carry: permitted for this order and this total, of the
      kind its method terminates in. */
  ghost predicate Fits(o: Order, op: Op) {
    op.Tap? && op.ruling.Some? ==>
      && G.PermittedShape(op.ruling.value)
      && op.ruling.value.header.orderId == o.id
      && (op.paidBy == G.CashOnDelivery <==> op.ruling.value.authorityKind == Some(ConfirmedIntent))
  }

  // ----- the sidecar's code -----

  class Sidecar {
    var order: Order
    var budget: nat
    var stopped: bool

    function Now(): Process
      reads this
    {
      Process(order, budget, stopped)
    }

    constructor (o: Order, dieAfter: nat)
      ensures Now() == Process(o, dieAfter, false)
    {
      order, budget, stopped := o, dieAfter, false;
    }

    /** One effect, unless the process is already gone. */
    method Do(e: Effect)
      modifies this
      ensures Now() == Go(old(Now()), e)
    {
      if stopped || budget == 0 {
        stopped := true;
        return;
      }
      var (o, goesOn) := Perform(order, e);
      order, budget, stopped := o, budget - 1, !goesOn;
    }

    method TapApproved(now: int, paidBy: G.Method, ruling: Option<Body>, linkSeconds: int)
      modifies this
      ensures Now() == Exec(old(Now()), Plan(old(order), Tap(now, paidBy, ruling, linkSeconds)))
    {
      if !order.row.tokenOnRow { return; }
      Do(SpendToken(now));
      if ruling == None { return; }
      Do(AtDoor(ReserveDoor));
      Do(AtDoor(StatusDoor(Confirmed)));
      if paidBy == G.CashOnDelivery {
        Do(SaveConfirmed(paidBy, now, None, ruling.value));
        ExecFour(old(Now()), SpendToken(now), AtDoor(ReserveDoor), AtDoor(StatusDoor(Confirmed)),
          SaveConfirmed(paidBy, now, None, ruling.value));
        return;
      }
      Do(HoldMoney);
      Do(SaveConfirmed(paidBy, now, Some(now + linkSeconds), ruling.value));
      ExecFive(old(Now()), SpendToken(now), AtDoor(ReserveDoor), AtDoor(StatusDoor(Confirmed)), HoldMoney,
        SaveConfirmed(paidBy, now, Some(now + linkSeconds), ruling.value));
    }

    /** The Provider's callback: nothing moves an order that is over. */
    method Callback(record: ProviderRecord)
      modifies this
      ensures Now() == Exec(old(Now()), Plan(old(order), Deliver(record)))
    {
      if Terminal(order.row.status) { return; }
      Complete(record);
    }

    /** The money arrived. */
    method Complete(record: ProviderRecord)
      modifies this
      ensures Now() == Exec(old(Now()), CompletePlan(old(order), record))
    {
      if !order.row.linkOnRow || order.row.decision == None { return; }
      var settles := Reconciles(TermsOf(order), record);
      Do(SettleMoney(record));
      if !settles {
        Do(SaveStatus(IsFailed));
        Do(AtDoor(StatusDoor(IsFailed)));
        ExecThree(old(Now()), SettleMoney(record), SaveStatus(IsFailed), AtDoor(StatusDoor(IsFailed)));
        return;
      }
      Do(AtDoor(CommitDoor));
      Do(AtDoor(StatusDoor(IsPaid)));
      Do(SaveStatus(IsPaid));
      ExecFour(old(Now()), SettleMoney(record), AtDoor(CommitDoor), AtDoor(StatusDoor(IsPaid)), SaveStatus(IsPaid));
    }

    /** Stock goes back before the status moves. */
    method CancelOrder()
      modifies this
      ensures Now() == Exec(old(Now()), Plan(old(order), Cancel))
    {
      if order.row.status == IsPaid { return; }
      var held := order.row.status == Confirmed;
      if held {
        Do(AtDoor(ReleaseDoor));
        Do(ReleaseMoney);
      }
      Do(AtDoor(StatusDoor(Cancelled)));
      Do(CancelLink);
      Do(SaveClosed(Cancelled, false));
      if held {
        ExecFive(old(Now()), AtDoor(ReleaseDoor), ReleaseMoney, AtDoor(StatusDoor(Cancelled)), CancelLink, SaveClosed(Cancelled, false));
      } else {
        ExecThree(old(Now()), AtDoor(StatusDoor(Cancelled)), CancelLink, SaveClosed(Cancelled, false));
      }
    }

    method CollectCash()
      modifies this
      ensures Now() == Exec(old(Now()), Plan(old(order), Collect))
    {
      Do(CollectMoney);
      Do(AtDoor(StatusDoor(IsPaid)));
      Do(SaveStatus(IsPaid));
      ExecThree(old(Now()), CollectMoney, AtDoor(StatusDoor(IsPaid)), SaveStatus(IsPaid));
    }

    method ExpireOrder(releasesStock: bool)
      modifies this
      ensures Now() == Exec(old(Now()), Plan(old(order), Expire(releasesStock)))
    {
      if releasesStock {
        Do(AtDoor(ReleaseDoor));
        Do(ReleaseMoney);
      }
      Do(AtDoor(StatusDoor(Expired)));
      Do(CancelLink);
      Do(SaveClosed(Expired, true));
      if releasesStock {
        ExecFive(old(Now()), AtDoor(ReleaseDoor), ReleaseMoney, AtDoor(StatusDoor(Expired)), CancelLink, SaveClosed(Expired, true));
      } else {
        ExecThree(old(Now()), AtDoor(StatusDoor(Expired)), CancelLink, SaveClosed(Expired, true));
      }
    }
  }

  lemma {:induction false} ExecThree(p: Process, a: Effect, b: Effect, c: Effect)
    ensures Exec(p, [a, b, c]) == Go(Go(Go(p, a), b), c)
  {
    assert [a, b, c][1..] == [b, c] && [b, c][1..] == [c] && [c][1..] == [];
    assert Exec(Go(p, a), [b, c]) == Exec(Go(Go(p, a), b), [c]);
  }

  lemma {:induction false} ExecFour(p: Process, a: Effect, b: Effect, c: Effect, d: Effect)
    ensures Exec(p, [a, b, c, d]) == Go(Go(Go(Go(p, a), b), c), d)
  {
    assert [a, b, c, d][1..] == [b, c, d];
    ExecThree(Go(p, a), b, c, d);
  }

  lemma {:induction false} ExecFive(p: Process, a: Effect, b: Effect, c: Effect, d: Effect, e: Effect)
    ensures Exec(p, [a, b, c, d, e]) == Go(Go(Go(Go(Go(p, a), b), c), d), e)
  {
    assert [a, b, c, d, e][1..] == [b, c, d, e];
    ExecFour(Go(p, a), b, c, d, e);
  }
}
