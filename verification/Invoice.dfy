/** The tax invoice number: one sequence row per financial year, advanced by one statement,
    and an order row that takes the first number to reach it. */
module Invoice {
  import opened Wrappers
  import opened Text
  import M = Money

  // ----- how a number is written -----

  /** `String(n).padStart(width, '0')`. */
  function Padded(n: nat, width: nat): (s: string)
    ensures forall c :: c in s ==> '0' <= c <= '9'
  {
    var d := Decimal(n);
    seq(if |d| < width then width - |d| else 0, i => '0') + d
  }

  lemma {:induction false} PaddingIsWorthless(k: nat, d: string)
    ensures Value(seq(k, i => '0') + d) == Value(d)
    decreases k, |d|
  {
    var s := seq(k, i => '0') + d;
    if d == [] {
      if k > 0 {
        assert s[..|s| - 1] == seq(k - 1, i => '0') + d;
        PaddingIsWorthless(k - 1, d);
      }
    } else {
      assert s[..|s| - 1] == seq(k, i => '0') + d[..|d| - 1];
      PaddingIsWorthless(k, d[..|d| - 1]);
    }
  }

  lemma {:induction false} PaddedHasValue(n: nat, width: nat)
    ensures Value(Padded(n, width)) == n
  {
    var d := Decimal(n);
    PaddingIsWorthless(if |d| < width then width - |d| else 0, d);
    DecimalHasValue(n);
  }

  /** April to March, from the calendar date in IST. */
  function StartYear(year: nat, month: nat): nat
    requires year >= 1
  {
    if month >= 4 then year else year - 1
  }

  function FinancialYear(start: nat): (s: string)
    ensures '/' !in s
  {
    Decimal(start) + "-" + Padded((start + 1) % 100, 2)
  }

  lemma {:induction false} YearsDiffer(a: nat, b: nat)
    requires FinancialYear(a) == FinancialYear(b)
    ensures a == b
  {
    FirstSplit(Decimal(a), Padded((a + 1) % 100, 2), Decimal(b), Padded((b + 1) % 100, 2), '-');
    DecimalHasValue(a);
    DecimalHasValue(b);
  }

  function Number(prefix: string, start: nat, n: nat): string {
    prefix + "/" + FinancialYear(start) + "/" + Padded(n, 4)
  }

  /** Whatever the prefixes, numbers written alike are of one year and one count. */
  lemma {:induction false} NumbersDiffer(p: string, a: nat, m: nat, q: string, b: nat, n: nat)
    requires Number(p, a, m) == Number(q, b, n)
    ensures a == b && m == n && p == q
  {
    LastSplit(p + "/" + FinancialYear(a), Padded(m, 4), q + "/" + FinancialYear(b), Padded(n, 4), '/');
    LastSplit(p, FinancialYear(a), q, FinancialYear(b), '/');
    PaddedHasValue(m, 4);
    PaddedHasValue(n, 4);
    YearsDiffer(a, b);
  }

  /** How a number reads: the prefix, the financial year as its first year and the last two digits
      of its second, and the count in at least four digits, padded with zeros. */
  lemma {:induction false} NumberReads(prefix: string, start: nat, n: nat) returns (year: string, next: string, count: string)
    ensures Number(prefix, start, n) == prefix + "/" + year + "-" + next + "/" + count
    ensures Value(year) == start && Value(next) == (start + 1) % 100 && |next| == 2
    ensures Value(count) == n && |count| >= 4 && (n < 10000 ==> |count| == 4)
  {
    year, next, count := Decimal(start), Padded((start + 1) % 100, 2), Padded(n, 4);
    DecimalHasValue(start);
    PaddedHasValue((start + 1) % 100, 2);
    PaddedHasValue(n, 4);
    DigitsOf((start + 1) % 100);
    DigitsOf(n);
    assert prefix + "/" + FinancialYear(start) + "/" + count == prefix + "/" + year + "-" + next + "/" + count;
  }

  lemma {:induction false} DigitsOf(n: nat)
    ensures n < 10 ==> |Decimal(n)| == 1
    ensures n < 100 ==> |Decimal(n)| <= 2
    ensures n < 1000 ==> |Decimal(n)| <= 3
    ensures n < 10000 ==> |Decimal(n)| <= 4
  {
    if 10 <= n {
      assert |Decimal(n)| == |Decimal(n / 10)| + 1;
      if 100 <= n {
        assert |Decimal(n / 10)| == |Decimal(n / 10 / 10)| + 1;
        if 1000 <= n { assert |Decimal(n / 10 / 10)| == |Decimal(n / 10 / 10 / 10)| + 1; }
      }
    }
  }

  /** The first of April begins a year that the last of March ends. */
  lemma {:induction false} AprilToMarch(start: nat, month: nat)
    requires start >= 1 && 1 <= month <= 12
    ensures StartYear(start, month) == start <==> month in {4, 5, 6, 7, 8, 9, 10, 11, 12}
    ensures StartYear(start + 1, month) == start <==> month in {1, 2, 3}
  {
  }

  // ----- one call -----

  datatype Order = Order(status: M.Status, invoice: Option<string>)

  predicate Dispatchable(s: M.Status) { s in {M.Confirmed, M.IsPaid, M.Refunded, M.Completed} }

  datatype DispatchError = NotFound | NotAllowed

  /** A dispatch: which order, the year it falls in, the prefix the merchant's row holds. */
  datatype Dispatch = Dispatch(orderId: string, start: nat, prefix: string)

  /** `INSERT ... ON CONFLICT DO UPDATE ... RETURNING`: the number drawn. */
  function Drawn(sequences: map<nat, nat>, start: nat): nat { if start in sequences then sequences[start] else 1 }

  function Bumped(sequences: map<nat, nat>, start: nat): map<nat, nat> {
    sequences[start := Drawn(sequences, start) + 1]
  }

  function NumberOf(d: Dispatch, n: nat): string { Number(d.prefix, d.start, n) }

  /** A call nobody interrupts. */
  function Assigned(orders: map<string, Order>, sequences: map<nat, nat>, d: Dispatch)
    : (map<string, Order>, map<nat, nat>, Result<string, DispatchError>)
  {
    if d.orderId !in orders then (orders, sequences, Err(NotFound))
    else
      var o := orders[d.orderId];
      if o.invoice.Some? then (orders, sequences, Ok(o.invoice.value))
      else if !Dispatchable(o.status) then (orders, sequences, Err(NotAllowed))
      else
        var number := NumberOf(d, Drawn(sequences, d.start));
        (orders[d.orderId := o.(invoice := Some(number))], Bumped(sequences, d.start), Ok(number))
  }

  /** A call nobody interrupts answers the number an order has, whatever its status; gives one that
      is confirmed, paid, refunded or completed the year's next number, once; and refuses every
      other order without drawing. */
  lemma {:induction false} AssignsExactly(orders: map<string, Order>, sequences: map<nat, nat>, d: Dispatch)
    ensures var (orders', sequences', r) := Assigned(orders, sequences, d);
      var n := if d.start in sequences then sequences[d.start] else 1;
      var given := d.orderId in orders && orders[d.orderId].invoice.Some?;
      var unnumbered := d.orderId in orders && orders[d.orderId].invoice == None
        && orders[d.orderId].status in {M.Confirmed, M.IsPaid, M.Refunded, M.Completed};
      && (r == Err(NotFound) <==> d.orderId !in orders)
      && (given ==> r == Ok(orders[d.orderId].invoice.value))
      && (unnumbered ==>
            && r == Ok(Number(d.prefix, d.start, n))
            && orders' == orders[d.orderId := Order(orders[d.orderId].status, Some(Number(d.prefix, d.start, n)))]
            && sequences' == sequences[d.start := n + 1])
      && (!unnumbered ==> orders' == orders && sequences' == sequences)
      && (r == Err(NotAllowed) <==> d.orderId in orders && !given && !unnumbered)
  {
  }

  class Books {
    var orders: map<string, Order>
    var sequences: map<nat, nat>

    constructor (orders: map<string, Order>)
      ensures this.orders == orders && sequences == map[]
    {
      this.orders, sequences := orders, map[];
    }

    method AssignInvoiceNumber(d: Dispatch) returns (r: Result<string, DispatchError>)
      modifies this
      ensures (orders, sequences, r) == Assigned(old(orders), old(sequences), d)
    {
      if d.orderId !in orders { return Err(NotFound); }
      if orders[d.orderId].invoice.Some? { return Ok(orders[d.orderId].invoice.value); }
      if !Dispatchable(orders[d.orderId].status) { return Err(NotAllowed); }
      var n := Drawn(sequences, d.start);
      sequences := Bumped(sequences, d.start);
      var number := NumberOf(d, n);
      orders := orders[d.orderId := orders[d.orderId].(invoice := Some(number))];
      return Ok(number);
    }
  }

  // ----- any interleaving -----

  /** A call between its statements. `Drew`: holds a number; `Lost`: somebody else's reached
      the order first; `Done` remembers what was drawn for it, if anything. */
  datatype Phase =
    | Arrived
    | Looked
    | Drew(n: nat)
    | Lost(n: nat)
    | Done(answer: string, drew: Option<nat>)
    | Failed(why: DispatchError)

  datatype Call = Call(dispatch: Dispatch, phase: Phase)

  datatype World = World(orders: map<string, Order>, sequences: map<nat, nat>, calls: seq<Call>)

  /** The next statement of a call, or a status that moves meanwhile. */
  datatype Turn = Statement(i: nat) | StatusMoves(orderId: string, status: M.Status)

  function Advanced(w: World, c: Call): (World, Phase) {
    var d := c.dispatch;
    match c.phase
    case Arrived =>
      if d.orderId !in w.orders then (w, Failed(NotFound))
      else if w.orders[d.orderId].invoice.Some? then (w, Done(w.orders[d.orderId].invoice.value, None))
      else if !Dispatchable(w.orders[d.orderId].status) then (w, Failed(NotAllowed))
      else (w, Looked)
    case Looked => (w.(sequences := Bumped(w.sequences, d.start)), Drew(Drawn(w.sequences, d.start)))
    case Drew(n) =>
      if d.orderId in w.orders && w.orders[d.orderId].invoice == None then
        (w.(orders := w.orders[d.orderId := w.orders[d.orderId].(invoice := Some(NumberOf(d, n)))]), Done(NumberOf(d, n), Some(n)))
      else (w, Lost(n))
    case Lost(n) =>
      (w, Done(if d.orderId in w.orders && w.orders[d.orderId].invoice.Some? then w.orders[d.orderId].invoice.value
               else NumberOf(d, n), Some(n)))
    case _ => (w, c.phase)
  }

  function Next(w: World, turn: Turn): World {
    match turn
    case StatusMoves(o, status) =>
      if o in w.orders then w.(orders := w.orders[o := w.orders[o].(status := status)]) else w
    case Statement(i) =>
      if i >= |w.calls| then w
      else
        var (after, phase) := Advanced(w, w.calls[i]);
        after.(calls := w.calls[i := w.calls[i].(phase := phase)])
  }

  function Played(w: World, turns: seq<Turn>): World {
    if turns == [] then w else Next(Played(w, turns[..|turns| - 1]), turns[|turns| - 1])
  }

  function DrewOf(c: Call): Option<nat> {
    match c.phase
    case Drew(n) => Some(n)
    case Lost(n) => Some(n)
    case Done(_, drew) => drew
    case _ => None
  }

  predicate Holds(c: Call, start: nat, n: nat) { c.dispatch.start == start && DrewOf(c) == Some(n) }

  /** Call `i` wrote its own number on its order. */
  predicate Wrote(c: Call) {
    c.phase.Done? && c.phase.drew.Some? && c.phase.answer == NumberOf(c.dispatch, c.phase.drew.value)
  }

  predicate InRange(sequences: map<nat, nat>, c: Call) {
    DrewOf(c).Some? ==> c.dispatch.start in sequences && 1 <= DrewOf(c).value < sequences[c.dispatch.start]
  }

  /** A finished or beaten call's order has a number, and a finished call answered it. */
  predicate AnswerHolds(orders: map<string, Order>, c: Call) {
    c.phase != Arrived && !c.phase.Failed? ==>
      && c.dispatch.orderId in orders
      && (c.phase.Done? || c.phase.Lost? ==> orders[c.dispatch.orderId].invoice.Some?)
      && (c.phase.Done? ==> orders[c.dispatch.orderId].invoice == Some(c.phase.answer))
  }

  predicate SameDraw(b: Call, c: Call) {
    DrewOf(b).Some? && DrewOf(b) == DrewOf(c) && b.dispatch.start == c.dispatch.start
  }

  ghost predicate Covered(calls: seq<Call>, start: nat, n: nat) {
    exists i :: 0 <= i < |calls| && Holds(calls[i], start, n)
  }

  predicate WroteOn(c: Call, o: string, number: string) {
    c.dispatch.orderId == o && Wrote(c) && c.phase.answer == number
  }

  ghost predicate SignedFor(calls: seq<Call>, o: string, number: string) {
    exists i :: 0 <= i < |calls| && WroteOn(calls[i], o, number)
  }

  /** What every turn keeps: each draw is one call's, and below the row's next; every number
      below it was drawn; what a call answered is on its order; and what is on an order one of
      its calls wrote. */
  ghost predicate Sound(w: World) {
    && (forall start :: start in w.sequences ==> w.sequences[start] >= 1)
    && (forall c :: c in w.calls ==> InRange(w.sequences, c) && AnswerHolds(w.orders, c))
    && (forall i, j :: 0 <= i < j < |w.calls| ==> !SameDraw(w.calls[i], w.calls[j]))
    && (forall start, n :: Below(w.sequences, start, n) ==> Covered(w.calls, start, n))
    && (forall o :: o in w.orders && w.orders[o].invoice.Some? ==> SignedFor(w.calls, o, w.orders[o].invoice.value))
  }

  predicate Below(sequences: map<nat, nat>, start: nat, n: nat) {
    start in sequences && 1 <= n < sequences[start]
  }

  /** No order has a number and no call has started. */
  predicate Opening(w: World) {
    && w.sequences == map[]
    && (forall o :: o in w.orders ==> w.orders[o].invoice == None)
    && (forall c :: c in w.calls ==> c.phase == Arrived)
  }

  lemma {:induction false} OtherCallsStaySound(w: World, turn: Turn, c: Call)
    requires Sound(w) && InRange(w.sequences, c) && AnswerHolds(w.orders, c)
    ensures InRange(Next(w, turn).sequences, c) && AnswerHolds(Next(w, turn).orders, c)
  {
    if turn.Statement? && turn.i < |w.calls| { assert w.calls[turn.i] in w.calls; }
  }

  lemma {:induction false} OwnCallStaysSound(w: World, i: nat)
    requires Sound(w) && i < |w.calls|
    ensures InRange(Next(w, Statement(i)).sequences, Next(w, Statement(i)).calls[i])
    ensures AnswerHolds(Next(w, Statement(i)).orders, Next(w, Statement(i)).calls[i])
  {
    assert w.calls[i] in w.calls;
  }

  lemma {:induction false} CallsStaySound(w: World, turn: Turn)
    requires Sound(w)
    ensures forall start :: start in Next(w, turn).sequences ==> Next(w, turn).sequences[start] >= 1
    ensures forall c :: c in Next(w, turn).calls ==> InRange(Next(w, turn).sequences, c) && AnswerHolds(Next(w, turn).orders, c)
  {
    var after := Next(w, turn);
    forall c | c in after.calls ensures InRange(after.sequences, c) && AnswerHolds(after.orders, c) {
      var j :| 0 <= j < |after.calls| && after.calls[j] == c;
      if turn == Statement(j) {
        OwnCallStaysSound(w, j);
      } else {
        assert w.calls[j] in w.calls && w.calls[j] == c;
        OtherCallsStaySound(w, turn, c);
      }
    }
  }

  /** A call draws once, and draws what nobody has. */
  lemma {:induction false} MoverDraws(w: World, k: nat)
    requires k < |w.calls|
    ensures var c := w.calls[k];
      DrewOf(Next(w, Statement(k)).calls[k]) == if c.phase == Looked then Some(Drawn(w.sequences, c.dispatch.start)) else DrewOf(c)
  {
  }

  lemma {:induction false} PairStaysApart(w: World, k: nat, j: nat)
    requires Sound(w) && k < |w.calls| && j < |w.calls| && j != k
    ensures !SameDraw(Next(w, Statement(k)).calls[k], w.calls[j]) && !SameDraw(w.calls[j], Next(w, Statement(k)).calls[k])
  {
    MoverDraws(w, k);
    assert w.calls[j] in w.calls && InRange(w.sequences, w.calls[j]);
    var i, m := if j < k then j else k, if j < k then k else j;
    assert !SameDraw(w.calls[i], w.calls[m]);
  }

  lemma {:induction false} DrawsStayApart(w: World, turn: Turn)
    requires Sound(w)
    ensures forall i, j :: 0 <= i < j < |Next(w, turn).calls| ==> !SameDraw(Next(w, turn).calls[i], Next(w, turn).calls[j])
  {
    var after := Next(w, turn);
    forall i, j | 0 <= i < j < |after.calls| ensures !SameDraw(after.calls[i], after.calls[j]) {
      if turn == Statement(i) {
        PairStaysApart(w, i, j);
      } else if turn == Statement(j) {
        PairStaysApart(w, j, i);
      } else {
        assert after.calls[i] == w.calls[i] && after.calls[j] == w.calls[j];
        assert !SameDraw(w.calls[i], w.calls[j]);
      }
    }
  }

  lemma {:induction false} DrawsStayCovered(w: World, turn: Turn, start: nat, n: nat)
    requires Sound(w) && Below(Next(w, turn).sequences, start, n)
    ensures Covered(Next(w, turn).calls, start, n)
  {
    var after := Next(w, turn);
    if Below(w.sequences, start, n) {
      assert Covered(w.calls, start, n);
      var i :| 0 <= i < |w.calls| && Holds(w.calls[i], start, n);
      assert Holds(after.calls[i], start, n);
    } else {
      assert Holds(after.calls[turn.i], start, n);
    }
  }

  lemma {:induction false} OrdersStaySigned(w: World, turn: Turn, o: string)
    requires Sound(w) && o in Next(w, turn).orders && Next(w, turn).orders[o].invoice.Some?
    ensures SignedFor(Next(w, turn).calls, o, Next(w, turn).orders[o].invoice.value)
    ensures o in w.orders && w.orders[o].invoice.Some? ==> Next(w, turn).orders[o].invoice == w.orders[o].invoice
  {
    var after := Next(w, turn);
    if o in w.orders && w.orders[o].invoice.Some? {
      assert SignedFor(w.calls, o, w.orders[o].invoice.value);
      var i :| 0 <= i < |w.calls| && WroteOn(w.calls[i], o, w.orders[o].invoice.value);
      assert after.calls[i] == w.calls[i];
    } else {
      assert WroteOn(after.calls[turn.i], o, after.orders[o].invoice.value);
    }
  }

  lemma {:induction false} TurnKeepsSound(w: World, turn: Turn)
    requires Sound(w)
    ensures Sound(Next(w, turn))
  {
    var after := Next(w, turn);
    CallsStaySound(w, turn);
    DrawsStayApart(w, turn);
    forall start, n | Below(after.sequences, start, n) ensures Covered(after.calls, start, n) { DrawsStayCovered(w, turn, start, n); }
    forall o | o in after.orders && after.orders[o].invoice.Some? ensures SignedFor(after.calls, o, after.orders[o].invoice.value) {
      OrdersStaySigned(w, turn, o);
    }
  }

  lemma {:induction false} EveryRunIsSound(w: World, turns: seq<Turn>)
    requires Opening(w)
    ensures Sound(Played(w, turns))
  {
    if turns != [] {
      EveryRunIsSound(w, turns[..|turns| - 1]);
      TurnKeepsSound(Played(w, turns[..|turns| - 1]), turns[|turns| - 1]);
    }
  }

  // ----- what every run shows -----

  /** Two finished calls for one order answered the same number. */
  lemma {:induction false} OneOrderOneNumber(w: World, turns: seq<Turn>, i: nat, j: nat)
    requires Opening(w)
    ensures var after := Played(w, turns);
      i < |after.calls| && j < |after.calls| && after.calls[i].phase.Done? && after.calls[j].phase.Done?
      && after.calls[i].dispatch.orderId == after.calls[j].dispatch.orderId
      ==> after.calls[i].phase.answer == after.calls[j].phase.answer
  {
    EveryRunIsSound(w, turns);
    var after := Played(w, turns);
    if i < |after.calls| && j < |after.calls| {
      assert after.calls[i] in after.calls && after.calls[j] in after.calls;
    }
  }

  /** A number once on an order never changes. */
  lemma {:induction false} ANumberStays(w: World, before: seq<Turn>, later: seq<Turn>, o: string)
    requires Opening(w) && o in Played(w, before).orders && Played(w, before).orders[o].invoice.Some?
    ensures o in Played(w, before + later).orders
    ensures Played(w, before + later).orders[o].invoice == Played(w, before).orders[o].invoice
  {
    if later == [] {
      assert before + later == before;
    } else {
      var front, last := later[..|later| - 1], later[|later| - 1];
      var all := before + later;
      assert all == (before + front) + [last];
      PlayedSnoc(w, before + front, last);
      ANumberStays(w, before, front, o);
      EveryRunIsSound(w, before + front);
      OrderStays(Played(w, before + front), last, o);
    }
  }

  lemma {:induction false} OrderStays(w: World, turn: Turn, o: string)
    requires Sound(w) && o in w.orders && w.orders[o].invoice.Some?
    ensures o in Next(w, turn).orders && Next(w, turn).orders[o].invoice == w.orders[o].invoice
  {
    OrdersStaySigned(w, turn, o);
  }

  /** Two orders with one number would be one draw by two calls. */
  lemma {:induction false} WritersDiffer(w: World, i: nat, j: nat, o: string, p: string, number: string)
    requires Sound(w) && i < |w.calls| && j < |w.calls| && o != p
    requires WroteOn(w.calls[i], o, number)
    ensures !WroteOn(w.calls[j], p, number)
  {
    var c, d := w.calls[i], w.calls[j];
    if WroteOn(d, p, number) {
      NumbersDiffer(c.dispatch.prefix, c.dispatch.start, c.phase.drew.value, d.dispatch.prefix, d.dispatch.start, d.phase.drew.value);
      assert SameDraw(c, d) && SameDraw(d, c);
      assert false;
    }
  }

  /** No two orders share a number. */
  lemma {:induction false} NoTwoOrdersShare(w: World, turns: seq<Turn>, o: string, p: string)
    requires Opening(w) && o != p
    ensures var orders := Played(w, turns).orders;
      o in orders && p in orders && orders[o].invoice.Some? ==> orders[o].invoice != orders[p].invoice
  {
    EveryRunIsSound(w, turns);
    var orders := Played(w, turns).orders;
    if o in orders && p in orders && orders[o].invoice.Some? { SoundApart(Played(w, turns), o, p); }
  }

  lemma {:induction false} SoundApart(w: World, o: string, p: string)
    requires Sound(w) && o != p && o in w.orders && p in w.orders && w.orders[o].invoice.Some?
    ensures w.orders[o].invoice != w.orders[p].invoice
  {
    if w.orders[o].invoice == w.orders[p].invoice {
      var number := w.orders[o].invoice.value;
      assert SignedFor(w.calls, o, number) && SignedFor(w.calls, p, number);
      var i :| 0 <= i < |w.calls| && WroteOn(w.calls[i], o, number);
      var j :| 0 <= j < |w.calls| && WroteOn(w.calls[j], p, number);
      WritersDiffer(w, i, j, o, p, number);
    }
  }

  /** The number a draw stands for is on its call's order. */
  predicate Used(orders: map<string, Order>, c: Call) {
    DrewOf(c).Some? ==> c.dispatch.orderId in orders && orders[c.dispatch.orderId].invoice == Some(NumberOf(c.dispatch, DrewOf(c).value))
  }

  ghost predicate OnAnOrder(w: World, start: nat, n: nat) {
    exists o, prefix :: o in w.orders && w.orders[o].invoice == Some(Number(prefix, start, n))
  }

  /** Gapless exactly when no draw was wasted: the numbers of a year that stand on orders are
      1 up to the row's next if and only if every call of that year that drew a number saw its
      own number on its order. */
  lemma {:induction false} GaplessExactly(w: World, turns: seq<Turn>, start: nat)
    requires Opening(w)
    ensures var after := Played(w, turns);
      (forall n :: Below(after.sequences, start, n) ==> OnAnOrder(after, start, n))
      <==> (forall c :: c in after.calls && c.dispatch.start == start ==> Used(after.orders, c))
    ensures var after := Played(w, turns);
      forall n :: n >= 1 && OnAnOrder(after, start, n) ==> Below(after.sequences, start, n)
  {
    EveryRunIsSound(w, turns);
    var after := Played(w, turns);
    if forall n :: Below(after.sequences, start, n) ==> OnAnOrder(after, start, n) {
      forall c | c in after.calls && c.dispatch.start == start ensures Used(after.orders, c) {
        if DrewOf(c).Some? { StandingIsUsed(after, c); }
      }
    }
    if forall c :: c in after.calls && c.dispatch.start == start ==> Used(after.orders, c) {
      forall n | Below(after.sequences, start, n) ensures OnAnOrder(after, start, n) {
        assert Covered(after.calls, start, n);
        var i :| 0 <= i < |after.calls| && Holds(after.calls[i], start, n);
        assert after.calls[i] in after.calls;
      }
    }
    forall n | n >= 1 && OnAnOrder(after, start, n) ensures Below(after.sequences, start, n) {
      var i := WriterOf(after, start, n);
      assert after.calls[i] in after.calls;
    }
  }

  lemma {:induction false} WriterOf(w: World, start: nat, n: nat) returns (i: nat)
    requires Sound(w) && OnAnOrder(w, start, n)
    ensures i < |w.calls| && Holds(w.calls[i], start, n) && Used(w.orders, w.calls[i])
  {
    var o, prefix :| o in w.orders && w.orders[o].invoice == Some(Number(prefix, start, n));
    assert SignedFor(w.calls, o, w.orders[o].invoice.value);
    i :| 0 <= i < |w.calls| && WroteOn(w.calls[i], o, w.orders[o].invoice.value);
    var c := w.calls[i];
    NumbersDiffer(c.dispatch.prefix, c.dispatch.start, c.phase.drew.value, prefix, start, n);
  }

  lemma {:induction false} StandingIsUsed(w: World, c: Call)
    requires Sound(w) && c in w.calls && DrewOf(c).Some? && OnAnOrder(w, c.dispatch.start, DrewOf(c).value)
    ensures Used(w.orders, c)
  {
    var i := WriterOf(w, c.dispatch.start, DrewOf(c).value);
    var j :| 0 <= j < |w.calls| && w.calls[j] == c;
    if i != j {
      assert SameDraw(w.calls[i], w.calls[j]) && SameDraw(w.calls[j], w.calls[i]);
      assert false;
    }
  }

  // ----- calls that do not overlap -----

  predicate InFlight(c: Call) { c.phase in {Looked} || c.phase.Drew? || c.phase.Lost? }

  /** No other call for the same order is under way. */
  predicate Alone(w: World, i: nat)
    requires i < |w.calls|
  {
    forall j :: 0 <= j < |w.calls| && j != i && InFlight(w.calls[j]) ==> w.calls[j].dispatch.orderId != w.calls[i].dispatch.orderId
  }

  /** Calls for one order start only when no other is under way. */
  ghost predicate OneAtATime(w: World, turns: seq<Turn>) {
    forall k :: 0 <= k < |turns| && turns[k].Statement? && turns[k].i < |Played(w, turns[..k]).calls| ==>
      Alone(Played(w, turns[..k]), turns[k].i)
  }

  /** Whoever is under way is alone with an order that has no number yet. */
  predicate Unbeaten(w: World, i: nat)
    requires i < |w.calls|
  {
    InFlight(w.calls[i]) ==>
      && w.calls[i].dispatch.orderId in w.orders && w.orders[w.calls[i].dispatch.orderId].invoice == None
      && !w.calls[i].phase.Lost? && Alone(w, i)
  }

  ghost predicate NobodyLoses(w: World) {
    && (forall i :: 0 <= i < |w.calls| ==> Unbeaten(w, i))
    && (forall i :: 0 <= i < |w.calls| && w.calls[i].phase.Done? ==> Used(w.orders, w.calls[i]))
  }

  lemma {:induction false} OwnStep(w: World, i: nat)
    requires Sound(w) && NobodyLoses(w) && i < |w.calls| && Alone(w, i)
    ensures Unbeaten(Next(w, Statement(i)), i)
    ensures Next(w, Statement(i)).calls[i].phase.Done? ==> Used(Next(w, Statement(i)).orders, Next(w, Statement(i)).calls[i])
  {
    var after := Next(w, Statement(i));
    assert Unbeaten(w, i);
    assert Alone(after, i) by {
      forall j | 0 <= j < |after.calls| && j != i && InFlight(after.calls[j]) ensures after.calls[j].dispatch.orderId != after.calls[i].dispatch.orderId {
        assert after.calls[j] == w.calls[j];
      }
    }
  }

  lemma {:induction false} OthersStep(w: World, turn: Turn, j: nat)
    requires Sound(w) && NobodyLoses(w) && j < |w.calls| && turn != Statement(j)
    requires turn.Statement? && turn.i < |w.calls| ==> Alone(w, turn.i)
    ensures Unbeaten(Next(w, turn), j)
    ensures w.calls[j].phase.Done? ==> Used(Next(w, turn).orders, w.calls[j])
  {
    var after := Next(w, turn);
    var c := w.calls[j];
    assert Unbeaten(w, j) && c in w.calls && AnswerHolds(w.orders, c) && after.calls[j] == c;
    if c.phase.Done? { OtherCallsStaySound(w, turn, c); }
    if InFlight(c) {
      assert Alone(after, j) by {
        forall k | 0 <= k < |after.calls| && k != j && InFlight(after.calls[k]) ensures after.calls[k].dispatch.orderId != c.dispatch.orderId {
          if turn != Statement(k) { assert after.calls[k] == w.calls[k]; }
        }
      }
    }
  }

  lemma {:induction false} NobodyLosesStep(w: World, turn: Turn)
    requires Sound(w) && NobodyLoses(w)
    requires turn.Statement? && turn.i < |w.calls| ==> Alone(w, turn.i)
    ensures NobodyLoses(Next(w, turn))
  {
    var after := Next(w, turn);
    forall i | 0 <= i < |after.calls|
      ensures Unbeaten(after, i) && (after.calls[i].phase.Done? ==> Used(after.orders, after.calls[i]))
    {
      if turn == Statement(i) {
        OwnStep(w, i);
      } else {
        assert after.calls[i] == w.calls[i];
        OthersStep(w, turn, i);
      }
    }
  }

  lemma {:induction false} NobodyEverLoses(w: World, turns: seq<Turn>)
    requires Opening(w) && OneAtATime(w, turns)
    ensures NobodyLoses(Played(w, turns))
  {
    if turns != [] {
      var before := turns[..|turns| - 1];
      forall k | 0 <= k < |before| && before[k].Statement? && before[k].i < |Played(w, before[..k]).calls|
        ensures Alone(Played(w, before[..k]), before[k].i)
      {
        assert before[..k] == turns[..k] && before[k] == turns[k];
      }
      NobodyEverLoses(w, before);
      EveryRunIsSound(w, before);
      assert turns[..|turns| - 1] == before;
      NobodyLosesStep(Played(w, before), turns[|turns| - 1]);
    }
  }

  /** When calls for one order do not overlap and every call has been answered, the numbers of
      each financial year that stand on orders are exactly 1 up to the row's next. */
  lemma {:induction false} GaplessWhenApart(w: World, turns: seq<Turn>, start: nat, n: nat)
    requires Opening(w) && OneAtATime(w, turns)
    requires forall c :: c in Played(w, turns).calls ==> !InFlight(c)
    requires n >= 1
    ensures OnAnOrder(Played(w, turns), start, n) <==> Below(Played(w, turns).sequences, start, n)
  {
    NobodyEverLoses(w, turns);
    GaplessExactly(w, turns, start);
  }

  // ----- gapless, exactly -----

  /** The turn in which call `i` reads its order, or the length when it never does. */
  function LookTurn(turns: seq<Turn>, i: nat): (t: nat)
    ensures t <= |turns|
  {
    if turns == [] then 0
    else
      var t := LookTurn(turns[..|turns| - 1], i);
      if t < |turns| - 1 || turns[|turns| - 1] == Statement(i) then t else t + 1
  }

  /** What the first SELECT of a call finds: an order that may be dispatched and has no number. */
  predicate FindsFree(w: World, d: Dispatch) {
    d.orderId in w.orders && w.orders[d.orderId].invoice == None && Dispatchable(w.orders[d.orderId].status)
  }

  predicate LookedFree(w: World, turns: seq<Turn>, i: nat)
    requires i < |w.calls|
  {
    LookTurn(turns, i) < |turns| && FindsFree(Played(w, turns[..LookTurn(turns, i)]), w.calls[i].dispatch)
  }

  predicate Drawing(c: Call) { c.phase == Looked || DrewOf(c).Some? }

  /** What one turn does to call `i`: its first statement decides whether it draws. */
  lemma {:induction false} TurnOfCall(w: World, turn: Turn, i: nat)
    requires i < |w.calls|
    ensures var after := Next(w, turn);
      && |after.calls| == |w.calls| && after.calls[i].dispatch == w.calls[i].dispatch
      && (turn != Statement(i) ==> after.calls[i].phase == w.calls[i].phase)
      && (turn == Statement(i) ==> after.calls[i].phase != Arrived)
      && (turn == Statement(i) && w.calls[i].phase == Arrived ==> (Drawing(after.calls[i]) <==> FindsFree(w, w.calls[i].dispatch)))
      && (w.calls[i].phase != Arrived ==> (Drawing(after.calls[i]) <==> Drawing(w.calls[i])))
  {
  }

  lemma {:induction false} LooksOnce(w: World, turns: seq<Turn>, last: Turn, i: nat)
    requires i < |w.calls|
    ensures var all := turns + [last];
      var t := LookTurn(turns, i);
      && (t < |turns| ==> LookTurn(all, i) == t && (LookedFree(w, all, i) <==> LookedFree(w, turns, i)))
      && (t == |turns| && last == Statement(i) ==>
            LookTurn(all, i) == t && (LookedFree(w, all, i) <==> FindsFree(Played(w, turns), w.calls[i].dispatch)))
      && (t == |turns| && last != Statement(i) ==> LookTurn(all, i) == |all| && !LookedFree(w, all, i))
  {
    var all, t := turns + [last], LookTurn(turns, i);
    assert all[..|all| - 1] == turns && all[|all| - 1] == last;
    assert all[..t] == turns[..t] && turns[..|turns|] == turns;
  }

  /** A call goes on to draw a number exactly when its read found the order free. */
  lemma {:induction false} DrawsIfItLookedFree(w: World, turns: seq<Turn>, i: nat)
    requires i < |w.calls| && w.calls[i].phase == Arrived
    ensures var after := Played(w, turns);
      && |after.calls| == |w.calls| && after.calls[i].dispatch == w.calls[i].dispatch
      && (after.calls[i].phase == Arrived <==> LookTurn(turns, i) == |turns|)
      && ((after.calls[i].phase == Looked || DrewOf(after.calls[i]).Some?) <==> LookedFree(w, turns, i))
  {
    if turns != [] {
      var front, last := turns[..|turns| - 1], turns[|turns| - 1];
      DrawsIfItLookedFree(w, front, i);
      TurnOfCall(Played(w, front), last, i);
      LooksOnce(w, front, last, i);
      assert turns == front + [last];
    }
  }

  lemma {:induction false} AllDrawsAsLooked(w: World, turns: seq<Turn>)
    requires Opening(w) && forall c :: c in Played(w, turns).calls ==> !InFlight(c)
    ensures var after := Played(w, turns);
      |after.calls| == |w.calls| && forall i :: 0 <= i < |w.calls| ==>
        && after.calls[i].dispatch == w.calls[i].dispatch
        && (DrewOf(after.calls[i]).Some? <==> LookedFree(w, turns, i))
  {
    SameCount(w, turns);
    var after := Played(w, turns);
    forall i | 0 <= i < |w.calls|
      ensures after.calls[i].dispatch == w.calls[i].dispatch && (DrewOf(after.calls[i]).Some? <==> LookedFree(w, turns, i))
    {
      assert w.calls[i] in w.calls;
      DrawsIfItLookedFree(w, turns, i);
      assert after.calls[i] in after.calls;
    }
  }

  lemma {:induction false} SameCount(w: World, turns: seq<Turn>)
    ensures |Played(w, turns).calls| == |w.calls|
  {
    if turns != [] { SameCount(w, turns[..|turns| - 1]); }
  }

  /** A call whose order nobody else drew for stands on it. */
  lemma {:induction false} OnlyDrawIsUsed(w: World, i: nat)
    requires Sound(w) && i < |w.calls| && !InFlight(w.calls[i]) && DrewOf(w.calls[i]).Some?
    requires forall j :: 0 <= j < |w.calls| && j != i && w.calls[j].dispatch.orderId == w.calls[i].dispatch.orderId ==>
      DrewOf(w.calls[j]) == None
    ensures Used(w.orders, w.calls[i])
  {
    var c := w.calls[i];
    var o := c.dispatch.orderId;
    assert c in w.calls && AnswerHolds(w.orders, c) && c.phase.Done?;
    assert SignedFor(w.calls, o, w.orders[o].invoice.value);
    var j :| 0 <= j < |w.calls| && WroteOn(w.calls[j], o, w.orders[o].invoice.value);
    assert DrewOf(w.calls[j]).Some?;
  }

  /** Two calls for one order cannot both have their numbers stand. */
  lemma {:induction false} NotBothUsed(w: World, i: nat, j: nat)
    requires Sound(w) && i < j < |w.calls| && w.calls[i].dispatch.orderId == w.calls[j].dispatch.orderId
    requires DrewOf(w.calls[i]).Some? && DrewOf(w.calls[j]).Some?
    ensures !(Used(w.orders, w.calls[i]) && Used(w.orders, w.calls[j]))
  {
    var c, d := w.calls[i], w.calls[j];
    assert !SameDraw(c, d);
    if Number(c.dispatch.prefix, c.dispatch.start, DrewOf(c).value) == Number(d.dispatch.prefix, d.dispatch.start, DrewOf(d).value) {
      NumbersDiffer(c.dispatch.prefix, c.dispatch.start, DrewOf(c).value, d.dispatch.prefix, d.dispatch.start, DrewOf(d).value);
    }
  }

  ghost predicate NoTwoFoundItFree(w: World, turns: seq<Turn>) {
    forall i, j :: 0 <= i < j < |w.calls| && w.calls[i].dispatch.orderId == w.calls[j].dispatch.orderId ==>
      !(LookedFree(w, turns, i) && LookedFree(w, turns, j))
  }

  ghost predicate Gapless(w: World) {
    forall start, n :: Below(w.sequences, start, n) ==> OnAnOrder(w, start, n)
  }

  /** Over every interleaving with nobody left under way: every year is gapless if and only if
      no two calls for one order both read it without a number. */
  lemma {:induction false} GaplessIfNoTwoFoundItFree(w: World, turns: seq<Turn>)
    requires Opening(w) && forall c :: c in Played(w, turns).calls ==> !InFlight(c)
    ensures Gapless(Played(w, turns)) <==> NoTwoFoundItFree(w, turns)
  {
    EveryRunIsSound(w, turns);
    AllDrawsAsLooked(w, turns);
    var after := Played(w, turns);
    if NoTwoFoundItFree(w, turns) {
      forall c | c in after.calls ensures Used(after.orders, c) {
        var i :| 0 <= i < |after.calls| && after.calls[i] == c;
        if DrewOf(c).Some? { OnlyDrawIsUsed(after, i); }
      }
      forall start, n | Below(after.sequences, start, n) ensures OnAnOrder(after, start, n) { GaplessExactly(w, turns, start); }
    }
    if Gapless(after) {
      forall c | c in after.calls ensures Used(after.orders, c) { GaplessExactly(w, turns, c.dispatch.start); }
      forall i, j | 0 <= i < j < |w.calls| && w.calls[i].dispatch.orderId == w.calls[j].dispatch.orderId
        ensures !(LookedFree(w, turns, i) && LookedFree(w, turns, j))
      {
        assert after.calls[i] in after.calls && after.calls[j] in after.calls;
        if DrewOf(after.calls[i]).Some? && DrewOf(after.calls[j]).Some? { NotBothUsed(after, i, j); }
      }
    }
  }

  function TwoCalls(first: Phase, second: Phase, invoice: Option<string>, sequences: map<nat, nat>): World {
    var d := Dispatch("a", 2024, "SD");
    World(map["a" := Order(M.Confirmed, invoice)], sequences, [Call(d, first), Call(d, second)])
  }

  lemma {:induction false} PlayedSnoc(w: World, turns: seq<Turn>, turn: Turn)
    ensures Played(w, turns + [turn]) == Next(Played(w, turns), turn)
  {
    assert (turns + [turn])[..|turns|] == turns;
  }

  lemma {:induction false} BothLook()
    ensures Next(Next(TwoCalls(Arrived, Arrived, None, map[]), Statement(0)), Statement(1)) == TwoCalls(Looked, Looked, None, map[])
  {
  }

  lemma {:induction false} BothDraw()
    ensures Next(Next(TwoCalls(Looked, Looked, None, map[]), Statement(0)), Statement(1))
      == TwoCalls(Drew(1), Drew(2), None, map[2024 := 3])
  {
    var none: map<nat, nat> := map[];
    assert Bumped(none, 2024) == map[2024 := 2];
    assert Bumped(map[2024 := 2], 2024) == map[2024 := 3];
  }

  lemma {:induction false} OneWrites(one: string)
    requires one == Number("SD", 2024, 1)
    ensures Next(Next(TwoCalls(Drew(1), Drew(2), None, map[2024 := 3]), Statement(0)), Statement(1))
      == TwoCalls(Done(one, Some(1)), Lost(2), Some(one), map[2024 := 3])
  {
    var w := TwoCalls(Drew(1), Drew(2), None, map[2024 := 3]);
    var orders: map<string, Order> := map["a" := Order(M.Confirmed, None)];
    assert orders["a" := Order(M.Confirmed, Some(one))] == map["a" := Order(M.Confirmed, Some(one))];
    assert Next(w, Statement(0)) == TwoCalls(Done(one, Some(1)), Drew(2), Some(one), map[2024 := 3]);
  }

  lemma {:induction false} TwoIsMissing(one: string)
    requires one == Number("SD", 2024, 1)
    ensures !OnAnOrder(TwoCalls(Done(one, Some(1)), Lost(2), Some(one), map[2024 := 3]), 2024, 2)
  {
    var w := TwoCalls(Done(one, Some(1)), Lost(2), Some(one), map[2024 := 3]);
    if OnAnOrder(w, 2024, 2) {
      var o, prefix :| o in w.orders && w.orders[o].invoice == Some(Number(prefix, 2024, 2));
      NumbersDiffer("SD", 2024, 1, prefix, 2024, 2);
    }
  }

  /** Two calls for one order that overlap burn a number: both look, both draw, one loses. */
  lemma {:induction false} OverlapLeavesAGap()
    ensures var start := TwoCalls(Arrived, Arrived, None, map[]);
      var after := Played(start, [] + [Statement(0)] + [Statement(1)] + [Statement(0)] + [Statement(1)] + [Statement(0)] + [Statement(1)]);
      Opening(start) && Below(after.sequences, 2024, 2) && !OnAnOrder(after, 2024, 2)
  {
    var w, a, b := TwoCalls(Arrived, Arrived, None, map[]), Statement(0), Statement(1);
    PlayedSnoc(w, [], a);
    PlayedSnoc(w, [] + [a], b);
    BothLook();
    PlayedSnoc(w, [] + [a] + [b], a);
    PlayedSnoc(w, [] + [a] + [b] + [a], b);
    BothDraw();
    PlayedSnoc(w, [] + [a] + [b] + [a] + [b], a);
    PlayedSnoc(w, [] + [a] + [b] + [a] + [b] + [a], b);
    OneWrites(Number("SD", 2024, 1));
    TwoIsMissing(Number("SD", 2024, 1));
  }
}
