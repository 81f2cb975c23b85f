/** What every run of doors 3 to 6 keeps. */
module StockRuns {
  import opened Wrappers
  import opened Sums
  import opened Stock
  import M = Money

  datatype Request =
    | ReserveR(order: string, lines: seq<Line>, code: Option<string>)
    | CommitR(order: string)
    | ReleaseR(order: string)
    | RestockR(order: string, lines: seq<Line>)

  function Serve(s: Shop, known: set<nat>, r: Request): (Shop, Answer) {
    match r
    case ReserveR(order, lines, code) => Reserve(s, known, order, lines, code)
    case CommitR(order) => Commit(s, order)
    case ReleaseR(order) => Release(s, order)
    case RestockR(order, lines) => Restock(s, known, order, lines)
  }

  function Run(s: Shop, known: set<nat>, rs: seq<Request>): Shop {
    if rs == [] then s else Serve(Run(s, known, rs[..|rs| - 1]), known, rs[|rs| - 1]).0
  }

  // ----- conservation -----

  /** What a row says is off the shelf: held and committed units are, released units are
      back, restocked units came from outside. */
  function Weight(product: nat): HoldRow -> int {
    (r: HoldRow) =>
      if r.Code? || r.product != product then 0
      else match r.state
        case Held => r.qty
        case Committed => r.qty
        case Released => 0
        case Restocked => 0 - r.qty as int
  }

  function OnShelf(s: Shop, product: nat): int
    requires product in s.stock
  {
    s.stock[product]
  }

  /** Available, and held, and committed, less what was brought back from outside. */
  function Units(s: Shop, product: nat): int
    requires product in s.stock
  {
    OnShelf(s, product) + SumBy(s.holds, Weight(product))
  }

  lemma {:induction false} TakeAllMoves(stock: map<nat, int>, wanted: seq<Line>, order: string, product: nat)
    requires TakeAll(stock, wanted).Ok? && product in stock
    ensures TakeAll(stock, wanted).value.Keys == stock.Keys
    ensures TakeAll(stock, wanted).value[product] + SumBy(Map(wanted, UnitsOf(order)), Weight(product)) == stock[product]
    ensures (forall p :: p in stock ==> stock[p] >= 0) ==>
      forall p :: p in stock ==> TakeAll(stock, wanted).value[p] >= 0
  {
    if wanted != [] {
      var w := wanted[0];
      TakeAllMoves(stock[w.product := stock[w.product] - w.qty], wanted[1..], order, product);
      assert Map(wanted, UnitsOf(order))[1..] == Map(wanted[1..], UnitsOf(order));
    }
  }

  lemma {:induction false} GiveBackMoves(stock: map<nat, int>, holds: seq<HoldRow>, order: string, product: nat)
    requires product in stock
    ensures GiveBack(stock, holds, order).Keys == stock.Keys
    ensures GiveBack(stock, holds, order)[product] + SumBy(SetState(holds, order, Released), Weight(product))
         == stock[product] + SumBy(holds, Weight(product))
  {
    if holds != [] {
      var n := |holds| - 1;
      GiveBackMoves(stock, holds[..n], order, product);
      BackMoves(GiveBack(stock, holds[..n], order), holds[n], order, product);
      SumsOfBoth(holds, order, product);
    }
  }

  lemma {:induction false} BackMoves(stock: map<nat, int>, r: HoldRow, order: string, product: nat)
    requires product in stock
    ensures Back(stock, r, order).Keys == stock.Keys
    ensures Back(stock, r, order)[product] + Weight(product)(Moved(r, order, Released)) == stock[product] + Weight(product)(r)
  {
  }

  lemma {:induction false} SumsOfBoth(holds: seq<HoldRow>, order: string, product: nat)
    requires holds != []
    ensures var n := |holds| - 1;
      && SumBy(holds, Weight(product)) == SumBy(holds[..n], Weight(product)) + Weight(product)(holds[n])
      && SumBy(SetState(holds, order, Released), Weight(product))
        == SumBy(SetState(holds[..n], order, Released), Weight(product)) + Weight(product)(Moved(holds[n], order, Released))
  {
    var n := |holds| - 1;
    assert holds == holds[..n] + [holds[n]];
    SumSnoc(holds[..n], holds[n], Weight(product));
    assert SetState(holds, order, Released) == SetState(holds[..n], order, Released) + [Moved(holds[n], order, Released)];
    SumSnoc(SetState(holds[..n], order, Released), Moved(holds[n], order, Released), Weight(product));
  }

  lemma {:induction false} GiveBackOnlyAdds(stock: map<nat, int>, holds: seq<HoldRow>, order: string, product: nat)
    requires product in stock
    ensures product in GiveBack(stock, holds, order) && GiveBack(stock, holds, order)[product] >= stock[product]
  {
    if holds != [] { GiveBackOnlyAdds(stock, holds[..|holds| - 1], order, product); }
  }

  lemma {:induction false} CommitMovesNothing(holds: seq<HoldRow>, order: string, product: nat)
    ensures SumBy(SetState(holds, order, Committed), Weight(product)) == SumBy(holds, Weight(product))
  {
    if holds != [] {
      CommitMovesNothing(holds[1..], order, product);
      assert SetState(holds, order, Committed)[1..] == SetState(holds[1..], order, Committed);
    }
  }

  lemma {:induction false} RestockMoves(s: Shop, order: string, lines: seq<Line>, product: nat)
    requires product in s.stock
    ensures RestockLines(s, order, lines).stock.Keys == s.stock.Keys
    ensures Units(RestockLines(s, order, lines), product) == Units(s, product)
    ensures (forall p :: p in s.stock ==> s.stock[p] >= 0) ==>
      forall p :: p in s.stock ==> RestockLines(s, order, lines).stock[p] >= 0
  {
    if lines != [] {
      var n := |lines| - 1;
      RestockMoves(s, order, lines[..n], product);
      var before := RestockLines(s, order, lines[..n]);
      SumSnoc(before.holds, HoldRow.Units(order, lines[n].product, lines[n].qty, Restocked), Weight(product));
    }
  }

  lemma {:induction false} ReserveMoves(s: Shop, known: set<nat>, order: string, lines: seq<Line>, code: Option<string>, product: nat)
    requires product in s.stock
    ensures var (t, _) := Reserve(s, known, order, lines, code);
      && t.stock.Keys == s.stock.Keys && Units(t, product) == Units(s, product)
      && ((forall p :: p in s.stock ==> s.stock[p] >= 0) ==> forall p :: p in s.stock ==> t.stock[p] >= 0)
  {
    var wanted := Wanted(lines);
    if FirstUnknown(lines, known) == None && TakeAll(s.stock, wanted).Ok? {
      TakeAllMoves(s.stock, wanted, order, product);
      var rows := Map(wanted, UnitsOf(order));
      SumConcat(s.holds, rows, Weight(product));
      if code.Some? {
        SumSnoc(s.holds + rows, Code(order, code.value, Held), Weight(product));
      }
    }
  }

  /** Unit conservation: every door, answered or refused, keeps each product's units, and
      none drives a count below zero. */
  lemma {:induction false} ServeConserves(s: Shop, known: set<nat>, r: Request, product: nat)
    requires product in s.stock
    ensures var t := Serve(s, known, r).0;
      && t.stock.Keys == s.stock.Keys && Units(t, product) == Units(s, product)
      && ((forall p :: p in s.stock ==> s.stock[p] >= 0) ==> forall p :: p in s.stock ==> t.stock[p] >= 0)
  {
    match r
    case ReserveR(order, lines, code) => ReserveMoves(s, known, order, lines, code, product);
    case CommitR(order) => CommitMovesNothing(s.holds, order, product);
    case ReleaseR(order) =>
      GiveBackMoves(s.stock, s.holds, order, product);
      forall p | p in s.stock ensures p in GiveBack(s.stock, s.holds, order) && GiveBack(s.stock, s.holds, order)[p] >= s.stock[p] {
        GiveBackOnlyAdds(s.stock, s.holds, order, p);
      }
    case RestockR(order, lines) => RestockMoves(s, order, lines, product);
  }

  /** Over any run of doors 3 to 6: available plus held plus committed is what there was plus
      what was restocked, and nothing is ever oversold. */
  lemma {:induction false} EveryRunConserves(s: Shop, known: set<nat>, rs: seq<Request>, product: nat)
    requires product in s.stock && forall p :: p in s.stock ==> s.stock[p] >= 0
    ensures var t := Run(s, known, rs);
      && t.stock.Keys == s.stock.Keys && Units(t, product) == Units(s, product)
      && (forall p :: p in s.stock ==> t.stock[p] >= 0)
  {
    if rs != [] {
      EveryRunConserves(s, known, rs[..|rs| - 1], product);
      ServeConserves(Run(s, known, rs[..|rs| - 1]), known, rs[|rs| - 1], product);
    }
  }

  // ----- one order's hold, and its coupon -----

  predicate Mine(r: HoldRow, order: string) { r.order == order && r.state != Restocked }

  /** All rows an order took are in one state. */
  ghost predicate Uniform(holds: seq<HoldRow>, order: string, state: State) {
    forall r :: r in holds && Mine(r, order) ==> r.state == state
  }

  ghost predicate OneState(holds: seq<HoldRow>, order: string) {
    exists state :: state != Restocked && Uniform(holds, order, state)
  }

  lemma {:induction false} UniformAppend(holds: seq<HoldRow>, rows: seq<HoldRow>, order: string, state: State)
    requires Uniform(holds, order, state) && Uniform(rows, order, state)
    ensures Uniform(holds + rows, order, state)
  {
    forall r | r in holds + rows && Mine(r, order) ensures r.state == state {
      assert r in holds || r in rows;
    }
  }

  ghost predicate NoRows(holds: seq<HoldRow>, order: string) { forall r :: r in holds ==> !Mine(r, order) }

  /** The hold as the money path sees it. */
  ghost function HoldOf(holds: seq<HoldRow>, order: string): M.Hold {
    if NoRows(holds, order) then M.NoHold
    else if HasRow(holds, order, Held) then M.Held
    else if HasRow(holds, order, Committed) then M.Committed
    else M.Released
  }

  /** Two tables with the same rows of an order say the same about it. */
  ghost predicate SameRows(a: seq<HoldRow>, b: seq<HoldRow>, order: string) {
    forall r :: Mine(r, order) ==> (r in a <==> r in b)
  }

  lemma {:induction false} SameRowsHaveRow(a: seq<HoldRow>, b: seq<HoldRow>, order: string, state: State)
    requires SameRows(a, b, order) && state != Restocked && HasRow(a, order, state)
    ensures HasRow(b, order, state)
  {
    var r :| r in a && r.order == order && r.state == state;
    assert Mine(r, order) && r in b;
  }

  lemma {:induction false} SameRowsSameHold(a: seq<HoldRow>, b: seq<HoldRow>, order: string)
    requires SameRows(a, b, order)
    ensures HoldOf(b, order) == HoldOf(a, order)
    ensures OneState(a, order) ==> OneState(b, order)
  {
    if HasRow(a, order, Held) { SameRowsHaveRow(a, b, order, Held); }
    if HasRow(b, order, Held) { SameRowsHaveRow(b, a, order, Held); }
    if HasRow(a, order, Committed) { SameRowsHaveRow(a, b, order, Committed); }
    if HasRow(b, order, Committed) { SameRowsHaveRow(b, a, order, Committed); }
    if OneState(a, order) {
      var state :| state != Restocked && Uniform(a, order, state);
      assert Uniform(b, order, state);
    }
  }

  /** Rows of other orders, and restocked rows, leave an order's hold alone. */
  lemma {:induction false} OthersAppend(holds: seq<HoldRow>, rows: seq<HoldRow>, order: string)
    requires forall r :: r in rows ==> !Mine(r, order)
    ensures OneState(holds, order) ==> OneState(holds + rows, order)
    ensures HoldOf(holds + rows, order) == HoldOf(holds, order)
  {
    assert SameRows(holds, holds + rows, order);
    SameRowsSameHold(holds, holds + rows, order);
  }

  function CountsFor(code: string): HoldRow -> int {
    (r: HoldRow) => if r.Code? && r.code == code && (r.state == Held || r.state == Committed) then 1 else 0
  }

  function RowsFor(code: string, order: string): HoldRow -> int {
    (r: HoldRow) => if r.Code? && r.code == code && r.order == order then 1 else 0
  }

  /** Coupon usage is what it was at first plus one per row still held or committed. */
  ghost predicate UsageMatches(s: Shop, first: map<string, nat>) {
    && s.coupons.Keys == first.Keys
    && forall c :: c in first ==> s.coupons[c].used == first[c] + SumBy(s.holds, CountsFor(c))
  }

  lemma {:induction false} CodesAreReturned(coupons: map<string, Coupon>, holds: seq<HoldRow>, order: string, code: string)
    requires code in coupons && coupons[code].used >= SumBy(holds, RowsFor(code, order))
    ensures ReturnCodes(coupons, holds, order).Keys == coupons.Keys
    ensures ReturnCodes(coupons, holds, order)[code].used == coupons[code].used - SumBy(holds, RowsFor(code, order))
  {
    if holds != [] {
      var n := |holds| - 1;
      assert holds == holds[..n] + [holds[n]];
      SumSnoc(holds[..n], holds[n], RowsFor(code, order));
      CodesAreReturned(coupons, holds[..n], order, code);
    }
  }

  lemma {:induction false} HeldCodesFreed(holds: seq<HoldRow>, order: string, code: string)
    requires Uniform(holds, order, Held)
    requires forall r :: r in holds && r.Code? ==> r.state != Restocked
    ensures SumBy(SetState(holds, order, Released), CountsFor(code))
         == SumBy(holds, CountsFor(code)) - SumBy(holds, RowsFor(code, order))
    ensures SumBy(holds, CountsFor(code)) >= SumBy(holds, RowsFor(code, order))
  {
    if holds != [] {
      HeldCodesFreed(holds[1..], order, code);
      assert holds[0] in holds;
      assert SetState(holds, order, Released)[1..] == SetState(holds[1..], order, Released);
    }
  }

  lemma {:induction false} CommittedCodesCount(holds: seq<HoldRow>, order: string, code: string)
    ensures SumBy(SetState(holds, order, Committed), CountsFor(code)) == SumBy(holds, CountsFor(code))
  {
    if holds != [] {
      CommittedCodesCount(holds[1..], order, code);
      assert SetState(holds, order, Committed)[1..] == SetState(holds[1..], order, Committed);
    }
  }

  lemma {:induction false} SetStateMembers(holds: seq<HoldRow>, order: string, to: State)
    ensures forall r :: r in SetState(holds, order, to) ==> exists q :: q in holds && r == Moved(q, order, to)
    ensures forall q :: q in holds ==> Moved(q, order, to) in SetState(holds, order, to)
  {
    var rs := SetState(holds, order, to);
    forall r | r in rs ensures exists q :: q in holds && r == Moved(q, order, to) {
      var i :| 0 <= i < |rs| && rs[i] == r;
      assert holds[i] in holds;
    }
    forall q | q in holds ensures Moved(q, order, to) in rs {
      var i :| 0 <= i < |holds| && holds[i] == q;
      assert rs[i] in rs;
    }
  }

  /** Closing one order's rows: its own move together, nobody else's move. */
  lemma {:induction false} SetStateCloses(holds: seq<HoldRow>, order: string, to: State)
    requires OneState(holds, order) && HasRow(holds, order, Held) && to in {Committed, Released}
    ensures Uniform(holds, order, Held)
    ensures Uniform(SetState(holds, order, to), order, to)
    ensures HoldOf(SetState(holds, order, to), order) == if to == Committed then M.Committed else M.Released
  {
    var h :| h in holds && h.order == order && h.state == Held;
    assert Mine(h, order);
    SetStateMembers(holds, order, to);
    var rs := SetState(holds, order, to);
    forall r | r in rs && Mine(r, order) ensures r.state == to {
      var q :| q in holds && r == Moved(q, order, to);
      assert Mine(q, order);
    }
    var closed := Moved(h, order, to);
    assert closed in rs && Mine(closed, order);
    UniformShows(rs, order, to, closed);
  }

  lemma {:induction false} UniformShows(holds: seq<HoldRow>, order: string, state: State, r: HoldRow)
    requires Uniform(holds, order, state) && r in holds && Mine(r, order) && state in {Held, Committed, Released}
    ensures HoldOf(holds, order) == match state case Held => M.Held case Committed => M.Committed case _ => M.Released
  {
    assert r.state == state;
    forall st | st in {Held, Committed, Released} && HasRow(holds, order, st) ensures st == state {
      var q :| q in holds && q.order == order && q.state == st;
      assert Mine(q, order);
    }
    assert HasRow(holds, order, state);
  }

  lemma {:induction false} SetStateSpares(holds: seq<HoldRow>, order: string, to: State, other: string)
    requires other != order
    ensures HoldOf(SetState(holds, order, to), other) == HoldOf(holds, other)
    ensures OneState(holds, other) ==> OneState(SetState(holds, order, to), other)
  {
    SetStateMembers(holds, order, to);
    var rs := SetState(holds, order, to);
    forall r | Mine(r, other) ensures r in holds <==> r in rs {
      assert Moved(r, order, to) == r;
    }
    SameRowsSameHold(holds, rs, other);
  }

  /** Every order keeps its rows in one state when one order's held rows are closed. */
  lemma {:induction false} ClosingKeepsStates(holds: seq<HoldRow>, order: string, to: State)
    requires forall o :: OneState(holds, o)
    requires HasRow(holds, order, Held) && to in {Committed, Released}
    ensures forall o :: OneState(SetState(holds, order, to), o)
  {
    SetStateCloses(holds, order, to);
    forall o ensures OneState(SetState(holds, order, to), o) {
      if o != order { SetStateSpares(holds, order, to, o); }
    }
  }

  /** What a shop with every order reserved at most once looks like. */
  ghost predicate Tidy(s: Shop, first: map<string, nat>) {
    && (forall order :: OneState(s.holds, order))
    && (forall r :: r in s.holds && r.Code? ==> r.state != Restocked)
    && UsageMatches(s, first)
  }

  /** The rows one reservation inserts. */
  function NewRows(order: string, lines: seq<Line>, code: Option<string>): (rows: seq<HoldRow>)
    ensures forall r :: r in rows ==> Mine(r, order) && r.state == Held
  {
    Map(Wanted(lines), UnitsOf(order)) + if code.Some? then [Code(order, code.value, Held)] else []
  }

  lemma {:induction false} ReserveInserts(s: Shop, known: set<nat>, order: string, lines: seq<Line>, code: Option<string>)
    ensures var (t, a) := Reserve(s, known, order, lines, code);
      && (a.Some? ==> t == s)
      && (a == None ==> t.holds == s.holds + NewRows(order, lines, code))
      && (a == None && code == None ==> t.coupons == s.coupons)
      && (a == None && code.Some? ==> code.value in s.coupons)
      && (a == None && code.Some? ==>
            t.coupons == s.coupons[code.value := s.coupons[code.value].(used := s.coupons[code.value].used + 1)])
  {
    var (t, a) := Reserve(s, known, order, lines, code);
    if a == None {
      assert t.holds == s.holds + NewRows(order, lines, code);
    }
  }

  lemma {:induction false} NewRowsCount(holds: seq<HoldRow>, order: string, lines: seq<Line>, code: Option<string>, c: string)
    ensures SumBy(holds + NewRows(order, lines, code), CountsFor(c)) == SumBy(holds, CountsFor(c)) + if code == Some(c) then 1 else 0
  {
    var rows := Map(Wanted(lines), UnitsOf(order));
    SumConcat(holds, rows, CountsFor(c));
    NoCodesAmongUnits(rows, c);
    if code.Some? {
      SumSnoc(holds + rows, Code(order, code.value, Held), CountsFor(c));
      assert holds + NewRows(order, lines, code) == holds + rows + [Code(order, code.value, Held)];
    } else {
      assert NewRows(order, lines, code) == rows;
    }
  }

  lemma {:induction false} NewRowsKeepStates(holds: seq<HoldRow>, order: string, lines: seq<Line>, code: Option<string>)
    requires (forall o :: OneState(holds, o)) && NoRows(holds, order)
    ensures forall o :: OneState(holds + NewRows(order, lines, code), o)
    ensures lines != [] || code.Some? ==> HoldOf(holds + NewRows(order, lines, code), order) == M.Held
  {
    var all := NewRows(order, lines, code);
    UniformAppend(holds, all, order, Held);
    forall o ensures OneState(holds + all, o) {
      if o != order { OthersAppend(holds, all, o); }
    }
    if lines != [] || code.Some? {
      WantedIsNotEmpty(lines);
      assert all[0] in holds + all;
      UniformShows(holds + all, order, Held, all[0]);
    }
  }

  lemma {:induction false} ReserveIsTidy(s: Shop, known: set<nat>, order: string, lines: seq<Line>, code: Option<string>, first: map<string, nat>)
    requires Tidy(s, first) && NoRows(s.holds, order)
    ensures Tidy(Reserve(s, known, order, lines, code).0, first)
    ensures var (t, a) := Reserve(s, known, order, lines, code);
      (a == None && (lines != [] || code.Some?) ==> HoldOf(t.holds, order) == M.Held)
      && (a.Some? ==> t == s)
  {
    ReserveInserts(s, known, order, lines, code);
    NewRowsKeepStates(s.holds, order, lines, code);
    forall c | c in first {
      NewRowsCount(s.holds, order, lines, code, c);
    }
  }

  lemma {:induction false} NoCodesAmongUnits(rows: seq<HoldRow>, code: string)
    requires forall r :: r in rows ==> r.Units?
    ensures SumBy(rows, CountsFor(code)) == 0
  {
    if rows != [] {
      assert rows[0] in rows;
      NoCodesAmongUnits(rows[1..], code);
    }
  }

  lemma {:induction false} WantedIsNotEmpty(lines: seq<Line>)
    ensures lines != [] ==> Wanted(lines) != []
  {
  }

  lemma {:induction false} CommitIsTidy(s: Shop, order: string, first: map<string, nat>)
    requires Tidy(s, first)
    ensures Tidy(Commit(s, order).0, first)
  {
    if HasRow(s.holds, order, Held) {
      var t := Commit(s, order).0;
      ClosingKeepsStates(s.holds, order, Committed);
      forall c | c in first ensures SumBy(t.holds, CountsFor(c)) == SumBy(s.holds, CountsFor(c)) {
        CommittedCodesCount(s.holds, order, c);
      }
      SetStateMembers(s.holds, order, Committed);
    }
  }

  lemma {:induction false} ReleaseIsTidy(s: Shop, order: string, first: map<string, nat>)
    requires Tidy(s, first)
    ensures Tidy(Release(s, order).0, first)
  {
    if HasRow(s.holds, order, Held) {
      assert OneState(s.holds, order);
      ClosingKeepsStates(s.holds, order, Released);
      ReleaseMatchesUsage(s, order, first);
      SetStateMembers(s.holds, order, Released);
    }
  }

  lemma {:induction false} ReleaseMatchesUsage(s: Shop, order: string, first: map<string, nat>)
    requires Tidy(s, first) && HasRow(s.holds, order, Held)
    ensures UsageMatches(Release(s, order).0, first)
  {
    var t := Release(s, order).0;
    assert OneState(s.holds, order);
    SetStateCloses(s.holds, order, Released);
    forall c | c in first
      ensures c in t.coupons && t.coupons[c].used == first[c] + SumBy(t.holds, CountsFor(c))
      ensures t.coupons.Keys == s.coupons.Keys
    {
      HeldCodesFreed(s.holds, order, c);
      CodesAreReturned(s.coupons, s.holds, order, c);
    }
    if first.Keys == {} { ReturnNothing(s.coupons, s.holds, order); }
  }

  lemma {:induction false} ReturnNothing(coupons: map<string, Coupon>, holds: seq<HoldRow>, order: string)
    requires coupons.Keys == {}
    ensures ReturnCodes(coupons, holds, order) == coupons
  {
    if holds != [] { ReturnNothing(coupons, holds[..|holds| - 1], order); }
  }

  lemma {:induction false} RestockIsTidy(s: Shop, order: string, lines: seq<Line>, first: map<string, nat>)
    requires Tidy(s, first)
    ensures Tidy(RestockLines(s, order, lines), first)
    ensures forall o :: HoldOf(RestockLines(s, order, lines).holds, o) == HoldOf(s.holds, o)
  {
    if lines != [] {
      var n := |lines| - 1;
      RestockIsTidy(s, order, lines[..n], first);
      var before := RestockLines(s, order, lines[..n]);
      var row := HoldRow.Units(order, lines[n].product, lines[n].qty, Restocked);
      assert forall r :: r in before.holds + [row] <==> r in before.holds || r == row;
      forall c | c in first ensures SumBy(before.holds + [row], CountsFor(c)) == SumBy(before.holds, CountsFor(c)) {
        SumSnoc(before.holds, row, CountsFor(c));
      }
      forall o ensures HoldOf(before.holds + [row], o) == HoldOf(before.holds, o) && OneState(before.holds + [row], o) {
        OthersAppend(before.holds, [row], o);
      }
    }
  }

  // ----- runs in which every order is reserved at most once -----

  predicate ReservedOnce(rs: seq<Request>) {
    forall i, j :: 0 <= i < j < |rs| && rs[i].ReserveR? && rs[j].ReserveR? ==> rs[i].order != rs[j].order
  }

  predicate ReservesFor(rs: seq<Request>, order: string) {
    exists r :: r in rs && r.ReserveR? && r.order == order
  }

  /** One request on a tidy shop, seen from one order: what the door answers and where the
      order's hold goes. */
  lemma {:induction false} HoldMoves(s: Shop, known: set<nat>, r: Request, first: map<string, nat>, order: string)
    requires Tidy(s, first)
    requires r.ReserveR? ==> NoRows(s.holds, r.order)
    ensures Tidy(Serve(s, known, r).0, first)
    ensures var (t, a) := Serve(s, known, r);
      var before, after := HoldOf(s.holds, order), HoldOf(t.holds, order);
      && (r.order != order || r.RestockR? ==> after == before)
      && (r == CommitR(order) ==>
            && (a == None <==> before in {M.Held, M.Committed})
            && after == if before == M.Held then M.Committed else before)
      && (r == ReleaseR(order) ==>
            && (a == None <==> before in {M.Held, M.Released})
            && after == if before == M.Held then M.Released else before)
  {
    match r
    case ReserveR(o, lines, code) =>
      ReserveIsTidy(s, known, o, lines, code, first);
      if o != order { ReserveSpares(s, known, o, lines, code, order); }
    case CommitR(o) =>
      CommitIsTidy(s, o, first);
      HoldSeen(s.holds, order);
      CloseMoves(s.holds, o, Committed, order);
    case ReleaseR(o) =>
      ReleaseIsTidy(s, o, first);
      HoldSeen(s.holds, order);
      CloseMoves(s.holds, o, Released, order);
    case RestockR(o, lines) => RestockIsTidy(s, o, lines, first);
  }

  lemma {:induction false} ReserveSpares(s: Shop, known: set<nat>, order: string, lines: seq<Line>, code: Option<string>, other: string)
    requires other != order
    ensures HoldOf(Reserve(s, known, order, lines, code).0.holds, other) == HoldOf(s.holds, other)
  {
    var (t, a) := Reserve(s, known, order, lines, code);
    ReserveInserts(s, known, order, lines, code);
    if a == None { OthersAppend(s.holds, NewRows(order, lines, code), other); }
  }

  lemma {:induction false} CloseMoves(holds: seq<HoldRow>, o: string, to: State, order: string)
    requires (forall x :: OneState(holds, x)) && to in {Committed, Released}
    ensures HasRow(holds, o, Held) ==>
      HoldOf(SetState(holds, o, to), order) == if o != order then HoldOf(holds, order) else if to == Committed then M.Committed else M.Released
  {
    if HasRow(holds, o, Held) {
      if o == order { SetStateCloses(holds, o, to); } else { SetStateSpares(holds, o, to, order); }
    }
  }

  /** The table's two questions, answered by the one state an order is in. */
  lemma {:induction false} HoldSeen(holds: seq<HoldRow>, order: string)
    requires OneState(holds, order)
    ensures HasRow(holds, order, Held) <==> HoldOf(holds, order) == M.Held
    ensures HasRow(holds, order, Committed) <==> HoldOf(holds, order) == M.Committed
    ensures HasRow(holds, order, Released) <==> HoldOf(holds, order) == M.Released
  {
    var state :| state != Restocked && Uniform(holds, order, state);
    forall st | st != Restocked && HasRow(holds, order, st) ensures st == state {
      var r :| r in holds && r.order == order && r.state == st;
      assert Mine(r, order);
    }
    if !NoRows(holds, order) {
      var r :| r in holds && Mine(r, order);
      assert HasRow(holds, order, r.state);
    }
  }

  lemma {:induction false} NotReservedBefore(before: seq<Request>, r: Request)
    requires ReservedOnce(before + [r]) && r.ReserveR?
    ensures !ReservesFor(before, r.order)
  {
    forall q | q in before && q.ReserveR? ensures q.order != r.order {
      var i :| 0 <= i < |before| && before[i] == q;
      assert (before + [r])[i] == q && (before + [r])[|before|] == r;
    }
  }

  lemma {:induction false} RunIsTidy(s: Shop, known: set<nat>, rs: seq<Request>, first: map<string, nat>)
    requires Tidy(s, first) && forall order :: NoRows(s.holds, order)
    requires ReservedOnce(rs)
    ensures Tidy(Run(s, known, rs), first)
    ensures forall order :: !ReservesFor(rs, order) ==> HoldOf(Run(s, known, rs).holds, order) == M.NoHold
  {
    if rs != [] {
      var before, r := rs[..|rs| - 1], rs[|rs| - 1];
      assert rs == before + [r];
      RunIsTidy(s, known, before, first);
      var t := Run(s, known, before);
      if r.ReserveR? { NotReservedBefore(before, r); }
      HoldMoves(t, known, r, first, r.order);
      forall order
        ensures !ReservesFor(rs, order) ==> HoldOf(Serve(t, known, r).0.holds, order) == M.NoHold
      {
        HoldMoves(t, known, r, first, order);
        if !ReservesFor(rs, order) {
          assert !ReservesFor(before, order);
          assert r in rs;
        }
      }
    }
  }

  /** Coupon usage over every such run: the first count, plus one for each use still held or
      committed. */
  lemma {:induction false} CouponUsageOverEveryRun(s: Shop, known: set<nat>, rs: seq<Request>, first: map<string, nat>, code: string)
    requires Tidy(s, first) && (forall order :: NoRows(s.holds, order)) && code in first
    requires ReservedOnce(rs)
    ensures code in Run(s, known, rs).coupons
    ensures Run(s, known, rs).coupons[code].used == first[code] + SumBy(Run(s, known, rs).holds, CountsFor(code))
  {
    RunIsTidy(s, known, rs, first);
  }

  /** Whatever follows, a committed hold stays committed and a released one released. */
  lemma {:induction false} AHoldStaysEnded(s: Shop, known: set<nat>, before: seq<Request>, later: seq<Request>,
      first: map<string, nat>, order: string)
    requires Tidy(s, first) && forall o :: NoRows(s.holds, o)
    requires ReservedOnce(before + later)
    requires HoldOf(Run(s, known, before).holds, order) in {M.Committed, M.Released}
    ensures HoldOf(Run(s, known, before + later).holds, order) == HoldOf(Run(s, known, before).holds, order)
  {
    var all := before + later;
    if later == [] {
      assert all == before;
    } else {
      var front, r := later[..|later| - 1], later[|later| - 1];
      assert all[..|all| - 1] == before + front && all[|all| - 1] == r;
      assert (before + front) + [r] == all;
      AHoldStaysEnded(s, known, before, front, first, order);
      HoldMovesInRun(s, known, before + front, r, first, order);
    }
  }

  /** A further request of a run, seen from an order whose hold has ended. */
  lemma {:induction false} HoldMovesInRun(s: Shop, known: set<nat>, done: seq<Request>, r: Request, first: map<string, nat>, order: string)
    requires Tidy(s, first) && forall o :: NoRows(s.holds, o)
    requires ReservedOnce(done + [r])
    requires HoldOf(Run(s, known, done).holds, order) in {M.Committed, M.Released}
    ensures HoldOf(Serve(Run(s, known, done), known, r).0.holds, order) == HoldOf(Run(s, known, done).holds, order)
  {
    forall i, j | 0 <= i < j < |done| && done[i].ReserveR? && done[j].ReserveR? ensures done[i].order != done[j].order {
      assert (done + [r])[i] == done[i] && (done + [r])[j] == done[j];
    }
    RunIsTidy(s, known, done, first);
    if r.ReserveR? { NotReservedBefore(done, r); }
    HoldMoves(Run(s, known, done), known, r, first, order);
  }

  /** A hold ends once: whatever follows a committed hold, door 5 refuses it and changes
      nothing, and door 4 a released one. At most one of the two doors ever takes effect. */
  lemma {:induction false} AHoldEndsOnce(s: Shop, known: set<nat>, before: seq<Request>, later: seq<Request>, first: map<string, nat>, order: string)
    requires Tidy(s, first) && forall o :: NoRows(s.holds, o)
    requires ReservedOnce(before + later)
    ensures HoldOf(Run(s, known, before).holds, order) == M.Committed ==>
      Release(Run(s, known, before + later), order) == (Run(s, known, before + later), Some(NoHold))
    ensures HoldOf(Run(s, known, before).holds, order) == M.Released ==>
      Commit(Run(s, known, before + later), order) == (Run(s, known, before + later), Some(NoHold))
  {
    var t := Run(s, known, before + later);
    RunIsTidy(s, known, before + later, first);
    HoldSeen(t.holds, order);
    if HoldOf(Run(s, known, before).holds, order) in {M.Committed, M.Released} {
      AHoldStaysEnded(s, known, before, later, first, order);
    }
  }

  lemma {:induction false} MoneyCommitIsThis(s: Shop, known: set<nat>, first: map<string, nat>, order: string, m: M.Shop)
    requires Tidy(s, first) && m.hold == HoldOf(s.holds, order)
    ensures Commit(s, order).1 == None <==> M.RunDoor(m, M.CommitDoor).1 == M.Fine
    ensures HoldOf(Commit(s, order).0.holds, order) == M.RunDoor(m, M.CommitDoor).0.hold
  {
    HoldMoves(s, known, CommitR(order), first, order);
  }

  lemma {:induction false} MoneyReleaseIsThis(s: Shop, known: set<nat>, first: map<string, nat>, order: string, m: M.Shop)
    requires Tidy(s, first) && m.hold == HoldOf(s.holds, order)
    ensures Release(s, order).1 == None <==> M.RunDoor(m, M.ReleaseDoor).1 == M.Fine
    ensures HoldOf(Release(s, order).0.holds, order) == M.RunDoor(m, M.ReleaseDoor).0.hold
  {
    HoldMoves(s, known, ReleaseR(order), first, order);
  }

  /** The money path's doors 4 and 5 are these: same answer, same move of the hold. */
  lemma {:induction false} MoneyDoorsAreThese(s: Shop, known: set<nat>, first: map<string, nat>, order: string, m: M.Shop)
    requires Tidy(s, first) && m.hold == HoldOf(s.holds, order)
    ensures var (t, a) := Commit(s, order);
      && (a == None <==> M.RunDoor(m, M.CommitDoor).1 == M.Fine)
      && HoldOf(t.holds, order) == M.RunDoor(m, M.CommitDoor).0.hold
    ensures var (t, a) := Release(s, order);
      && (a == None <==> M.RunDoor(m, M.ReleaseDoor).1 == M.Fine)
      && HoldOf(t.holds, order) == M.RunDoor(m, M.ReleaseDoor).0.hold
  {
    MoneyCommitIsThis(s, known, first, order, m);
    MoneyReleaseIsThis(s, known, first, order, m);
  }

  // ----- exactly when a release keeps the count -----

  function HeldFor(code: string, order: string): HoldRow -> int {
    (r: HoldRow) => if r.Code? && r.code == code && r.order == order && r.state == Held then 1 else 0
  }

  /** Every coupon row the order ever had for this code is still held: what the loop of
      `release_code` does not look at. */
  ghost predicate AllStillHeld(holds: seq<HoldRow>, order: string, code: string) {
    forall r :: r in holds && r.Code? && r.code == code && r.order == order ==> r.state == Held
  }

  ghost predicate CountMatches(s: Shop, code: string, base: nat) {
    code in s.coupons && s.coupons[code].used == base + SumBy(s.holds, CountsFor(code))
  }

  lemma {:induction false} UsesReturned(coupons: map<string, Coupon>, holds: seq<HoldRow>, order: string, code: string)
    requires code in coupons
    ensures var n := SumBy(holds, RowsFor(code, order));
      && ReturnCodes(coupons, holds, order).Keys == coupons.Keys
      && ReturnCodes(coupons, holds, order)[code].used == if coupons[code].used >= n then coupons[code].used - n else 0
    ensures SumBy(holds, RowsFor(code, order)) >= 0
  {
    if holds != [] {
      var n := |holds| - 1;
      assert holds == holds[..n] + [holds[n]];
      SumSnoc(holds[..n], holds[n], RowsFor(code, order));
      UsesReturned(coupons, holds[..n], order, code);
    }
  }

  lemma {:induction false} HeldUsesFreed(holds: seq<HoldRow>, order: string, code: string)
    ensures SumBy(SetState(holds, order, Released), CountsFor(code)) == SumBy(holds, CountsFor(code)) - SumBy(holds, HeldFor(code, order))
    ensures 0 <= SumBy(holds, HeldFor(code, order)) <= SumBy(holds, CountsFor(code))
    ensures SumBy(holds, HeldFor(code, order)) <= SumBy(holds, RowsFor(code, order))
  {
    if holds != [] {
      HeldUsesFreed(holds[1..], order, code);
      assert SetState(holds, order, Released)[1..] == SetState(holds[1..], order, Released);
    }
  }

  lemma {:induction false} StillHeldCounted(holds: seq<HoldRow>, order: string, code: string)
    ensures SumBy(holds, HeldFor(code, order)) == SumBy(holds, RowsFor(code, order)) <==> AllStillHeld(holds, order, code)
  {
    if holds != [] {
      StillHeldCounted(holds[1..], order, code);
      HeldUsesFreed(holds[1..], order, code);
      assert holds == [holds[0]] + holds[1..];
    }
  }

  /** One call of door 5 that takes effect keeps a code's count if and only if every row the
      order has for it is still held, or its held rows are all the uses there are, where the
      clamp at zero hides what was returned too often. */
  lemma {:induction false} ReleaseKeepsCountExactly(s: Shop, order: string, code: string, base: nat)
    requires CountMatches(s, code, base) && HasRow(s.holds, order, Held)
    ensures CountMatches(Release(s, order).0, code, base) <==>
      AllStillHeld(s.holds, order, code) || s.coupons[code].used == SumBy(s.holds, HeldFor(code, order))
  {
    UsesReturned(s.coupons, s.holds, order, code);
    HeldUsesFreed(s.holds, order, code);
    StillHeldCounted(s.holds, order, code);
  }

  lemma {:induction false} RestockKeepsCount(s: Shop, order: string, lines: seq<Line>, code: string, base: nat)
    requires CountMatches(s, code, base)
    ensures CountMatches(RestockLines(s, order, lines), code, base)
  {
    if lines != [] {
      var n := |lines| - 1;
      RestockKeepsCount(s, order, lines[..n], code, base);
      SumSnoc(RestockLines(s, order, lines[..n]).holds, HoldRow.Units(order, lines[n].product, lines[n].qty, Restocked), CountsFor(code));
    }
  }

  /** The guard a caller of door 5 could look at first. */
  ghost predicate CleanRelease(s: Shop, r: Request, code: string) {
    r.ReleaseR? && HasRow(s.holds, r.order, Held) && code in s.coupons ==>
      AllStillHeld(s.holds, r.order, code) || s.coupons[code].used == SumBy(s.holds, HeldFor(code, r.order))
  }

  lemma {:induction false} ServeKeepsCountExactly(s: Shop, known: set<nat>, r: Request, code: string, base: nat)
    requires CountMatches(s, code, base)
    ensures CountMatches(Serve(s, known, r).0, code, base) <==> CleanRelease(s, r, code)
  {
    match r
    case ReserveR(order, lines, c) =>
      ReserveInserts(s, known, order, lines, c);
      NewRowsCount(s.holds, order, lines, c, code);
    case CommitR(order) => CommittedCodesCount(s.holds, order, code);
    case ReleaseR(order) => if HasRow(s.holds, order, Held) { ReleaseKeepsCountExactly(s, order, code, base); }
    case RestockR(order, lines) => RestockKeepsCount(s, order, lines, code, base);
  }

  ghost predicate MatchesThroughout(s: Shop, known: set<nat>, rs: seq<Request>, code: string, base: nat) {
    forall n :: 0 <= n <= |rs| ==> CountMatches(Run(s, known, rs[..n]), code, base)
  }

  ghost predicate CleanThroughout(s: Shop, known: set<nat>, rs: seq<Request>, code: string) {
    forall n :: 0 <= n < |rs| ==> CleanRelease(Run(s, known, rs[..n]), rs[n], code)
  }

  /** Over every run, orders reserved as often as they like: a code's count is right throughout
      if and only if every release was clean when it came. */
  lemma {:induction false} CountOverEveryRun(s: Shop, known: set<nat>, rs: seq<Request>, code: string, base: nat)
    requires CountMatches(s, code, base)
    ensures MatchesThroughout(s, known, rs, code, base) <==> CleanThroughout(s, known, rs, code)
  {
    if rs == [] {
      assert rs[..0] == [];
    } else {
      var front, last := rs[..|rs| - 1], rs[|rs| - 1];
      assert rs == front + [last];
      CountOverEveryRun(s, known, front, code, base);
      if CountMatches(Run(s, known, front), code, base) {
        ServeKeepsCountExactly(Run(s, known, front), known, last, code, base);
      }
      MatchesNext(s, known, front, last, code, base);
      CleanNext(s, known, front, last, code);
    }
  }

  lemma {:induction false} MatchesNext(s: Shop, known: set<nat>, front: seq<Request>, last: Request, code: string, base: nat)
    ensures MatchesThroughout(s, known, front + [last], code, base) <==>
      MatchesThroughout(s, known, front, code, base) && CountMatches(Run(s, known, front + [last]), code, base)
    ensures MatchesThroughout(s, known, front, code, base) ==> CountMatches(Run(s, known, front), code, base)
  {
    var rs := front + [last];
    assert rs[..|rs|] == rs && front[..|front|] == front;
    forall i | 0 <= i <= |front| ensures rs[..i] == front[..i] { }
  }

  lemma {:induction false} CleanNext(s: Shop, known: set<nat>, front: seq<Request>, last: Request, code: string)
    ensures CleanThroughout(s, known, front + [last], code) <==>
      CleanThroughout(s, known, front, code) && CleanRelease(Run(s, known, front), last, code)
  {
    var rs := front + [last];
    assert rs[..|front|] == front && rs[|front|] == last;
    forall i | 0 <= i < |front| ensures rs[..i] == front[..i] && rs[i] == front[i] { }
  }

  // ----- why at most once -----

  /** One product, five in stock, a code with so many uses on its count. */
  function Counter(stock: int, holds: seq<HoldRow>, used: nat): Shop {
    Shop(map[7 := stock], holds, map["SAVE" := Coupon(0, used)])
  }

  function Took(state: State): seq<HoldRow> {
    [HoldRow.Units("o", 7, 1, state), Code("o", "SAVE", state)]
  }

  const WithCode: Request := ReserveR("o", [Line(7, 1)], Some("SAVE"))

  lemma {:induction false} ReserveWithCode(holds: seq<HoldRow>, used: nat)
    ensures Serve(Counter(5, holds, used), {7}, WithCode).0 == Counter(4, holds + Took(Held), used + 1)
  {
    var lines := [Line(7, 1)];
    assert lines[..0] == [] && Wanted([]) == [];
    assert Wanted(lines) == lines;
    assert lines[1..] == [];
    assert Map(lines, UnitsOf("o")) == [HoldRow.Units("o", 7, 1, Held)];
    assert holds + [HoldRow.Units("o", 7, 1, Held)] + [Code("o", "SAVE", Held)] == holds + Took(Held);
    var five: map<nat, int> := map[7 := 5];
    assert five[7 := 4] == map[7 := 4];
    assert TakeAll(five, lines) == TakeAll(five[7 := 4], lines[1..]);
  }

  lemma {:induction false} ReleaseFirst()
    ensures Serve(Counter(4, Took(Held), 2), {7}, ReleaseR("o")).0 == Counter(5, Took(Released), 1)
  {
    var h := Took(Held);
    assert h[0] in h && h[..1] == [h[0]] && [h[0]][..0] == [];
    assert GiveBack(map[7 := 4], [h[0]], "o") == map[7 := 5];
    assert ReturnCodes(map["SAVE" := Coupon(0, 2)], [h[0]], "o") == map["SAVE" := Coupon(0, 2)];
    assert SetState(h, "o", Released) == Took(Released);
  }

  lemma {:induction false} ReleaseSecond()
    ensures Serve(Counter(4, Took(Released) + Took(Held), 2), {7}, ReleaseR("o")).0.coupons == map["SAVE" := Coupon(0, 0)]
  {
    var h := Took(Released) + Took(Held);
    assert h[2] in h;
    var two := map["SAVE" := Coupon(0, 2)];
    assert h[..3][..2] == h[..2] && h[..2][..1] == h[..1] && h[..1][..0] == [];
    assert ReturnCodes(two, h[..1], "o") == two;
    assert ReturnCodes(two, h[..2], "o") == map["SAVE" := Coupon(0, 1)];
    assert ReturnCodes(two, h[..3], "o") == map["SAVE" := Coupon(0, 1)];
  }

  /** `release_code` looks at every coupon row of the order, so a second reserve under a
      second key gives a use back that was never taken. One use by somebody else is on the
      count; after two rounds of reserve and release it is gone. */
  lemma {:induction false} SecondReserveReturnsTooMuch()
    ensures Run(Counter(5, [], 1), {7}, [WithCode, ReleaseR("o"), WithCode, ReleaseR("o")]).coupons
      == map["SAVE" := Coupon(0, 0)]
  {
    var r, back := WithCode, ReleaseR("o");
    var s0 := Counter(5, [], 1);
    assert [r, back, r, back] == [] + [r] + [back] + [r] + [back];
    RunSnoc(s0, {7}, [], r);
    ReserveWithCode([], 1);
    assert [] + Took(Held) == Took(Held);
    RunSnoc(s0, {7}, [] + [r], back);
    ReleaseFirst();
    RunSnoc(s0, {7}, [] + [r] + [back], r);
    ReserveWithCode(Took(Released), 1);
    RunSnoc(s0, {7}, [] + [r] + [back] + [r], back);
    ReleaseSecond();
  }

  lemma {:induction false} RunSnoc(s: Shop, known: set<nat>, rs: seq<Request>, r: Request)
    ensures Run(s, known, rs + [r]) == Serve(Run(s, known, rs), known, r).0
  {
    assert (rs + [r])[..|rs|] == rs;
  }
}
