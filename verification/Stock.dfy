/** Doors 3 to 6 of the WooCommerce adapter: stock taken by compare-and-set, a table of hold
    rows, and the ways a hold ends. Products are numbered in the order `ksort` puts their
    SKUs. */
module Stock {
  import opened Wrappers
  import opened Sums
  import M = Money

  type Qty = q: nat | q >= 1 witness 1

  datatype Line = Line(product: nat, qty: Qty)

  datatype State = Held | Committed | Released | Restocked

  datatype HoldRow =
    | Units(order: string, product: nat, qty: Qty, state: State)
    | Code(order: string, code: string, state: State)

  /** A usage limit of zero is no limit. */
  datatype Coupon = Coupon(limit: nat, used: nat)

  datatype Shop = Shop(stock: map<nat, int>, holds: seq<HoldRow>, coupons: map<string, Coupon>)

  datatype Refusal = UnknownSku(product: nat) | SoldOut(product: nat, requested: nat, available: nat) | CodeInvalid | NoHold

  type Answer = Option<Refusal>

  // ----- door 3 -----

  /** Add a line to the wanted list, kept in key order with one entry a product. */
  function AddWant(wanted: seq<Line>, line: Line): seq<Line> {
    if wanted == [] || line.product < wanted[0].product then [line] + wanted
    else if line.product == wanted[0].product then [Line(line.product, wanted[0].qty + line.qty)] + wanted[1..]
    else [wanted[0]] + AddWant(wanted[1..], line)
  }

  function Wanted(lines: seq<Line>): seq<Line> {
    if lines == [] then [] else AddWant(Wanted(lines[..|lines| - 1]), lines[|lines| - 1])
  }

  predicate Increasing(wanted: seq<Line>) {
    forall i, j :: 0 <= i < j < |wanted| ==> wanted[i].product < wanted[j].product
  }

  function QtyOf(product: nat): Line -> int { (l: Line) => if l.product == product then l.qty else 0 }

  lemma {:induction false} AddWantSums(wanted: seq<Line>, line: Line, product: nat)
    ensures SumBy(AddWant(wanted, line), QtyOf(product)) == SumBy(wanted, QtyOf(product)) + QtyOf(product)(line)
  {
    if wanted == [] || line.product < wanted[0].product {
      assert ([line] + wanted)[1..] == wanted;
    } else if line.product == wanted[0].product {
      assert AddWant(wanted, line)[1..] == wanted[1..];
    } else {
      AddWantSums(wanted[1..], line, product);
      assert AddWant(wanted, line)[1..] == AddWant(wanted[1..], line);
    }
  }

  /** Key order is kept, and nothing slips below a bound that held. */
  lemma {:induction false} AddWantKeepsOrder(wanted: seq<Line>, line: Line, bound: int)
    requires Increasing(wanted)
    requires line.product > bound && forall w :: w in wanted ==> w.product > bound
    ensures Increasing(AddWant(wanted, line))
    ensures forall w :: w in AddWant(wanted, line) ==> w.product > bound
  {
    if wanted != [] && line.product > wanted[0].product {
      AddWantKeepsOrder(wanted[1..], line, wanted[0].product);
      assert AddWant(wanted, line) == [wanted[0]] + AddWant(wanted[1..], line);
    }
  }

  /** Two lines of one SKU are one want of the sum. */
  lemma {:induction false} WantedIsTheSum(lines: seq<Line>, product: nat)
    ensures Increasing(Wanted(lines))
    ensures SumBy(Wanted(lines), QtyOf(product)) == SumBy(lines, QtyOf(product))
  {
    if lines != [] {
      var front, last := lines[..|lines| - 1], lines[|lines| - 1];
      WantedIsTheSum(front, product);
      AddWantSums(Wanted(front), last, product);
      AddWantKeepsOrder(Wanted(front), last, -1);
      assert lines == front + [last];
      SumSnoc(front, last, QtyOf(product));
    }
  }

  predicate CanTake(stock: map<nat, int>, w: Line) { w.product in stock && stock[w.product] >= w.qty }

  /** `UPDATE ... WHERE stock >= qty`, one product after another; the first that cannot be
      taken refuses the whole list. */
  function TakeAll(stock: map<nat, int>, wanted: seq<Line>): Result<map<nat, int>, Refusal> {
    if wanted == [] then Ok(stock)
    else
      var w := wanted[0];
      if CanTake(stock, w) then TakeAll(stock[w.product := stock[w.product] - w.qty], wanted[1..])
      else Err(SoldOut(w.product, w.qty, if w.product in stock && stock[w.product] > 0 then stock[w.product] else 0))
  }

  /** The next product of a basket: taken and on to the rest, or what the basket is refused with. */
  lemma {:induction false} TakeAllNext(stock: map<nat, int>, wanted: seq<Line>, i: nat)
    requires i < |wanted|
    ensures var w := wanted[i];
      TakeAll(stock, wanted[i..]) ==
        if CanTake(stock, w) then TakeAll(stock[w.product := stock[w.product] - w.qty], wanted[i + 1..])
        else TakeAll(stock, [w])
  {
    assert wanted[i..][0] == wanted[i] && wanted[i..][1..] == wanted[i + 1..];
  }

  lemma {:induction false} UnitsNext(wanted: seq<Line>, order: string, i: nat)
    requires i < |wanted|
    ensures Map(wanted, UnitsOf(order))[..i + 1] == Map(wanted, UnitsOf(order))[..i] + [UnitsOf(order)(wanted[i])]
  {
  }

  /** Exactly which baskets are taken: every product has to cover its own line. */
  lemma {:induction false} TakeAllExactly(stock: map<nat, int>, wanted: seq<Line>)
    requires Increasing(wanted)
    ensures TakeAll(stock, wanted).Ok? <==> forall w :: w in wanted ==> CanTake(stock, w)
  {
    if wanted != [] && CanTake(stock, wanted[0]) {
      var w := wanted[0];
      assert wanted == [w] + wanted[1..];
      var less := stock[w.product := stock[w.product] - w.qty];
      TakeAllExactly(less, wanted[1..]);
      forall v | v in wanted[1..] ensures CanTake(less, v) <==> CanTake(stock, v) {
        var i :| 0 <= i < |wanted[1..]| && wanted[1..][i] == v;
        assert wanted[i + 1] == v;
      }
    }
  }

  /** A basket that is taken takes exactly its lines. */
  lemma {:induction false} TakeAllLeaves(stock: map<nat, int>, wanted: seq<Line>, product: nat)
    requires TakeAll(stock, wanted).Ok? && product in stock
    ensures TakeAll(stock, wanted).value.Keys == stock.Keys
    ensures TakeAll(stock, wanted).value[product] == stock[product] - SumBy(wanted, QtyOf(product))
  {
    if wanted != [] {
      TakeAllLeaves(stock[wanted[0].product := stock[wanted[0].product] - wanted[0].qty], wanted[1..], product);
    }
  }

  /** The first product that falls short is the one that is named, with the count there. */
  lemma {:induction false} TakeAllStopsAt(stock: map<nat, int>, wanted: seq<Line>, k: nat)
    requires Increasing(wanted) && k < |wanted|
    requires (forall j :: 0 <= j < k ==> CanTake(stock, wanted[j])) && !CanTake(stock, wanted[k])
    ensures TakeAll(stock, wanted) == TakeAll(stock, [wanted[k]])
  {
    if k > 0 {
      var w := wanted[0];
      var less := stock[w.product := stock[w.product] - w.qty];
      TakeAllStopsAt(less, wanted[1..], k - 1);
    }
  }

  function UnitsOf(order: string): Line -> HoldRow { (w: Line) => Units(order, w.product, w.qty, Held) }

  function HoldCode(s: Shop, order: string, code: string): Result<Shop, Refusal> {
    if code !in s.coupons then Err(CodeInvalid)
    else
      var c := s.coupons[code];
      if c.limit > 0 && c.used >= c.limit then Err(CodeInvalid)
      else Ok(s.(holds := s.holds + [Code(order, code, Held)], coupons := s.coupons[code := c.(used := c.used + 1)]))
  }

  function FirstUnknown(lines: seq<Line>, known: set<nat>): Option<nat> {
    if lines == [] then None
    else if lines[0].product !in known then Some(lines[0].product)
    else FirstUnknown(lines[1..], known)
  }

  function Reserve(s: Shop, known: set<nat>, order: string, lines: seq<Line>, code: Option<string>): (Shop, Answer) {
    match FirstUnknown(lines, known)
    case Some(p) => (s, Some(UnknownSku(p)))
    case None =>
      match TakeAll(s.stock, Wanted(lines))
      case Err(e) => (s, Some(e))
      case Ok(stock) =>
        var taken := s.(stock := stock, holds := s.holds + Map(Wanted(lines), UnitsOf(order)));
        match code
        case None => (taken, None)
        case Some(c) =>
          match HoldCode(taken, order, c)
          case Err(e) => (s, Some(e))
          case Ok(held) => (held, None)
  }

  // ----- doors 4 and 5 -----

  predicate HasRow(holds: seq<HoldRow>, order: string, state: State) {
    exists r :: r in holds && r.order == order && r.state == state
  }

  function Moved(r: HoldRow, order: string, to: State): HoldRow {
    if r.order == order && r.state == Held then r.(state := to) else r
  }

  /** `UPDATE ... SET state = to WHERE order_id = order AND state = 'held'`. */
  function SetState(holds: seq<HoldRow>, order: string, to: State): (r: seq<HoldRow>)
    ensures |r| == |holds|
    ensures forall i :: 0 <= i < |holds| ==> r[i] == Moved(holds[i], order, to)
  {
    if holds == [] then [] else [Moved(holds[0], order, to)] + SetState(holds[1..], order, to)
  }

  function Commit(s: Shop, order: string): (Shop, Answer) {
    if !HasRow(s.holds, order, Held) then
      (s, if HasRow(s.holds, order, Committed) then None else Some(NoHold))
    else (s.(holds := SetState(s.holds, order, Committed)), None)
  }

  /** What one row gives back: its units, if it is held by this order. */
  function Back(stock: map<nat, int>, r: HoldRow, order: string): map<nat, int> {
    if r.Units? && r.order == order && r.state == Held && r.product in stock
    then stock[r.product := stock[r.product] + r.qty] else stock
  }

  function GiveBack(stock: map<nat, int>, holds: seq<HoldRow>, order: string): map<nat, int> {
    if holds == [] then stock
    else Back(GiveBack(stock, holds[..|holds| - 1], order), holds[|holds| - 1], order)
  }

  /** `release_code` takes one use off for every coupon row of the order, whatever its state. */
  function Unuse(coupons: map<string, Coupon>, r: HoldRow, order: string): map<string, Coupon> {
    if r.Code? && r.order == order && r.code in coupons && coupons[r.code].used > 0
    then coupons[r.code := coupons[r.code].(used := coupons[r.code].used - 1)] else coupons
  }

  function ReturnCodes(coupons: map<string, Coupon>, holds: seq<HoldRow>, order: string): map<string, Coupon> {
    if holds == [] then coupons
    else Unuse(ReturnCodes(coupons, holds[..|holds| - 1], order), holds[|holds| - 1], order)
  }

  function Release(s: Shop, order: string): (Shop, Answer) {
    if !HasRow(s.holds, order, Held) then
      (s, if HasRow(s.holds, order, Released) then None else Some(NoHold))
    else
      (Shop(GiveBack(s.stock, s.holds, order), SetState(s.holds, order, Released),
            ReturnCodes(s.coupons, s.holds, order)), None)
  }

  // ----- door 6 -----

  function RestockLine(s: Shop, order: string, line: Line): Shop {
    s.(stock := if line.product in s.stock then s.stock[line.product := s.stock[line.product] + line.qty] else s.stock,
       holds := s.holds + [Units(order, line.product, line.qty, Restocked)])
  }

  function RestockLines(s: Shop, order: string, lines: seq<Line>): Shop {
    if lines == [] then s else RestockLine(RestockLines(s, order, lines[..|lines| - 1]), order, lines[|lines| - 1])
  }

  function Restock(s: Shop, known: set<nat>, order: string, lines: seq<Line>): (Shop, Answer) {
    match FirstUnknown(lines, known)
    case Some(p) => (s, Some(UnknownSku(p)))
    case None => (RestockLines(s, order, lines), None)
  }

  // ----- the doors as the plugin runs them -----

  class Adapter {
    const known: set<nat>
    var stock: map<nat, int>
    var holds: seq<HoldRow>
    var coupons: map<string, Coupon>

    function Value(): Shop
      reads this
    {
      Shop(stock, holds, coupons)
    }

    constructor (known: set<nat>, s: Shop)
      ensures Value() == s && this.known == known
    {
      this.known := known;
      stock, holds, coupons := s.stock, s.holds, s.coupons;
    }

    /** One conditional UPDATE and one row, or the count that is really there. */
    method Take(w: Line, order: string) returns (refusal: Answer)
      modifies this
      ensures coupons == old(coupons)
      ensures refusal == None <==> CanTake(old(stock), w)
      ensures refusal == None ==>
        stock == old(stock)[w.product := old(stock)[w.product] - w.qty] && holds == old(holds) + [UnitsOf(order)(w)]
      ensures refusal.Some? ==> stock == old(stock) && holds == old(holds) && TakeAll(old(stock), [w]) == Err(refusal.value)
    {
      if w.product in stock && stock[w.product] >= w.qty {
        stock := stock[w.product := stock[w.product] - w.qty];
        holds := holds + [Units(order, w.product, w.qty, Held)];
        return None;
      }
      var available := if w.product in stock && stock[w.product] > 0 then stock[w.product] else 0;
      return Some(SoldOut(w.product, w.qty, available));
    }

    /** Door 3, in one transaction. */
    method ReserveDoor(order: string, lines: seq<Line>, code: Option<string>) returns (answer: Answer)
      modifies this
      ensures (Value(), answer) == Reserve(old(Value()), known, order, lines, code)
    {
      var unknown := FirstUnknown(lines, known);
      if unknown.Some? { return Some(UnknownSku(unknown.value)); }
      var wanted: seq<Line> := [];
      for i := 0 to |lines|
        invariant wanted == Wanted(lines[..i])
        invariant Value() == old(Value())
      {
        assert lines[..i + 1][..i] == lines[..i];
        wanted := AddWant(wanted, lines[i]);
      }
      assert lines[..|lines|] == lines;
      // START TRANSACTION: what ROLLBACK restores.
      var savedStock, savedHolds := stock, holds;
      answer := TakeWanted(order, wanted);
      if answer.Some? {
        stock, holds := savedStock, savedHolds;
        return;
      }
      if code.Some? {
        var held := HoldCode(Value(), order, code.value);
        if held.Err? {
          stock, holds := savedStock, savedHolds;
          return Some(held.error);
        }
        holds, coupons := held.value.holds, held.value.coupons;
      }
      return None;
    }

    method TakeWanted(order: string, wanted: seq<Line>) returns (answer: Answer)
      modifies this
      ensures coupons == old(coupons)
      ensures answer.Some? <==> TakeAll(old(stock), wanted).Err?
      ensures answer.Some? ==> TakeAll(old(stock), wanted) == Err(answer.value)
      ensures answer == None ==>
        TakeAll(old(stock), wanted) == Ok(stock) && holds == old(holds) + Map(wanted, UnitsOf(order))
    {
      answer := None;
      for i := 0 to |wanted|
        invariant answer == None && coupons == old(coupons)
        invariant TakeAll(old(stock), wanted) == TakeAll(stock, wanted[i..])
        invariant holds == old(holds) + Map(wanted, UnitsOf(order))[..i]
      {
        TakeAllNext(stock, wanted, i);
        UnitsNext(wanted, order, i);
        answer := Take(wanted[i], order);
        if answer.Some? { return; }
      }
      assert wanted[|wanted|..] == [];
    }

    method CommitDoor(order: string) returns (answer: Answer)
      modifies this`holds
      ensures (Value(), answer) == Commit(old(Value()), order)
    {
      if !HasRow(holds, order, Held) {
        return if HasRow(holds, order, Committed) then None else Some(NoHold);
      }
      holds := SetState(holds, order, Committed);
      return None;
    }

    method ReleaseDoor(order: string) returns (answer: Answer)
      modifies this
      ensures (Value(), answer) == Release(old(Value()), order)
    {
      if !HasRow(holds, order, Held) {
        return if HasRow(holds, order, Released) then None else Some(NoHold);
      }
      var rows := holds;
      for i := 0 to |rows|
        invariant holds == rows == old(holds) && coupons == old(coupons)
        invariant stock == GiveBack(old(stock), rows[..i], order)
      {
        assert rows[..i + 1][..i] == rows[..i];
        stock := Back(stock, rows[i], order);
      }
      assert rows[..|rows|] == rows;
      holds := SetState(holds, order, Released);
      for i := 0 to |rows|
        invariant holds == SetState(rows, order, Released) && stock == GiveBack(old(stock), rows, order)
        invariant coupons == ReturnCodes(old(coupons), rows[..i], order)
      {
        assert rows[..i + 1][..i] == rows[..i];
        coupons := Unuse(coupons, rows[i], order);
      }
      assert rows[..|rows|] == rows;
      return None;
    }

    method RestockDoor(order: string, lines: seq<Line>) returns (answer: Answer)
      modifies this
      ensures (Value(), answer) == Restock(old(Value()), known, order, lines)
    {
      var savedStock, savedHolds := stock, holds;
      ghost var before := Value();
      for i := 0 to |lines|
        invariant FirstUnknown(lines[..i], known) == None
        invariant Value() == RestockLines(before, order, lines[..i])
      {
        var line := lines[i];
        assert lines[..i + 1][..i] == lines[..i];
        UnknownPrefix(lines, i, known);
        if line.product !in known {
          stock, holds := savedStock, savedHolds;
          RestockKeepsCoupons(before, order, lines[..i]);
          return Some(UnknownSku(line.product));
        }
        if line.product in stock {
          stock := stock[line.product := stock[line.product] + line.qty];
        }
        holds := holds + [Units(order, line.product, line.qty, Restocked)];
      }
      assert lines[..|lines|] == lines;
      return None;
    }
  }

  lemma {:induction false} UnknownPrefix(lines: seq<Line>, i: nat, known: set<nat>)
    requires i < |lines| && FirstUnknown(lines[..i], known) == None
    ensures lines[i].product in known ==> FirstUnknown(lines[..i + 1], known) == None
    ensures lines[i].product !in known ==> FirstUnknown(lines, known) == Some(lines[i].product)
  {
    if i > 0 {
      assert lines[..i][1..] == lines[1..][..i - 1] && lines[..i + 1][1..] == lines[1..][..i];
      UnknownPrefix(lines[1..], i - 1, known);
    } else {
      assert lines[..1][1..] == [];
    }
  }

  lemma {:induction false} RestockKeepsCoupons(s: Shop, order: string, lines: seq<Line>)
    ensures RestockLines(s, order, lines).coupons == s.coupons
  {
    if lines != [] { RestockKeepsCoupons(s, order, lines[..|lines| - 1]); }
  }
}
