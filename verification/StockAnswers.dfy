/** What doors 3 to 6 answer and leave, in the terms of the request and the shop's own counts,
    and the bound a coupon's limit puts on every run. */
module StockAnswers {
  import opened Wrappers
  import opened Sums
  import opened Stock
  import opened StockRuns

  // ----- door 3 -----

  /** Enough on the shelf for everything the basket wants of a product. */
  predicate Covers(stock: map<nat, int>, lines: seq<Line>, product: nat) {
    product in stock && stock[product] >= SumBy(lines, QtyOf(product))
  }

  predicate Wants(lines: seq<Line>, product: nat) { exists l :: l in lines && l.product == product }

  /** The coupon is there, and has no limit or a use left. */
  predicate Usable(coupons: map<string, Coupon>, code: string) {
    code in coupons && (coupons[code].limit == 0 || coupons[code].used < coupons[code].limit)
  }

  lemma {:induction false} NoneWanted(lines: seq<Line>, product: nat)
    ensures SumBy(lines, QtyOf(product)) >= 0
    ensures SumBy(lines, QtyOf(product)) > 0 <==> Wants(lines, product)
  {
    if lines != [] {
      NoneWanted(lines[1..], product);
      assert lines == [lines[0]] + lines[1..];
    }
  }

  lemma {:induction false} WantIsItsQty(wanted: seq<Line>, i: nat)
    requires Increasing(wanted) && i < |wanted|
    ensures SumBy(wanted, QtyOf(wanted[i].product)) == wanted[i].qty
  {
    var rest := wanted[1..];
    assert forall j :: 0 <= j < |rest| ==> rest[j] == wanted[j + 1];
    if i > 0 {
      WantIsItsQty(rest, i - 1);
    } else {
      NoneWanted(rest, wanted[0].product);
    }
  }

  /** Each wanted product once, with everything the lines want of it. */
  lemma {:induction false} WantOf(stock: map<nat, int>, lines: seq<Line>, i: nat)
    requires i < |Wanted(lines)|
    ensures var w := Wanted(lines)[i];
      && Wants(lines, w.product) && w.qty == SumBy(lines, QtyOf(w.product))
      && (CanTake(stock, w) <==> Covers(stock, lines, w.product))
  {
    var p := Wanted(lines)[i].product;
    WantedIsTheSum(lines, p);
    WantIsItsQty(Wanted(lines), i);
    NoneWanted(lines, p);
  }

  lemma {:induction false} WantedFor(lines: seq<Line>, product: nat) returns (i: nat)
    requires Wants(lines, product)
    ensures i < |Wanted(lines)| && Wanted(lines)[i].product == product
  {
    WantedIsTheSum(lines, product);
    NoneWanted(lines, product);
    NoneWanted(Wanted(lines), product);
    i :| 0 <= i < |Wanted(lines)| && Wanted(lines)[i].product == product;
  }

  /** The basket is taken if and only if every product covers what is wanted of it. */
  lemma {:induction false} TakenExactly(stock: map<nat, int>, lines: seq<Line>)
    ensures TakeAll(stock, Wanted(lines)).Ok? <==> forall p :: Wants(lines, p) ==> Covers(stock, lines, p)
  {
    var wanted := Wanted(lines);
    WantedIsTheSum(lines, 0);
    TakeAllExactly(stock, wanted);
    forall w | w in wanted ensures Wants(lines, w.product) && (CanTake(stock, w) <==> Covers(stock, lines, w.product)) {
      var i :| 0 <= i < |wanted| && wanted[i] == w;
      WantOf(stock, lines, i);
    }
    forall p | Wants(lines, p) ensures exists w :: w in wanted && w.product == p {
      var i := WantedFor(lines, p);
      assert wanted[i] in wanted;
    }
  }

  lemma {:induction false} WantedBelow(lines: seq<Line>, k: nat, p: nat) returns (i: nat)
    requires k < |Wanted(lines)| && Wants(lines, p) && p < Wanted(lines)[k].product
    ensures i < k && Wanted(lines)[i].product == p
  {
    i := WantedFor(lines, p);
    WantedIsTheSum(lines, p);
  }

  /** Otherwise the first product in key order that falls short is named, with what is wanted of
      it and what is there. */
  lemma {:induction false} ShortIsNamed(stock: map<nat, int>, lines: seq<Line>) returns (p: nat)
    requires TakeAll(stock, Wanted(lines)).Err?
    ensures Short(stock, lines, p) && TakeAll(stock, Wanted(lines)) == Err(ShortOf(stock, lines, p))
  {
    var wanted := Wanted(lines);
    WantedIsTheSum(lines, 0);
    TakeAllExactly(stock, wanted);
    var k := FirstShort(stock, wanted);
    p := wanted[k].product;
    WantOf(stock, lines, k);
    TakeAllStopsAt(stock, wanted, k);
    forall q: nat | q < p && Wants(lines, q) ensures Covers(stock, lines, q) {
      var i := WantedBelow(lines, k, q);
      WantOf(stock, lines, i);
    }
  }

  lemma {:induction false} FirstShort(stock: map<nat, int>, wanted: seq<Line>) returns (k: nat)
    requires exists i :: 0 <= i < |wanted| && !CanTake(stock, wanted[i])
    ensures k < |wanted| && !CanTake(stock, wanted[k]) && forall j :: 0 <= j < k ==> CanTake(stock, wanted[j])
  {
    if !CanTake(stock, wanted[0]) {
      k := 0;
    } else {
      assert forall j :: 0 <= j < |wanted[1..]| ==> wanted[1..][j] == wanted[j + 1];
      var i :| 0 <= i < |wanted| && !CanTake(stock, wanted[i]);
      assert !CanTake(stock, wanted[1..][i - 1]);
      var rest := FirstShort(stock, wanted[1..]);
      k := rest + 1;
      forall j | 0 <= j < k ensures CanTake(stock, wanted[j]) {
        if j > 0 { assert CanTake(stock, wanted[1..][j - 1]); }
      }
    }
  }

  /** The first product in key order that falls short. */
  ghost predicate Short(stock: map<nat, int>, lines: seq<Line>, product: nat) {
    && Wants(lines, product) && !Covers(stock, lines, product)
    && forall p: nat :: p < product && Wants(lines, p) ==> Covers(stock, lines, p)
  }

  function ShortOf(stock: map<nat, int>, lines: seq<Line>, product: nat): Refusal {
    var wanted := SumBy(lines, QtyOf(product));
    SoldOut(product, if wanted >= 0 then wanted else 0, if product in stock && stock[product] > 0 then stock[product] else 0)
  }

  lemma {:induction false} UnknownExactly(lines: seq<Line>, known: set<nat>)
    ensures FirstUnknown(lines, known) == None <==> forall l :: l in lines ==> l.product in known
    ensures FirstUnknown(lines, known).Some? ==>
      exists i :: 0 <= i < |lines| && FirstUnknownAt(lines, known, i) && FirstUnknown(lines, known) == Some(lines[i].product)
  {
    if lines != [] {
      UnknownExactly(lines[1..], known);
      assert lines == [lines[0]] + lines[1..];
      if lines[0].product !in known {
        assert FirstUnknownAt(lines, known, 0);
      } else if FirstUnknown(lines, known).Some? {
        var i :| 0 <= i < |lines[1..]| && FirstUnknownAt(lines[1..], known, i) && FirstUnknown(lines[1..], known) == Some(lines[1..][i].product);
        forall j | 0 <= j < i + 1 ensures lines[j].product in known {
          if j > 0 { assert lines[1..][j - 1].product in known; }
        }
        assert FirstUnknownAt(lines, known, i + 1);
      }
    }
  }

  ghost predicate FirstUnknownAt(lines: seq<Line>, known: set<nat>, i: nat) {
    i < |lines| && lines[i].product !in known && forall j :: 0 <= j < i ==> lines[j].product in known
  }

  /** What a refusal of door 3 says, tried in this order. */
  ghost predicate ReserveRefusal(s: Shop, known: set<nat>, lines: seq<Line>, code: Option<string>, why: Refusal) {
    if exists l :: l in lines && l.product !in known then
      exists i :: 0 <= i < |lines| && FirstUnknownAt(lines, known, i) && why == UnknownSku(lines[i].product)
    else if exists p :: Wants(lines, p) && !Covers(s.stock, lines, p) then
      exists p :: Short(s.stock, lines, p) && why == ShortOf(s.stock, lines, p)
    else why == CodeInvalid
  }

  predicate Reservable(s: Shop, known: set<nat>, lines: seq<Line>, code: Option<string>) {
    && (forall l :: l in lines ==> l.product in known && Covers(s.stock, lines, l.product))
    && (code.Some? ==> Usable(s.coupons, code.value))
  }

  /** Door 3 accepts if and only if every SKU is known, every product covers all that is wanted of
      it, and the code, if any, has a use left. So a basket that can be taken is refused for its
      code exactly when the code is unknown or used up. A refusal leaves the shop as it was. */
  lemma {:induction false} ReserveAnswersExactly(s: Shop, known: set<nat>, order: string, lines: seq<Line>, code: Option<string>)
    ensures var (t, a) := Serve(s, known, ReserveR(order, lines, code));
      && (a == None <==> Reservable(s, known, lines, code))
      && (a.Some? ==> t == s && ReserveRefusal(s, known, lines, code, a.value))
      && ((forall l :: l in lines ==> l.product in known && Covers(s.stock, lines, l.product)) && code.Some? ==>
            (a == Some(CodeInvalid) <==>
              code.value !in s.coupons || (s.coupons[code.value].limit > 0 && s.coupons[code.value].used >= s.coupons[code.value].limit)))
  {
    UnknownExactly(lines, known);
    TakenExactly(s.stock, lines);
    if TakeAll(s.stock, Wanted(lines)).Err? { var p := ShortIsNamed(s.stock, lines); }
    forall p | Wants(lines, p) ensures exists l :: l in lines && l.product == p { }
    forall l | l in lines ensures Wants(lines, l.product) { }
    CodeExactly(s, known, order, lines, code);
  }

  lemma {:induction false} CodeExactly(s: Shop, known: set<nat>, order: string, lines: seq<Line>, code: Option<string>)
    ensures var (t, a) := Reserve(s, known, order, lines, code);
      && (FirstUnknown(lines, known).Some? ==> a == Some(UnknownSku(FirstUnknown(lines, known).value)))
      && (FirstUnknown(lines, known) == None && TakeAll(s.stock, Wanted(lines)).Err? ==> a == Some(TakeAll(s.stock, Wanted(lines)).error))
      && (FirstUnknown(lines, known) == None && TakeAll(s.stock, Wanted(lines)).Ok? ==>
            a == if code.Some? && !Usable(s.coupons, code.value) then Some(CodeInvalid) else None)
      && (a.Some? ==> t == s)
  {
  }

  /** What an accepted reservation leaves: each product less what was wanted of it, one more use
      of its code and of no other, and rows of this order alone, all held. */
  lemma {:induction false} ReserveLeaves(s: Shop, known: set<nat>, order: string, lines: seq<Line>, code: Option<string>, product: nat)
    requires Serve(s, known, ReserveR(order, lines, code)).1 == None && product in s.stock
    ensures var t := Serve(s, known, ReserveR(order, lines, code)).0;
      && t.stock.Keys == s.stock.Keys && t.stock[product] == s.stock[product] - SumBy(lines, QtyOf(product))
      && t.coupons == (if code == None then s.coupons
           else s.coupons[code.value := Coupon(s.coupons[code.value].limit, s.coupons[code.value].used + 1)])
      && s.holds <= t.holds
      && (forall i :: |s.holds| <= i < |t.holds| ==> t.holds[i].order == order && t.holds[i].state == Held)
  {
    ReserveInserts(s, known, order, lines, code);
    WantedIsTheSum(lines, product);
    TakeAllLeaves(s.stock, Wanted(lines), product);
    var rows := NewRows(order, lines, code);
    forall i | |s.holds| <= i < |s.holds + rows| ensures (s.holds + rows)[i] in rows { }
  }

  // ----- doors 4, 5 and 6 -----

  /** Doors 4 and 5 accept an order if and only if it has rows to close or rows closed the same way
      before; the first time they close this order's held rows and change no other row. */
  lemma {:induction false} ClosingAnswersExactly(s: Shop, known: set<nat>, order: string, r: Request)
    requires r == CommitR(order) || r == ReleaseR(order)
    ensures var (t, a) := Serve(s, known, r);
      var to := if r.CommitR? then Committed else Released;
      var open := exists h :: h in s.holds && h.order == order && h.state == Held;
      && (a == None <==> open || exists h :: h in s.holds && h.order == order && h.state == to)
      && (a.Some? ==> a == Some(NoHold))
      && (!open ==> t == s)
      && (open ==> |t.holds| == |s.holds| && forall i :: 0 <= i < |s.holds| ==>
            t.holds[i] == if s.holds[i].order == order && s.holds[i].state == Held then s.holds[i].(state := to) else s.holds[i])
      && (r.CommitR? ==> t.stock == s.stock && t.coupons == s.coupons)
  {
  }

  lemma {:induction false} RestockAdds(s: Shop, order: string, lines: seq<Line>, product: nat)
    requires product in s.stock
    ensures var t := RestockLines(s, order, lines);
      t.stock.Keys == s.stock.Keys && t.stock[product] == s.stock[product] + SumBy(lines, QtyOf(product)) && t.coupons == s.coupons
  {
    if lines != [] {
      var n := |lines| - 1;
      RestockAdds(s, order, lines[..n], product);
      assert lines == lines[..n] + [lines[n]];
      SumSnoc(lines[..n], lines[n], QtyOf(product));
    }
  }

  /** Door 6 brings every line back, or nothing when a SKU is unknown. */
  lemma {:induction false} RestockAnswersExactly(s: Shop, known: set<nat>, order: string, lines: seq<Line>, product: nat)
    requires product in s.stock
    ensures var (t, a) := Serve(s, known, RestockR(order, lines));
      && (a == None <==> forall l :: l in lines ==> l.product in known)
      && (a.Some? ==> t == s && exists i :: 0 <= i < |lines| && FirstUnknownAt(lines, known, i) && a == Some(UnknownSku(lines[i].product)))
      && (a == None ==>
            t.stock.Keys == s.stock.Keys && t.coupons == s.coupons
            && t.stock[product] == s.stock[product] + SumBy(lines, QtyOf(product)))
  {
    UnknownExactly(lines, known);
    RestockAdds(s, order, lines, product);
  }

  // ----- a coupon's limit -----

  lemma {:induction false} UsesOnlyReturn(coupons: map<string, Coupon>, holds: seq<HoldRow>, order: string, code: string)
    requires code in coupons
    ensures var after := ReturnCodes(coupons, holds, order);
      code in after && after[code].limit == coupons[code].limit && after[code].used <= coupons[code].used
  {
    if holds != [] { UsesOnlyReturn(coupons, holds[..|holds| - 1], order, code); }
  }

  lemma {:induction false} ServeKeepsLimit(s: Shop, known: set<nat>, r: Request, code: string)
    requires code in s.coupons
    ensures var t := Serve(s, known, r).0;
      && code in t.coupons && t.coupons[code].limit == s.coupons[code].limit
      && (t.coupons[code].used <= s.coupons[code].used
          || (t.coupons[code].used == s.coupons[code].used + 1 && (s.coupons[code].limit == 0 || s.coupons[code].used < s.coupons[code].limit)))
  {
    match r
    case ReserveR(order, lines, c) =>
      ReserveAnswersExactly(s, known, order, lines, c);
      ReserveInserts(s, known, order, lines, c);
    case CommitR(_) =>
    case ReleaseR(order) => UsesOnlyReturn(s.coupons, s.holds, order, code);
    case RestockR(order, lines) => RestockKeepsCoupons(s, order, lines);
  }

  /** Over every run, from any state: a coupon with a limit is never used beyond it, unless it
      already was, and then no further. */
  lemma {:induction false} LimitHoldsOverEveryRun(s: Shop, known: set<nat>, rs: seq<Request>, code: string)
    requires code in s.coupons && s.coupons[code].limit > 0
    ensures var c := s.coupons[code];
      && code in Run(s, known, rs).coupons && Run(s, known, rs).coupons[code].limit == c.limit
      && Run(s, known, rs).coupons[code].used <= if c.used > c.limit then c.used else c.limit
  {
    if rs != [] {
      LimitHoldsOverEveryRun(s, known, rs[..|rs| - 1], code);
      ServeKeepsLimit(Run(s, known, rs[..|rs| - 1]), known, rs[|rs| - 1], code);
    }
  }
}
