/** What a built Quote says of its cart, in the terms of the cart and the catalogue alone:
    which line is quoted for a SKU, what it carries, what everything adds up to, and which
    line a refused cart is refused for. */
module Basket {
  import opened Wrappers
  import opened Ordering
  import opened Sums
  import opened Tax
  import opened Pricing
  import opened QuoteCheck
  import A = Apportion
  import C = Canonical
  import T = Text

  // ----- the cart read directly -----

  predicate Tagged(items: map<string, Item>, l: Line, tag: string) {
    l.sku in items && tag in items[l.sku].tags
  }

  /** Price times quantity. */
  function Amount(items: map<string, Item>): Line -> int {
    (l: Line) => if l.sku in items then items[l.sku].priceMinor * l.qty else 0
  }

  /** The last cart line of a SKU that is not an add-on. */
  function LastOf(lines: seq<Line>, items: map<string, Item>, sku: string): Option<Line> {
    if lines == [] then None
    else
      var last := lines[|lines| - 1];
      if last.sku == sku && sku in items && !Tagged(items, last, "addon") then Some(last)
      else LastOf(lines[..|lines| - 1], items, sku)
  }

  function AddonsOf(items: map<string, Item>, parent: string): Line -> bool {
    (l: Line) => Tagged(items, l, "addon") && l.parent == parent
  }

  function AsAddon(items: map<string, Item>): Line -> Addon { (l: Line) => Addon(l.sku, Amount(items)(l)) }

  /** The lines that are charged: every add-on, and of every other SKU the last line. */
  function Charged(lines: seq<Line>, items: map<string, Item>): seq<Line> {
    if lines == [] then []
    else if Tagged(items, lines[0], "addon") || forall l :: l in lines[1..] ==> l.sku != lines[0].sku
      then [lines[0]] + Charged(lines[1..], items)
    else Charged(lines[1..], items)
  }

  lemma {:induction false} LastOfCons(h: Line, rest: seq<Line>, items: map<string, Item>, sku: string)
    ensures LastOf([h] + rest, items, sku) ==
      if LastOf(rest, items, sku).Some? then LastOf(rest, items, sku)
      else if h.sku == sku && sku in items && !Tagged(items, h, "addon") then Some(h) else None
  {
    var all := [h] + rest;
    if rest != [] {
      LastOfCons(h, rest[..|rest| - 1], items, sku);
      assert all[..|all| - 1] == [h] + rest[..|rest| - 1] && all[|all| - 1] == rest[|rest| - 1];
    } else {
      assert all == [h] && all[..0] == [];
    }
  }

  lemma {:induction false} LastOfExactly(lines: seq<Line>, items: map<string, Item>, sku: string)
    ensures LastOf(lines, items, sku).Some? <==> exists l :: l in lines && l.sku == sku && sku in items && !Tagged(items, l, "addon")
    ensures LastOf(lines, items, sku).Some? ==>
      var l := LastOf(lines, items, sku).value; l in lines && l.sku == sku && sku in items && !Tagged(items, l, "addon")
  {
    if lines != [] {
      LastOfExactly(lines[..|lines| - 1], items, sku);
      assert lines == lines[..|lines| - 1] + [lines[|lines| - 1]];
    }
  }

  /** One more line is charged; a repeated parent takes the place of the line before it. */
  lemma {:induction false} ChargedSnoc(front: seq<Line>, last: Line, items: map<string, Item>, f: Line -> int)
    requires last.sku in items
    ensures SumBy(Charged(front + [last], items), f) == SumBy(Charged(front, items), f) + f(last)
      - if !Tagged(items, last, "addon") && LastOf(front, items, last.sku).Some? then f(LastOf(front, items, last.sku).value) else 0
  {
    var all := front + [last];
    if front == [] {
      assert all == [last] && all[1..] == [];
      assert Charged(all, items) == [last];
    } else {
      var h, rest := front[0], front[1..];
      assert front == [h] + rest && all[1..] == rest + [last];
      ChargedSnoc(rest, last, items, f);
      LastOfCons(h, rest, items, last.sku);
      LastOfExactly(rest, items, last.sku);
      ChargedHead(h, rest, last, items, f);
    }
  }

  lemma {:induction false} ChargedHead(h: Line, rest: seq<Line>, last: Line, items: map<string, Item>, f: Line -> int)
    ensures var kept := Tagged(items, h, "addon") || forall l :: l in rest ==> l.sku != h.sku;
      && SumBy(Charged([h] + rest, items), f) == SumBy(Charged(rest, items), f) + (if kept then f(h) else 0)
      && SumBy(Charged([h] + rest + [last], items), f)
        == SumBy(Charged(rest + [last], items), f)
         + if kept && (Tagged(items, h, "addon") || last.sku != h.sku) then f(h) else 0
  {
    assert ([h] + rest)[1..] == rest && ([h] + rest + [last])[1..] == rest + [last];
    assert forall l :: l in rest + [last] <==> l in rest || l == last;
    assert ([h] + Charged(rest, items))[1..] == Charged(rest, items);
    assert ([h] + Charged(rest + [last], items))[1..] == Charged(rest + [last], items);
  }

  /** Without repeated parents every line is charged. */
  lemma {:induction false} DistinctCartIsCharged(lines: seq<Line>, items: map<string, Item>)
    requires forall i, j :: 0 <= i < j < |lines| && lines[i].sku == lines[j].sku ==> Tagged(items, lines[i], "addon")
    ensures Charged(lines, items) == lines
  {
    if lines != [] {
      forall l | l in lines[1..] && l.sku == lines[0].sku ensures Tagged(items, lines[0], "addon") {
        var j :| 0 <= j < |lines[1..]| && lines[1..][j] == l;
        assert lines[j + 1] == l;
      }
      DistinctCartIsCharged(lines[1..], items);
      assert lines == [lines[0]] + lines[1..];
    }
  }

  // ----- what folding leaves of it -----

  function Found<V>(m: seq<Entry<string, V>>, k: string): Option<V> {
    if Has(m, k) then Some(m[IndexOf(m, k)].value) else None
  }

  function ParentAmount(items: map<string, Item>): Entry<string, Line> -> int {
    (e: Entry<string, Line>) => Amount(items)(e.value)
  }

  function GroupAmount(items: map<string, Item>): Entry<string, seq<Line>> -> int {
    (e: Entry<string, seq<Line>>) => SumBy(e.value, Amount(items))
  }

  ghost predicate Reads(f: Folded, lines: seq<Line>, items: map<string, Item>) {
    && WellFolded(f, items)
    && (forall sku :: Found(f.parents, sku) == LastOf(lines, items, sku))
    && (forall p :: GetOr(f.addons, p, []) == Filter(lines, AddonsOf(items, p)))
    && SumBy(f.parents, ParentAmount(items)) + SumBy(f.addons, GroupAmount(items)) == SumBy(Charged(lines, items), Amount(items))
  }

  lemma {:induction false} PutSumBy<K, V>(m: seq<Entry<K, V>>, k: K, v: V, f: Entry<K, V> -> int)
    ensures SumBy(Put(m, k, v), f) == SumBy(m, f) + f(Entry(k, v)) - if Has(m, k) then f(m[IndexOf(m, k)]) else 0
  {
    if Has(m, k) { SumUpdate(m, IndexOf(m, k), Entry(k, v), f); } else { SumSnoc(m, Entry(k, v), f); }
  }

  lemma {:induction false} FoundAfterPut<V>(m: seq<Entry<string, V>>, k: string, v: V, k': string)
    requires Functional(m)
    ensures Found(Put(m, k, v), k') == if k' == k then Some(v) else Found(m, k')
  {
    PutKeeps(m, k, v);
    GetAfterPut(m, k, v, k', v);
  }

  lemma {:induction false} FilterLast(front: seq<Line>, last: Line, p: Line -> bool)
    ensures Filter(front + [last], p) == Filter(front, p) + if p(last) then [last] else []
  {
    assert (front + [last])[..|front|] == front;
  }

  lemma {:induction false} ParentIsRead(f: Folded, front: seq<Line>, last: Line, items: map<string, Item>)
    requires Reads(f, front, items) && last.sku in items && !Tagged(items, last, "addon")
    ensures Reads(f.(parents := Put(f.parents, last.sku, last)), front + [last], items)
  {
    var lines, g := front + [last], f.(parents := Put(f.parents, last.sku, last));
    assert lines[..|front|] == front && lines[|front|] == last;
    FoldLineKeeps(f, last, items);
    forall sku ensures Found(g.parents, sku) == LastOf(lines, items, sku) { FoundAfterPut(f.parents, last.sku, last, sku); }
    forall p ensures GetOr(g.addons, p, []) == Filter(lines, AddonsOf(items, p)) { FilterLast(front, last, AddonsOf(items, p)); }
    ChargedSnoc(front, last, items, Amount(items));
    PutSumBy(f.parents, last.sku, last, ParentAmount(items));
    assert Found(f.parents, last.sku) == LastOf(front, items, last.sku);
  }

  lemma {:induction false} AddonIsRead(f: Folded, front: seq<Line>, last: Line, items: map<string, Item>)
    requires Reads(f, front, items) && Tagged(items, last, "addon") && last.parent != ""
    ensures Reads(f.(addons := Put(f.addons, last.parent, GetOr(f.addons, last.parent, []) + [last])), front + [last], items)
  {
    var own := GetOr(f.addons, last.parent, []);
    var lines, g := front + [last], f.(addons := Put(f.addons, last.parent, own + [last]));
    assert lines[..|front|] == front && lines[|front|] == last;
    FoldLineKeeps(f, last, items);
    forall p ensures GetOr(g.addons, p, []) == Filter(lines, AddonsOf(items, p)) {
      GetAfterPut(f.addons, last.parent, own + [last], p, []);
      FilterLast(front, last, AddonsOf(items, p));
    }
    ChargedSnoc(front, last, items, Amount(items));
    PutSumBy(f.addons, last.parent, own + [last], GroupAmount(items));
    SumSnoc(own, last, Amount(items));
  }

  lemma {:induction false} FoldReads(lines: seq<Line>, items: map<string, Item>)
    requires Fold(lines, items).Ok?
    ensures Reads(Fold(lines, items).value, lines, items)
  {
    if lines != [] {
      var front, last := lines[..|lines| - 1], lines[|lines| - 1];
      FoldReads(front, items);
      var f := Fold(front, items).value;
      assert lines == front + [last];
      assert Fold(lines, items) == FoldLine(f, last, items);
      if Tagged(items, last, "addon") { AddonIsRead(f, front, last, items); } else { ParentIsRead(f, front, last, items); }
    }
  }

  // ----- the lines -----

  /** What one line of a Quote is, by the cart and the catalogue. */
  ghost predicate TellsLine(input: Input, l: QuoteLine) {
    var last := LastOf(input.lines, input.items, l.sku);
    var own := Filter(input.lines, AddonsOf(input.items, l.sku));
    && last.Some? && l.sku in input.items
    && l.qty == last.value.qty
    && l.unitPriceMinor == input.items[l.sku].priceMinor
    && l.hsnSac == input.items[l.sku].hsnSac
    && l.gstRateBp == input.items[l.sku].gstRateBp
    && l.placeOfSupply == (if "service" in input.items[l.sku].tags then input.homeState else input.destinationState)
    && multiset(l.addons) == multiset(Map(own, AsAddon(input.items)))
    && (forall i, j :: 0 <= i < j < |l.addons| ==> !TextLess(l.addons[j].sku, l.addons[i].sku))
    && l.lineTotalMinor == input.items[l.sku].priceMinor * last.value.qty + SumBy(own, Amount(input.items))
  }

  lemma {:induction false} MappedInsert<T, U>(x: T, ys: seq<T>, key: T -> Key, f: T -> U)
    ensures multiset(Map(Insert(x, ys, key), f)) == multiset{f(x)} + multiset(Map(ys, f))
  {
    if ys == [] || !Before(key(ys[0]), key(x)) {
      assert ([x] + ys)[1..] == ys;
    } else {
      MappedInsert(x, ys[1..], key, f);
      assert ([ys[0]] + Insert(x, ys[1..], key))[1..] == Insert(x, ys[1..], key);
    }
  }

  lemma {:induction false} MappedSort<T, U>(xs: seq<T>, key: T -> Key, f: T -> U)
    ensures multiset(Map(Sort(xs, key), f)) == multiset(Map(xs, f))
  {
    if xs != [] {
      MappedSort(xs[1..], key, f);
      MappedInsert(xs[0], Sort(xs[1..], key), key, f);
    }
  }

  /** A parent with its add-ons: what `buildQuote` puts in one line. */
  lemma {:induction false} QuotedAlone(input: Input, line: Line, own: seq<Line>)
    requires line.sku in input.items && forall a :: a in own ==> a.sku in input.items
    ensures var l := QuoteLineFor(input, line, Sort(own, LineSku));
      && multiset(l.addons) == multiset(Map(own, AsAddon(input.items)))
      && (forall i, j :: 0 <= i < j < |l.addons| ==> !TextLess(l.addons[j].sku, l.addons[i].sku))
      && l.lineTotalMinor == input.items[line.sku].priceMinor * line.qty + SumBy(own, Amount(input.items))
  {
    var sorted, items := Sort(own, LineSku), input.items;
    SortSorts(own, LineSku);
    forall a | a in sorted ensures Priced(items)(a) == AsAddon(items)(a) {
      assert a in multiset(own);
      assert Amount(items)(a) == items[a.sku].priceMinor * a.qty;
    }
    C.MapCongruent(sorted, Priced(items), AsAddon(items));
    MappedSort(own, LineSku, AsAddon(items));
    SumMap(sorted, Priced(items), AddonAmount(), Amount(items));
    SumSort(own, LineSku, Amount(items));
    forall i, j | 0 <= i < j < |sorted| ensures !TextLess(sorted[j].sku, sorted[i].sku) {
      assert !Before(LineSku(sorted[j]), LineSku(sorted[i]));
    }
  }

  lemma {:induction false} ParentTells(input: Input, f: Folded, e: Entry<string, Line>)
    requires Reads(f, input.lines, input.items) && e in f.parents
    ensures TellsLine(input, LineQuoter(input, f.addons)(e.value)) && LineQuoter(input, f.addons)(e.value).sku == e.key
    ensures LastOf(input.lines, input.items, e.key) == Some(e.value)
  {
    var i :| 0 <= i < |f.parents| && f.parents[i] == e;
    IndexOfEntry(f.parents, i);
    assert Found(f.parents, e.key) == Some(e.value);
    assert GetOr(f.addons, e.key, []) == Filter(input.lines, AddonsOf(input.items, e.key));
    QuotedAlone(input, e.value, Filter(input.lines, AddonsOf(input.items, e.key)));
  }

  /** The cart in the Quote: one line for each SKU that is not an add-on, in SKU order, with the
      last such cart line's quantity, the catalogue's price, code and rate, the place of supply
      of goods or of a service, and exactly its own add-ons. */
  lemma {:induction false} LinesTellTheCart(input: Input)
    requires BuildQuote(input).Ok?
    ensures var q := BuildQuote(input).value;
      && (forall i, j :: 0 <= i < j < |q.lines| ==> TextLess(q.lines[i].sku, q.lines[j].sku))
      && (forall l :: l in q.lines ==> TellsLine(input, l))
      && (forall c :: c in input.lines && !Tagged(input.items, c, "addon") ==> exists l :: l in q.lines && l.sku == c.sku)
  {
    var f := Fold(input.lines, input.items).value;
    var q := BuildQuote(input).value;
    FoldReads(input.lines, input.items);
    QuoteLinesAreOrdered(input, f);
    forall l | l in q.lines ensures TellsLine(input, l) {
      var e :| e in f.parents && l == LineQuoter(input, f.addons)(e.value);
      ParentTells(input, f, e);
    }
    forall i, j | 0 <= i < j < |q.lines| ensures TextLess(q.lines[i].sku, q.lines[j].sku) {
      assert !Before(QuoteLineSku(q.lines[j]), QuoteLineSku(q.lines[i])) && QuoteLineSku(q.lines[i]) != QuoteLineSku(q.lines[j]);
      TextTotal(q.lines[i].sku, q.lines[j].sku);
    }
    forall c | c in input.lines && !Tagged(input.items, c, "addon") ensures exists l :: l in q.lines && l.sku == c.sku {
      EveryLineIsKnown(input.lines, input.items);
      LastOfExactly(input.lines, input.items, c.sku);
      assert Found(f.parents, c.sku).Some?;
      ParentIsQuoted(input, f, IndexOf(f.parents, c.sku));
    }
  }

  lemma {:induction false} ParentIsQuoted(input: Input, f: Folded, i: nat)
    requires WellFolded(f, input.items) && i < |f.parents|
    ensures exists l :: l in QuoteLines(input, f) && l.sku == f.parents[i].key
  {
    var unsorted := Unsorted(input, f);
    UnsortedAt(input, f, i);
    SortSorts(unsorted, QuoteLineSku);
    assert f.parents[i] in f.parents;
    assert unsorted[i] in multiset(QuoteLines(input, f));
  }

  lemma {:induction false} EveryLineIsKnown(lines: seq<Line>, items: map<string, Item>)
    requires Fold(lines, items).Ok?
    ensures forall l :: l in lines ==> l.sku in items && (Tagged(items, l, "addon") ==> l.parent != "")
  {
    if lines != [] {
      EveryLineIsKnown(lines[..|lines| - 1], items);
      assert lines == lines[..|lines| - 1] + [lines[|lines| - 1]];
    }
  }

  // ----- the sums -----

  function AddonsFor(addons: AddonLines, f: Line -> int): Entry<string, Line> -> int {
    (e: Entry<string, Line>) => SumBy(GetOr(addons, e.key, []), f)
  }

  function AtKey(k: string, v: int): Entry<string, Line> -> int { (e: Entry<string, Line>) => if e.key == k then v else 0 }

  lemma {:induction false} OneKey(parents: Lines, k: string, v: int)
    requires Functional(parents)
    ensures SumBy(parents, AtKey(k, v)) == if exists e :: e in parents && e.key == k then v else 0
  {
    if parents != [] {
      var rest := parents[1..];
      OneKey(rest, k, v);
      assert parents == [parents[0]] + rest;
      forall e | e in rest ensures e.key != parents[0].key {
        var j :| 0 <= j < |rest| && rest[j] == e;
        assert parents[j + 1] == e;
      }
    }
  }

  lemma {:induction false} SumsDiffer(parents: Lines, f: Entry<string, Line> -> int, g: Entry<string, Line> -> int, h: Entry<string, Line> -> int)
    requires forall e :: e in parents ==> f(e) == g(e) + h(e)
    ensures SumBy(parents, f) == SumBy(parents, g) + SumBy(parents, h)
  {
    if parents != [] { SumsDiffer(parents[1..], f, g, h); }
  }

  /** Add-ons summed under their parents are all of them, when each has a parent. */
  lemma {:induction false} NoAddonIsLost(parents: Lines, addons: AddonLines, items: map<string, Item>)
    requires Functional(parents) && Functional(addons)
    requires forall e :: e in addons ==> exists p :: p in parents && p.key == e.key
    ensures SumBy(parents, AddonsFor(addons, Amount(items))) == SumBy(addons, GroupAmount(items))
  {
    if addons == [] {
      OneKey(parents, "", 0);
      SumsDiffer(parents, AddonsFor(addons, Amount(items)), AtKey("", 0), AtKey("", 0));
    } else {
      var front, last := addons[..|addons| - 1], addons[|addons| - 1];
      assert addons == front + [last] && last in addons;
      NoAddonIsLost(parents, front, items);
      SumSnoc(front, last, GroupAmount(items));
      OneKey(parents, last.key, GroupAmount(items)(last));
      forall e | e in parents
        ensures AddonsFor(addons, Amount(items))(e) == AddonsFor(front, Amount(items))(e) + AtKey(last.key, GroupAmount(items)(last))(e)
      {
        FoundInFront(front, last, e.key);
      }
      SumsDiffer(parents, AddonsFor(addons, Amount(items)), AddonsFor(front, Amount(items)), AtKey(last.key, GroupAmount(items)(last)));
    }
  }

  lemma {:induction false} FoundInFront(front: AddonLines, last: Entry<string, seq<Line>>, k: string)
    requires Functional(front + [last])
    ensures GetOr(front + [last], k, []) == if k == last.key then last.value else GetOr(front, k, [])
    ensures k == last.key ==> GetOr(front, k, []) == []
  {
    var all := front + [last];
    assert all[|front|] == last;
    if Has(front, k) {
      assert all[IndexOf(front, k)] == front[IndexOf(front, k)];
      IndexOfEntry(all, IndexOf(front, k));
    } else if k == last.key {
      IndexOfEntry(all, |front|);
    }
  }

  /** The subtotal is the charged lines of the cart, each at its price times its quantity. */
  lemma {:induction false} SubtotalIsTheCart(input: Input)
    requires BuildQuote(input).Ok?
    ensures BuildQuote(input).value.subtotalMinor == SumBy(Charged(input.lines, input.items), Amount(input.items))
  {
    var items, f := input.items, Fold(input.lines, input.items).value;
    FoldReads(input.lines, items);
    C.NoOrphan(f.addons, f.parents);
    forall e | e in f.addons ensures exists p :: p in f.parents && p.key == e.key {
      assert f.parents[IndexOf(f.parents, e.key)] in f.parents;
    }
    NoAddonIsLost(f.parents, f.addons, items);
    SumSort(Unsorted(input, f), QuoteLineSku, LineTotal());
    forall e | e in f.parents
      ensures LineTotal()(LineQuoter(input, f.addons)(ParentLine()(e))) == ParentAmount(items)(e) + AddonsFor(f.addons, Amount(items))(e)
    {
      ParentTells(input, f, e);
    }
    SumOfLines(input, f);
  }

  lemma {:induction false} SumOfLines(input: Input, f: Folded)
    requires forall e :: e in f.parents ==>
      LineTotal()(LineQuoter(input, f.addons)(ParentLine()(e))) == ParentAmount(input.items)(e) + AddonsFor(f.addons, Amount(input.items))(e)
    ensures SumBy(Unsorted(input, f), LineTotal())
      == SumBy(f.parents, ParentAmount(input.items)) + SumBy(f.parents, AddonsFor(f.addons, Amount(input.items)))
  {
    var quoted := (e: Entry<string, Line>) => LineTotal()(LineQuoter(input, f.addons)(ParentLine()(e)));
    var ofLine := (l: Line) => LineTotal()(LineQuoter(input, f.addons)(l));
    SumMap(Map(f.parents, ParentLine()), LineQuoter(input, f.addons), LineTotal(), ofLine);
    SumMap(f.parents, ParentLine(), ofLine, quoted);
    SumsDiffer(f.parents, quoted, ParentAmount(input.items), AddonsFor(f.addons, Amount(input.items)));
  }

  /** The total is that subtotal, the delivery and the discount; everything else the Quote says
      of the basket as a whole is what was asked for. */
  lemma {:induction false} TotalIsTheCart(input: Input)
    requires BuildQuote(input).Ok?
    ensures var q := BuildQuote(input).value;
      && q.totalMinor == SumBy(Charged(input.lines, input.items), Amount(input.items)) + input.zone.costMinor
          + (if input.discount.Some? then input.discount.value.amountMinor else 0)
      && q.discountLines == (if input.discount.Some? then [input.discount.value] else [])
      && q.fulfillmentOptions == [input.zone]
      && q.fulfillmentChosen == FulfillmentChosen(input.zone.id, input.zone.costMinor)
      && q.roundOffMinor == 0 && q.currency == "INR" && q.taxInclusive == input.taxInclusive
  {
    SubtotalIsTheCart(input);
    if input.discount.Some? { assert DiscountLines(input)[1..] == []; }
    assert SumBy(DiscountLines(input), DiscountAmount()) == if input.discount.Some? then input.discount.value.amountMinor else 0;
  }

  // ----- the tax lines -----

  function ByTotal(lines: seq<QuoteLine>): (ws: seq<A.Weighted>)
    ensures |ws| == |lines|
  {
    seq(|lines|, i requires 0 <= i < |lines| => A.Weighted(lines[i].sku, lines[i].lineTotalMinor))
  }

  /** The largest-remainder shares of an amount over the lines' totals. */
  ghost predicate IsShare(amount: int, lines: seq<QuoteLine>, shares: seq<int>) {
    && |shares| == |lines|
    && (A.Total(ByTotal(lines)) > 0 ==> A.LargestRemainder(amount, ByTotal(lines), shares))
    && (A.Total(ByTotal(lines)) == 0 ==> forall i :: 0 <= i < |shares| ==> shares[i] == 0)
  }

  /** What tax is taken from: a line's total, less its share of the discount, with its share of
      the delivery. */
  ghost predicate Taxed(input: Input, lines: seq<QuoteLine>, d: seq<int>, s: seq<int>, amounts: seq<int>) {
    && |amounts| == |d| == |lines|
    && (if input.discount.Some?
        then IsShare(if input.discount.value.amountMinor < 0 then -input.discount.value.amountMinor else input.discount.value.amountMinor, lines, d)
        else forall i :: 0 <= i < |d| ==> d[i] == 0)
    && IsShare(input.zone.costMinor, lines, s)
    && forall i :: 0 <= i < |lines| ==> amounts[i] == lines[i].lineTotalMinor - d[i] + s[i]
  }

  /** The groups a line's tax goes to: two halves at home, one whole elsewhere. */
  predicate Belongs(line: QuoteLine, home: string, g: TaxGroup) {
    if line.placeOfSupply == home then g.kind != IGST && g.rateBp == line.gstRateBp / 2
    else g.kind == IGST && g.rateBp == line.gstRateBp
  }

  function OfGroup(g: TaxGroup): TaxLine -> int {
    (t: TaxLine) => if t.kind == g.kind && t.rateBp == g.rateBp then t.amountMinor else 0
  }

  function ValueAt(g: TaxGroup): Entry<TaxGroup, int> -> int { (e: Entry<TaxGroup, int>) => if e.key == g then e.value else 0 }

  lemma {:induction false} OneGroup(taxes: Taxes, g: TaxGroup)
    requires Functional(taxes)
    ensures SumBy(taxes, ValueAt(g)) == GetOr(taxes, g, 0)
  {
    if taxes != [] {
      OneGroup(taxes[1..], g);
    }
  }

  lemma {:induction false} GroupAdded(taxes: Taxes, group: TaxGroup, amount: int, g: TaxGroup)
    requires Functional(taxes)
    ensures Functional(AddTax(taxes, group, amount))
    ensures Has(AddTax(taxes, group, amount), g) <==> g == group || Has(taxes, g)
  {
    PutKeeps(taxes, group, GetOr(taxes, group, 0) + amount);
  }

  lemma {:induction false} LinePresent(before: Taxes, l: QuoteLine, inclusive: int, home: string, g: TaxGroup)
    requires Functional(before)
    ensures Functional(AddLineTax(before, l, inclusive, home))
    ensures Has(AddLineTax(before, l, inclusive, home), g) <==> Has(before, g) || Belongs(l, home, g)
  {
    var (cgst, sgst) := SplitCgstSgst(ExtractTax(inclusive, l.gstRateBp));
    var c, s := TaxGroup(CGST, l.gstRateBp / 2), TaxGroup(SGST, l.gstRateBp / 2);
    GroupAdded(before, c, cgst, g);
    GroupAdded(AddTax(before, c, cgst), s, sgst, g);
    GroupAdded(before, TaxGroup(IGST, l.gstRateBp), ExtractTax(inclusive, l.gstRateBp), g);
    if l.placeOfSupply == home { assert Belongs(l, home, g) <==> g == c || g == s; }
  }

  lemma {:induction false} GroupsPresent(lines: seq<QuoteLine>, inclusive: seq<int>, home: string, g: TaxGroup)
    requires |lines| == |inclusive|
    ensures Functional(TaxesOf(lines, inclusive, home))
    ensures Has(TaxesOf(lines, inclusive, home), g) <==> exists l :: l in lines && Belongs(l, home, g)
  {
    if lines != [] {
      var n := |lines| - 1;
      GroupsPresent(lines[..n], inclusive[..n], home, g);
      assert lines == lines[..n] + [lines[n]];
      LinePresent(TaxesOf(lines[..n], inclusive[..n], home), lines[n], inclusive[n], home, g);
    }
  }

  /** The tax lines of a Quote, by its lines and the amounts tax is taken from. */
  ghost predicate TaxesTell(input: Input, q: Quote, amounts: seq<int>)
    requires |amounts| == |q.lines|
  {
    && (forall g :: SumBy(q.taxLines, OfGroup(g)) == GroupTotal(q.lines, amounts, input.homeState, g))
    && (forall i, j :: 0 <= i < j < |q.taxLines| ==>
          TaxGroup(q.taxLines[i].kind, q.taxLines[i].rateBp) != TaxGroup(q.taxLines[j].kind, q.taxLines[j].rateBp))
    && (forall t :: t in q.taxLines ==>
          && t.informational == input.taxInclusive
          && t.title == t.kind.Name() + " " + RateLabel(t.rateBp)
          && exists l :: l in q.lines && Belongs(l, input.homeState, TaxGroup(t.kind, t.rateBp)))
    && (forall l, g :: l in q.lines && Belongs(l, input.homeState, g) ==>
          exists t :: t in q.taxLines && t.kind == g.kind && t.rateBp == g.rateBp)
  }

  lemma {:induction false} AmountsAreTaxed(input: Input, lines: seq<QuoteLine>)
    requires DistinctQuoteLines(lines) && A.NonNegativeWeights(Weights(lines))
    ensures Taxed(input, lines, DiscountShares(input, lines), ShippingShares(input, lines), Inclusive(input, lines))
  {
    assert Weights(lines) == ByTotal(lines);
    WeightsAreDistinct(lines);
    ShareIsShare(input.zone.costMinor, lines);
    if input.discount.Some? { ShareIsShare(Abs(input.discount.value.amountMinor), lines); }
  }

  lemma {:induction false} ShareIsShare(amount: int, lines: seq<QuoteLine>)
    requires A.DistinctSkus(Weights(lines)) && Weights(lines) == ByTotal(lines)
    ensures IsShare(amount, lines, A.Shares(amount, Weights(lines)))
  {
    if A.Total(Weights(lines)) > 0 { A.SharesFollowTheRule(amount, Weights(lines)); }
  }

  lemma {:induction false} SortedGroups(taxes: Taxes)
    requires Functional(taxes)
    ensures Functional(Sort(taxes, GroupKey))
    ensures forall e :: e in Sort(taxes, GroupKey) <==> e in taxes
  {
    SortSorts(taxes, GroupKey);
    forall e ensures e in Sort(taxes, GroupKey) <==> e in taxes {
      assert e in Sort(taxes, GroupKey) <==> e in multiset(taxes);
    }
    forall i, j | 0 <= i < j < |taxes| ensures GroupKey(taxes[i]) != GroupKey(taxes[j]) {
      assert taxes[i].key != taxes[j].key;
    }
    DistinctKeysPermute(taxes, Sort(taxes, GroupKey), GroupKey);
    forall i, j | 0 <= i < j < |taxes| ensures Sort(taxes, GroupKey)[i].key != Sort(taxes, GroupKey)[j].key {
      assert GroupKey(Sort(taxes, GroupKey)[i]) != GroupKey(Sort(taxes, GroupKey)[j]);
    }
  }

  lemma {:induction false} GroupAmounts(lines: seq<QuoteLine>, amounts: seq<int>, home: string, informational: bool, g: TaxGroup)
    requires |amounts| == |lines|
    ensures SumBy(TaxLines(TaxesOf(lines, amounts, home), informational), OfGroup(g)) == GroupTotal(lines, amounts, home, g)
  {
    var taxes := TaxesOf(lines, amounts, home);
    GroupsAreByPlaceAndRate(lines, amounts, home, g);
    OneGroup(taxes, g);
    SumSort(taxes, GroupKey, ValueAt(g));
    SumMap(Sort(taxes, GroupKey), TaxLineOf(informational), OfGroup(g), ValueAt(g));
  }

  lemma {:induction false} HasEntry<K, V>(m: seq<Entry<K, V>>, k: K)
    ensures Has(m, k) <==> exists e :: e in m && e.key == k
  {
    if Has(m, k) {
      assert m[IndexOf(m, k)] in m;
    } else {
      forall e | e in m ensures e.key != k {
        var i :| 0 <= i < |m| && m[i] == e;
      }
    }
  }

  lemma {:induction false} GroupLine(taxes: Taxes, informational: bool, g: TaxGroup)
    requires Functional(taxes)
    ensures (exists t :: t in TaxLines(taxes, informational) && TaxGroup(t.kind, t.rateBp) == g) <==> Has(taxes, g)
  {
    var sorted, lines := Sort(taxes, GroupKey), TaxLines(taxes, informational);
    HasEntry(taxes, g);
    SortedGroups(taxes);
    if e :| e in taxes && e.key == g {
      assert e in sorted;
      var i :| 0 <= i < |sorted| && sorted[i] == e;
      assert lines[i] in lines && TaxGroup(lines[i].kind, lines[i].rateBp) == g;
    }
    if t :| t in lines && TaxGroup(t.kind, t.rateBp) == g {
      var i :| 0 <= i < |sorted| && lines[i] == t;
      assert sorted[i] in sorted && sorted[i].key == g;
    }
  }

  /** A tax line for a group if and only if some line belongs to it. */
  lemma {:induction false} GroupLines(lines: seq<QuoteLine>, amounts: seq<int>, home: string, informational: bool, g: TaxGroup)
    requires |amounts| == |lines|
    ensures (exists t :: t in TaxLines(TaxesOf(lines, amounts, home), informational) && TaxGroup(t.kind, t.rateBp) == g)
      <==> exists l :: l in lines && Belongs(l, home, g)
  {
    GroupsPresent(lines, amounts, home, g);
    GroupLine(TaxesOf(lines, amounts, home), informational, g);
  }

  lemma {:induction false} TaxLinesOf(input: Input, lines: seq<QuoteLine>, amounts: seq<int>, q: Quote)
    requires |amounts| == |lines| && q.lines == lines
    requires q.taxLines == TaxLines(TaxesOf(lines, amounts, input.homeState), input.taxInclusive)
    ensures TaxesTell(input, q, amounts)
  {
    var home, inclusive := input.homeState, input.taxInclusive;
    GroupsPresent(lines, amounts, home, TaxGroup(IGST, 0));
    SortedGroups(TaxesOf(lines, amounts, home));
    forall g ensures SumBy(q.taxLines, OfGroup(g)) == GroupTotal(lines, amounts, home, g) {
      GroupAmounts(lines, amounts, home, inclusive, g);
    }
    forall t | t in q.taxLines ensures exists l :: l in lines && Belongs(l, home, TaxGroup(t.kind, t.rateBp)) {
      GroupLines(lines, amounts, home, inclusive, TaxGroup(t.kind, t.rateBp));
    }
    forall l, g | l in lines && Belongs(l, home, g) ensures exists t :: t in q.taxLines && t.kind == g.kind && t.rateBp == g.rateBp {
      GroupLines(lines, amounts, home, inclusive, g);
    }
  }

  /** The tax lines: one for each group some line belongs to and no other, holding the tax of
      exactly those lines' amounts, those amounts being the line totals with the largest-remainder
      shares of discount and delivery. */
  lemma {:induction false} TaxLinesTellTheLines(input: Input)
    requires BuildQuote(input).Ok?
    ensures var q := BuildQuote(input).value;
      exists d, s, amounts :: Taxed(input, q.lines, d, s, amounts) && TaxesTell(input, q, amounts)
  {
    BuiltLines(input);
    var q := BuildQuote(input).value;
    AmountsAreTaxed(input, q.lines);
    TaxLinesOf(input, q.lines, Inclusive(input, q.lines), q);
    assert Taxed(input, q.lines, DiscountShares(input, q.lines), ShippingShares(input, q.lines), Inclusive(input, q.lines));
  }

  // ----- what a refused cart is refused for -----

  predicate Unfoldable(items: map<string, Item>, l: Line) {
    l.sku !in items || (Tagged(items, l, "addon") && l.parent == "")
  }

  /** An add-on whose parent is nowhere in the cart. */
  predicate Loose(lines: seq<Line>, items: map<string, Item>, l: Line) {
    Tagged(items, l, "addon") && LastOf(lines, items, l.parent) == None
  }

  /** The first line that cannot be folded, or else the first add-on left loose. */
  ghost predicate RefusedAt(lines: seq<Line>, items: map<string, Item>, i: nat, e: PricingError) {
    && i < |lines|
    && if exists l :: l in lines && Unfoldable(items, l) then
        && Unfoldable(items, lines[i]) && (forall j :: 0 <= j < i ==> !Unfoldable(items, lines[j]))
        && e == if lines[i].sku !in items then NotFound(lines[i].sku) else AddonAlone(lines[i].sku)
      else
        && Loose(lines, items, lines[i]) && (forall j :: 0 <= j < i ==> !Loose(lines, items, lines[j]))
        && e == AddonWithoutParent(lines[i].parent)
  }

  lemma {:induction false} FoldStopsAt(lines: seq<Line>, items: map<string, Item>) returns (i: nat)
    requires Fold(lines, items).Err?
    ensures i < |lines| && Unfoldable(items, lines[i]) && forall j :: 0 <= j < i ==> !Unfoldable(items, lines[j])
    ensures Fold(lines, items).error == if lines[i].sku !in items then NotFound(lines[i].sku) else AddonAlone(lines[i].sku)
  {
    var n := |lines| - 1;
    if Fold(lines[..n], items).Err? {
      i := FoldStopsAt(lines[..n], items);
    } else {
      i := n;
      EveryLineIsKnown(lines[..n], items);
      forall j | 0 <= j < n ensures !Unfoldable(items, lines[j]) { assert lines[..n][j] in lines[..n]; }
    }
  }

  /** The parent of the first add-on line that is missing from `parents`. */
  function FirstLoose(lines: seq<Line>, items: map<string, Item>, parents: Lines): Option<string> {
    if lines == [] then None
    else
      match FirstLoose(lines[..|lines| - 1], items, parents)
      case Some(p) => Some(p)
      case None =>
        var last := lines[|lines| - 1];
        if Tagged(items, last, "addon") && !Has(parents, last.parent) then Some(last.parent) else None
  }

  lemma {:induction false} OrphanSeesKeys(m: AddonLines, m': AddonLines, parents: Lines)
    requires |m| == |m'| && forall i :: 0 <= i < |m| ==> m[i].key == m'[i].key
    ensures Orphan(m, parents) == Orphan(m', parents)
  {
    if m != [] { OrphanSeesKeys(m[..|m| - 1], m'[..|m| - 1], parents); }
  }

  lemma {:induction false} OrphanAfterPut(m: AddonLines, k: string, v: seq<Line>, parents: Lines)
    ensures Orphan(Put(m, k, v), parents) ==
      if Orphan(m, parents).Some? then Orphan(m, parents) else if Has(parents, k) then None else Some(k)
  {
    if Has(m, k) {
      OrphanSeesKeys(m, Put(m, k, v), parents);
      C.NoOrphan(m, parents);
      assert m[IndexOf(m, k)] in m;
    } else {
      assert (m + [Entry(k, v)])[..|m|] == m;
    }
  }

  lemma {:induction false} OrphanIsFirstLoose(lines: seq<Line>, items: map<string, Item>, parents: Lines)
    requires Fold(lines, items).Ok?
    ensures Orphan(Fold(lines, items).value.addons, parents) == FirstLoose(lines, items, parents)
  {
    if lines != [] {
      var front, last := lines[..|lines| - 1], lines[|lines| - 1];
      OrphanIsFirstLoose(front, items, parents);
      var f := Fold(front, items).value;
      OrphanAfterPut(f.addons, last.parent, GetOr(f.addons, last.parent, []) + [last], parents);
    }
  }

  lemma {:induction false} FirstLooseAt(lines: seq<Line>, items: map<string, Item>, parents: Lines) returns (i: nat)
    ensures FirstLoose(lines, items, parents) == None <==>
      forall l :: l in lines ==> !(Tagged(items, l, "addon") && !Has(parents, l.parent))
    ensures FirstLoose(lines, items, parents).Some? ==>
      && i < |lines| && Tagged(items, lines[i], "addon") && !Has(parents, lines[i].parent)
      && (forall j :: 0 <= j < i ==> !(Tagged(items, lines[j], "addon") && !Has(parents, lines[j].parent)))
      && FirstLoose(lines, items, parents) == Some(lines[i].parent)
  {
    i := 0;
    if lines != [] {
      var n := |lines| - 1;
      assert lines == lines[..n] + [lines[n]];
      i := FirstLooseAt(lines[..n], items, parents);
      if FirstLoose(lines[..n], items, parents) == None {
        i := n;
        forall j | 0 <= j < n ensures !(Tagged(items, lines[j], "addon") && !Has(parents, lines[j].parent)) {
          assert lines[..n][j] in lines[..n];
        }
      }
    }
  }

  /** A cart is quoted if and only if every line can be folded and no add-on is loose; a refusal
      names the first line that cannot be folded, or else the first loose add-on's parent. */
  lemma {:induction false} RefusedExactly(input: Input) returns (i: nat)
    ensures BuildQuote(input).Ok? <==>
      forall l :: l in input.lines ==> !Unfoldable(input.items, l) && !Loose(input.lines, input.items, l)
    ensures BuildQuote(input).Err? ==> RefusedAt(input.lines, input.items, i, BuildQuote(input).error)
  {
    var lines, items := input.lines, input.items;
    if Fold(lines, items).Err? {
      i := FoldStopsAt(lines, items);
      assert lines[i] in lines;
    } else {
      var f := Fold(lines, items).value;
      EveryLineIsKnown(lines, items);
      FoldReads(lines, items);
      forall l | l in lines ensures Loose(lines, items, l) <==> Tagged(items, l, "addon") && !Has(f.parents, l.parent) {
        assert Found(f.parents, l.parent) == LastOf(lines, items, l.parent);
      }
      OrphanIsFirstLoose(lines, items, f.parents);
      i := FirstLooseAt(lines, items, f.parents);
    }
  }

  // ----- how a rate prints -----

  /** The label is the whole per cent, and after a point the first digit of the rest when there is
      a rest; a second digit is not printed. */
  lemma {:induction false} LabelReads(rateBp: nat) returns (whole: string, tenth: string)
    ensures RateLabel(rateBp) == if rateBp % 100 == 0 then whole + "%" else whole + "." + tenth + "%"
    ensures T.Value(whole) == rateBp / 100 && T.Value(tenth) == rateBp % 100 / 10 && |tenth| == 1
  {
    whole, tenth := T.Decimal(rateBp / 100), T.Decimal(rateBp % 100 / 10);
    T.DecimalHasValue(rateBp / 100);
    T.DecimalHasValue(rateBp % 100 / 10);
  }
}
