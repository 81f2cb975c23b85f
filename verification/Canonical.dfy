/** Canonical forms. A Quote does not depend on the order the cart was written in, and the
    two hashes the Consumer's Authority is taken over do not depend on the order of any
    breakdown list: `quote_hash` and `cart_hash` are complete invariants of what was agreed,
    up to a collision of SHA-256.

    SHA-256 over canonical JSON is a parameter: any function of the normalised value. */
module Canonical {
  import opened Wrappers
  import opened Ordering
  import opened Sums
  import opened Pricing
  import T = Text

  // ----- the Quote as a canonical form of the cart -----

  function ParentTest(items: map<string, Item>): Line -> bool { (l: Line) => IsParent(items, l) }

  function AddonTest(items: map<string, Item>, parent: string): Line -> bool {
    (l: Line) => IsAddon(items, l) && l.parent == parent
  }

  /** One line per parent SKU, one per add-on and parent. */
  ghost predicate DistinctCart(lines: seq<Line>, items: map<string, Item>) {
    forall i, j :: 0 <= i < j < |lines| && lines[i].sku == lines[j].sku ==>
      && !(IsParent(items, lines[i]) && IsParent(items, lines[j]))
      && !(IsAddon(items, lines[i]) && IsAddon(items, lines[j]) && lines[i].parent == lines[j].parent)
  }

  ghost predicate Foldable(lines: seq<Line>, items: map<string, Item>) {
    forall l :: l in lines ==> l.sku in items && (IsAddon(items, l) ==> l.parent != "")
  }

  /** What folding leaves, without the loop: the parent lines in cart order, and for every
      parent its add-ons in cart order. */
  ghost predicate FoldsTo(f: Folded, lines: seq<Line>, items: map<string, Item>) {
    && Map(f.parents, ParentLine()) == Filter(lines, ParentTest(items))
    && (forall p :: GetOr(f.addons, p, []) == Filter(lines, AddonTest(items, p)))
    && (forall p :: Has(f.addons, p) <==> exists l :: l in lines && IsAddon(items, l) && l.parent == p)
  }

  lemma {:induction false} FoldIsFilter(lines: seq<Line>, items: map<string, Item>)
    requires DistinctCart(lines, items)
    ensures Fold(lines, items).Ok? <==> Foldable(lines, items)
    ensures Fold(lines, items).Ok? ==> FoldsTo(Fold(lines, items).value, lines, items)
  {
    if lines != [] {
      var front, line := lines[..|lines| - 1], lines[|lines| - 1];
      assert lines == front + [line];
      FoldIsFilter(front, items);
      if Fold(front, items).Ok? && FoldLine(Fold(front, items).value, line, items).Ok? {
        FoldKeeps(front, items);
        FoldStep(Fold(front, items).value, front, line, items);
      }
    }
  }

  lemma {:induction false} FoldStep(f: Folded, front: seq<Line>, line: Line, items: map<string, Item>)
    requires FoldsTo(f, front, items) && WellFolded(f, items)
    requires DistinctCart(front + [line], items)
    requires FoldLine(f, line, items).Ok?
    ensures FoldsTo(FoldLine(f, line, items).value, front + [line], items)
  {
    var lines, g := front + [line], FoldLine(f, line, items).value;
    assert lines[..|lines| - 1] == front && lines[|lines| - 1] == line;
    if IsAddon(items, line) {
      var own := GetOr(f.addons, line.parent, []) + [line];
      forall p
        ensures GetOr(g.addons, p, []) == Filter(lines, AddonTest(items, p))
        ensures Has(g.addons, p) <==> exists l :: l in lines && IsAddon(items, l) && l.parent == p
      {
        GetAfterPut(f.addons, line.parent, own, p, []);
        PutKeeps(f.addons, line.parent, own);
        if Has(f.addons, p) {
          var l :| l in front && IsAddon(items, l) && l.parent == p;
          assert l in lines;
        }
      }
    } else {
      ParentIsNew(f, front, line, items);
      MapSnoc(f.parents, Entry(line.sku, line), ParentLine());
      forall p ensures Has(g.addons, p) <==> exists l :: l in lines && IsAddon(items, l) && l.parent == p {
        if Has(f.addons, p) {
          var l :| l in front && IsAddon(items, l) && l.parent == p;
          assert l in lines;
        }
      }
    }
  }

  lemma {:induction false} ParentIsNew(f: Folded, front: seq<Line>, line: Line, items: map<string, Item>)
    requires FoldsTo(f, front, items) && WellFolded(f, items)
    requires DistinctCart(front + [line], items) && IsParent(items, line)
    ensures !Has(f.parents, line.sku)
  {
    var ps := Map(f.parents, ParentLine());
    forall i | 0 <= i < |f.parents| ensures f.parents[i].key != line.sku {
      assert f.parents[i] in f.parents;
      assert ps[i] in ps;
      var k :| 0 <= k < |front| && front[k] == ps[i];
      assert (front + [line])[k] == ps[i] && (front + [line])[|front|] == line;
    }
  }

  lemma {:induction false} MapSnoc<T, U>(xs: seq<T>, x: T, f: T -> U)
    ensures Map(xs + [x], f) == Map(xs, f) + [f(x)]
  {
  }

  /** Nothing is orphaned exactly when every add-on's parent is in the cart. */
  lemma {:induction false} NoOrphan(addons: AddonLines, parents: Lines)
    ensures Orphan(addons, parents) == None <==> forall e :: e in addons ==> Has(parents, e.key)
  {
    if addons != [] {
      NoOrphan(addons[..|addons| - 1], parents);
      assert addons == addons[..|addons| - 1] + [addons[|addons| - 1]];
    }
  }

  /** When `buildQuote` answers: every line is a known item, every add-on names a parent
      line of the cart. */
  ghost predicate Quotable(lines: seq<Line>, items: map<string, Item>) {
    && Foldable(lines, items)
    && forall l :: l in lines && IsAddon(items, l) ==>
         exists p :: p in lines && IsParent(items, p) && p.sku == l.parent
  }

  lemma {:induction false} NoOrphanExactly(f: Folded, lines: seq<Line>, items: map<string, Item>)
    requires FoldsTo(f, lines, items) && WellFolded(f, items)
    ensures Orphan(f.addons, f.parents) == None <==>
      forall l :: l in lines && IsAddon(items, l) ==>
        exists p :: p in lines && IsParent(items, p) && p.sku == l.parent
  {
    NoOrphan(f.addons, f.parents);
    forall l | l in lines && IsAddon(items, l)
      ensures exists e :: e in f.addons && e.key == l.parent
      ensures Has(f.parents, l.parent) <==> exists p :: p in lines && IsParent(items, p) && p.sku == l.parent
    {
      assert Has(f.addons, l.parent);
      assert f.addons[IndexOf(f.addons, l.parent)] in f.addons;
      ParentsByName(f, lines, items, l.parent);
    }
    forall e | e in f.addons ensures exists l :: l in lines && IsAddon(items, l) && l.parent == e.key {
      var i :| 0 <= i < |f.addons| && f.addons[i] == e;
      IndexOfEntry(f.addons, i);
      assert Has(f.addons, e.key);
    }
  }

  lemma {:induction false} QuotableExactly(input: Input)
    requires DistinctCart(input.lines, input.items)
    ensures BuildQuote(input).Ok? <==> Quotable(input.lines, input.items)
  {
    FoldIsFilter(input.lines, input.items);
    if Foldable(input.lines, input.items) {
      FoldKeeps(input.lines, input.items);
      NoOrphanExactly(Fold(input.lines, input.items).value, input.lines, input.items);
    }
  }

  lemma {:induction false} ParentsByName(f: Folded, lines: seq<Line>, items: map<string, Item>, sku: string)
    requires FoldsTo(f, lines, items) && WellFolded(f, items)
    ensures Has(f.parents, sku) <==> exists p :: p in lines && IsParent(items, p) && p.sku == sku
  {
    var ps := Map(f.parents, ParentLine());
    if Has(f.parents, sku) {
      var i := IndexOf(f.parents, sku);
      assert f.parents[i] in f.parents;
      assert ps[i] in ps;
    }
    if p :| p in lines && IsParent(items, p) && p.sku == sku {
      assert p in ps;
      var i :| 0 <= i < |ps| && ps[i] == p;
      assert f.parents[i] in f.parents;
      IndexOfEntry(f.parents, i);
    }
  }

  lemma {:induction false} PermutedMembers<T>(xs: seq<T>, ys: seq<T>)
    requires multiset(xs) == multiset(ys)
    ensures forall x :: x in xs <==> x in ys
  {
    forall x ensures x in xs <==> x in ys {
      assert x in xs <==> x in multiset(xs);
      assert x in ys <==> x in multiset(ys);
    }
  }

  /** Two carts holding the same lines quote any one line alike. */
  lemma {:induction false} SameQuoter(input: Input, lines: seq<Line>, f: Folded, g: Folded, l: Line)
    requires multiset(lines) == multiset(input.lines)
    requires DistinctCart(input.lines, input.items)
    requires FoldsTo(f, input.lines, input.items) && FoldsTo(g, lines, input.items)
    ensures LineQuoter(input, f.addons)(l) == LineQuoter(input.(lines := lines), g.addons)(l)
  {
    SelectAndSort(input.lines, lines, AddonTest(input.items, l.sku), LineSku);
    OnlyItemsAndStates(input, lines, l, Sort(GetOr(f.addons, l.sku, []), LineSku));
  }

  lemma {:induction false} OnlyItemsAndStates(input: Input, lines: seq<Line>, l: Line, own: seq<Line>)
    ensures QuoteLineFor(input, l, own) == QuoteLineFor(input.(lines := lines), l, own)
  {
  }

  lemma {:induction false} SameLines(input: Input, lines: seq<Line>, f: Folded, g: Folded)
    requires multiset(lines) == multiset(input.lines)
    requires DistinctCart(input.lines, input.items)
    requires FoldsTo(f, input.lines, input.items) && FoldsTo(g, lines, input.items)
    ensures QuoteLines(input.(lines := lines), g) == QuoteLines(input, f)
  {
    var test, input' := ParentTest(input.items), input.(lines := lines);
    var ps, qs := Filter(input.lines, test), Filter(lines, test);
    SelectAndSort(input.lines, lines, test, LineSku);
    QuotedInOrder(input, f.addons, ps);
    QuotedInOrder(input', g.addons, qs);
    forall l | l in Sort(ps, LineSku)
      ensures LineQuoter(input, f.addons)(l) == LineQuoter(input', g.addons)(l)
    {
      SameQuoter(input, lines, f, g, l);
    }
    MapCongruent(Sort(ps, LineSku), LineQuoter(input, f.addons), LineQuoter(input', g.addons));
  }

  lemma {:induction false} QuotedInOrder(input: Input, addons: AddonLines, ps: seq<Line>)
    ensures Sort(Map(ps, LineQuoter(input, addons)), QuoteLineSku) == Map(Sort(ps, LineSku), LineQuoter(input, addons))
  {
    MapSort(ps, LineQuoter(input, addons), LineSku, QuoteLineSku);
  }

  lemma {:induction false} MapCongruent<T, U>(xs: seq<T>, f: T -> U, g: T -> U)
    requires forall x :: x in xs ==> f(x) == g(x)
    ensures Map(xs, f) == Map(xs, g)
  {
  }

  lemma {:induction false} DistinctCartPermutes(lines: seq<Line>, lines': seq<Line>, items: map<string, Item>)
    requires multiset(lines) == multiset(lines') && DistinctCart(lines, items) && Foldable(lines, items)
    ensures DistinctCart(lines', items)
  {
    forall i, j | 0 <= i < j < |lines'| && lines'[i].sku == lines'[j].sku
      ensures !(IsParent(items, lines'[i]) && IsParent(items, lines'[j]))
      ensures !(IsAddon(items, lines'[i]) && IsAddon(items, lines'[j]) && lines'[i].parent == lines'[j].parent)
    {
      var x, y := lines'[i], lines'[j];
      assert x in multiset(lines) && y in multiset(lines);
      var a :| 0 <= a < |lines| && lines[a] == x;
      var b :| 0 <= b < |lines| && lines[b] == y;
      if a == b {
        TwiceInMultiset(lines', i, j);
        var c := SecondPlace(lines, a);
        assert lines[if a < c then a else c] == lines[if a < c then c else a] == x;
      } else {
        assert lines[if a < b then a else b] in [x, y] && lines[if a < b then b else a] in [x, y];
      }
    }
  }

  lemma {:induction false} SecondPlace<T>(xs: seq<T>, a: nat) returns (c: nat)
    requires a < |xs| && multiset(xs)[xs[a]] >= 2
    ensures c < |xs| && c != a && xs[c] == xs[a]
  {
    assert xs == xs[..a] + [xs[a]] + xs[a + 1..];
    assert xs[a] in multiset(xs[..a]) + multiset(xs[a + 1..]);
    if xs[a] in xs[..a] {
      c :| 0 <= c < a && xs[c] == xs[a];
    } else {
      var d :| 0 <= d < |xs[a + 1..]| && xs[a + 1..][d] == xs[a];
      c := a + 1 + d;
    }
  }

  lemma {:induction false} SameFate(input: Input, lines: seq<Line>)
    requires multiset(lines) == multiset(input.lines)
    requires DistinctCart(input.lines, input.items) && Foldable(input.lines, input.items)
    ensures DistinctCart(lines, input.items) && Foldable(lines, input.items)
    ensures BuildQuote(input).Ok? <==> BuildQuote(input.(lines := lines)).Ok?
  {
    PermutedMembers(input.lines, lines);
    DistinctCartPermutes(input.lines, lines, input.items);
    QuotableExactly(input);
    QuotableExactly(input.(lines := lines));
  }

  /** The Quote is a canonical form of the cart: any permutation of the cart lines is
      refused or quoted alike, and quoted identically. */
  lemma {:induction false} QuoteIsCanonical(input: Input, lines: seq<Line>)
    requires multiset(lines) == multiset(input.lines)
    requires DistinctCart(input.lines, input.items)
    ensures BuildQuote(input).Ok? <==> BuildQuote(input.(lines := lines)).Ok?
    ensures BuildQuote(input).Ok? ==> BuildQuote(input.(lines := lines)) == BuildQuote(input)
  {
    var items := input.items;
    FoldIsFilter(input.lines, items);
    if Foldable(input.lines, items) {
      SameFate(input, lines);
      FoldIsFilter(lines, items);
      var f, g := Fold(input.lines, items).value, Fold(lines, items).value;
      SameLines(input, lines, f, g);
      SameAmounts(input, input.(lines := lines), QuoteLines(input, f));
    } else {
      PermutedMembers(input.lines, lines);
      var l :| l in input.lines && !(l.sku in items && (IsAddon(items, l) ==> l.parent != ""));
      UnfoldableLine(lines, items, l);
    }
  }

  lemma {:induction false} UnfoldableLine(lines: seq<Line>, items: map<string, Item>, l: Line)
    requires l in lines && !(l.sku in items && (IsAddon(items, l) ==> l.parent != ""))
    ensures Fold(lines, items).Err?
  {
    var front := lines[..|lines| - 1];
    if l in front {
      UnfoldableLine(front, items, l);
    }
  }

  /** Nothing after the Quote lines looks at the cart. */
  lemma {:induction false} SameAmounts(input: Input, input': Input, lines: seq<QuoteLine>)
    requires input' == input.(lines := input'.lines)
    ensures QuoteOf(input, lines) == QuoteOf(input', lines)
  {
    assert Inclusive(input, lines) == Inclusive(input', lines);
  }

  // ----- quote_hash -----

  function DiscountKey(d: Discount): Key { Key(0, d.code, d.title, 0) }

  function OptionKey(z: Zone): Key { TextKey(z.id) }

  function TaxLineKey(t: TaxLine): Key { Key(0, t.kind.Name(), t.title, 0) }

  /** The breakdown lists sorted, each by its own natural key. */
  function Normalized(q: Quote): Quote {
    q.(lines := Sort(q.lines, QuoteLineSku),
       discountLines := Sort(q.discountLines, DiscountKey),
       fulfillmentOptions := Sort(q.fulfillmentOptions, OptionKey),
       taxLines := Sort(q.taxLines, TaxLineKey))
  }

  /** The same Quote with its breakdown lists in some other order. */
  ghost predicate Reordered(q: Quote, r: Quote) {
    && r == q.(lines := r.lines, discountLines := r.discountLines,
               fulfillmentOptions := r.fulfillmentOptions, taxLines := r.taxLines)
    && multiset(r.lines) == multiset(q.lines)
    && multiset(r.discountLines) == multiset(q.discountLines)
    && multiset(r.fulfillmentOptions) == multiset(q.fulfillmentOptions)
    && multiset(r.taxLines) == multiset(q.taxLines)
  }

  ghost predicate SortKeysIdentify(q: Quote) {
    && KeysIdentify(q.lines, QuoteLineSku)
    && KeysIdentify(q.discountLines, DiscountKey)
    && KeysIdentify(q.fulfillmentOptions, OptionKey)
    && KeysIdentify(q.taxLines, TaxLineKey)
  }

  function QuoteHash<D>(sha: Quote -> D, q: Quote): D { sha(Normalized(q)) }

  /** The normal form says everything about a Quote except the order of its lists. */
  lemma {:induction false} NormalFormIsComplete(q: Quote, r: Quote)
    requires SortKeysIdentify(q)
    ensures Normalized(q) == Normalized(r) <==> Reordered(q, r)
  {
    SortCanonical(q.lines, r.lines, QuoteLineSku);
    SortCanonical(q.discountLines, r.discountLines, DiscountKey);
    SortCanonical(q.fulfillmentOptions, r.fulfillmentOptions, OptionKey);
    SortCanonical(q.taxLines, r.taxLines, TaxLineKey);
    if Normalized(q) == Normalized(r) {
      var n, m := Normalized(q), Normalized(r);
      assert q.subtotalMinor == n.subtotalMinor == m.subtotalMinor == r.subtotalMinor;
    }
  }

  ghost predicate QuoteCollision<D>(sha: Quote -> D, q: Quote, r: Quote) {
    Normalized(q) != Normalized(r) && sha(Normalized(q)) == sha(Normalized(r))
  }

  /** `quote_hash`: a reordered Quote hashes alike, and Quotes that hash alike are
      reorderings of each other or a collision of the hash. */
  lemma {:induction false} QuoteHashBinds<D>(sha: Quote -> D, q: Quote, r: Quote)
    requires SortKeysIdentify(q)
    ensures Reordered(q, r) ==> QuoteHash(sha, q) == QuoteHash(sha, r)
    ensures QuoteHash(sha, q) == QuoteHash(sha, r) ==>
              Reordered(q, r) || QuoteCollision(sha, q, r)
  {
    NormalFormIsComplete(q, r);
  }

  /** And only then: the order of the tax lines never shows in what is hashed if and only if
      their keys tell them apart. The rate label drops the second decimal, so two
      rates can share one. */
  lemma {:induction false} TaxOrderShows(q: Quote)
    ensures (forall ts: seq<TaxLine> :: multiset(ts) == multiset(q.taxLines) ==>
               Normalized(q.(taxLines := ts)) == Normalized(q))
       <==> KeysIdentify(q.taxLines, TaxLineKey)
  {
    OrderIndependence(q.taxLines, TaxLineKey);
    if KeysIdentify(q.taxLines, TaxLineKey) {
      forall ts: seq<TaxLine> | multiset(ts) == multiset(q.taxLines)
        ensures Normalized(q.(taxLines := ts)) == Normalized(q)
      {
        SortCanonical(q.taxLines, ts, TaxLineKey);
      }
    } else {
      var ts: seq<TaxLine> :| multiset(ts) == multiset(q.taxLines)
        && Sort(ts, TaxLineKey) != Sort(q.taxLines, TaxLineKey);
      assert Normalized(q.(taxLines := ts)).taxLines == Sort(ts, TaxLineKey);
    }
  }

  /** The same for all four lists: no reordering of a Quote shows in what is hashed if and only
      if each list's keys tell its entries apart. */
  lemma {:induction false} OrderShows(q: Quote)
    ensures (forall r :: Reordered(q, r) ==> Normalized(r) == Normalized(q)) <==> SortKeysIdentify(q)
  {
    if SortKeysIdentify(q) {
      forall r | Reordered(q, r) ensures Normalized(r) == Normalized(q) { NormalFormIsComplete(q, r); }
    } else {
      var r := ShowingOrder(q);
    }
  }

  lemma {:induction false} ShowingOrder(q: Quote) returns (r: Quote)
    requires !SortKeysIdentify(q)
    ensures Reordered(q, r) && Normalized(r) != Normalized(q)
  {
    OrderIndependence(q.lines, QuoteLineSku);
    OrderIndependence(q.discountLines, DiscountKey);
    OrderIndependence(q.fulfillmentOptions, OptionKey);
    OrderIndependence(q.taxLines, TaxLineKey);
    if !KeysIdentify(q.lines, QuoteLineSku) {
      var xs: seq<QuoteLine> :| multiset(xs) == multiset(q.lines) && Sort(xs, QuoteLineSku) != Sort(q.lines, QuoteLineSku);
      r := q.(lines := xs);
      assert Normalized(r).lines != Normalized(q).lines;
    } else if !KeysIdentify(q.discountLines, DiscountKey) {
      var xs: seq<Discount> :| multiset(xs) == multiset(q.discountLines) && Sort(xs, DiscountKey) != Sort(q.discountLines, DiscountKey);
      r := q.(discountLines := xs);
      assert Normalized(r).discountLines != Normalized(q).discountLines;
    } else if !KeysIdentify(q.fulfillmentOptions, OptionKey) {
      var xs: seq<Zone> :| multiset(xs) == multiset(q.fulfillmentOptions) && Sort(xs, OptionKey) != Sort(q.fulfillmentOptions, OptionKey);
      r := q.(fulfillmentOptions := xs);
      assert Normalized(r).fulfillmentOptions != Normalized(q).fulfillmentOptions;
    } else {
      var xs: seq<TaxLine> :| multiset(xs) == multiset(q.taxLines) && Sort(xs, TaxLineKey) != Sort(q.taxLines, TaxLineKey);
      r := q.(taxLines := xs);
      assert Normalized(r).taxLines != Normalized(q).taxLines;
    }
  }

  /** Two tax lines as the storefront writes them, at 1.20% and 1.25%. */
  function TiedLines(x: int, y: int): seq<TaxLine> {
    [TaxLineOf(true)(Entry(TaxGroup(IGST, 120), x)), TaxLineOf(true)(Entry(TaxGroup(IGST, 125), y))]
  }

  lemma {:induction false} TiedKeys(x: int, y: int)
    ensures RateLabel(120) == RateLabel(125)
    ensures var ts := TiedLines(x, y);
      TaxLineKey(ts[0]) == TaxLineKey(ts[1]) && ts[0] != ts[1]
  {
    assert T.Decimal(1) == "1" && T.Decimal(2) == "2";
  }

  lemma {:induction false} SwapShows(quote: Quote, a: TaxLine, b: TaxLine)
    requires TaxLineKey(a) == TaxLineKey(b) && a != b
    ensures Reordered(quote.(taxLines := [a, b]), quote.(taxLines := [b, a]))
    ensures Normalized(quote.(taxLines := [a, b])) != Normalized(quote.(taxLines := [b, a]))
  {
    TiesShow([a, b], TaxLineKey, 0, 1);
    assert [a, b][0 := b][1 := a] == [b, a];
    assert Normalized(quote.(taxLines := [a, b])).taxLines != Normalized(quote.(taxLines := [b, a])).taxLines;
  }

  /** The label drops the second decimal, so these two tie, and any Quote that carries them
      hashes otherwise with the two in the other order, or there is a collision. */
  lemma {:induction false} LabelsCanTie<D>(sha: Quote -> D, quote: Quote, x: int, y: int)
    ensures RateLabel(120) == RateLabel(125)
    ensures var q := quote.(taxLines := TiedLines(x, y));
      var r := quote.(taxLines := [TiedLines(x, y)[1], TiedLines(x, y)[0]]);
      && Reordered(q, r) && Normalized(q) != Normalized(r)
      && (QuoteHash(sha, q) != QuoteHash(sha, r) || QuoteCollision(sha, q, r))
  {
    TiedKeys(x, y);
    var ts := TiedLines(x, y);
    SwapShows(quote, ts[0], ts[1]);
    assert [ts[0], ts[1]] == ts;
  }

  // ----- cart_hash -----

  /** What the hash sees of a cart line: the parent of an add-on is not in it. */
  datatype CartLine = CartLine(sku: string, qty: nat, priceMinor: nat)

  /** What the Consumer authorises. */
  datatype Cart = Cart(
    lines: seq<CartLine>, quote: Quote, destinationHash: string, contactHash: string,
    fulfillmentOptionId: string, merchantDomain: string, expiryUtc: string)

  datatype CartPreimage<D> = CartPreimage(
    lines: seq<CartLine>, quoteHash: D, destinationHash: string, contactHash: string,
    fulfillmentOptionId: string, totalMinor: int, currency: string, merchantDomain: string, expiryUtc: string)

  function CartLineSku(l: CartLine): Key { TextKey(l.sku) }

  function Preimage<D>(sha: Quote -> D, c: Cart): CartPreimage<D> {
    CartPreimage(Sort(c.lines, CartLineSku), QuoteHash(sha, c.quote), c.destinationHash, c.contactHash,
      c.fulfillmentOptionId, c.quote.totalMinor, c.quote.currency, c.merchantDomain, c.expiryUtc)
  }

  function CartHash<D, E>(sha: Quote -> D, sha': CartPreimage<D> -> E, c: Cart): E { sha'(Preimage(sha, c)) }

  /** The same agreement, its lists in some other order. */
  ghost predicate SameAgreement(c: Cart, d: Cart) {
    && d == c.(lines := d.lines, quote := d.quote)
    && multiset(c.lines) == multiset(d.lines)
    && Reordered(c.quote, d.quote)
  }

  ghost predicate CartCollision<D, E>(sha: Quote -> D, sha': CartPreimage<D> -> E, c: Cart, d: Cart) {
    Preimage(sha, c) != Preimage(sha, d) && sha'(Preimage(sha, c)) == sha'(Preimage(sha, d))
  }

  /** The binding: an Authority taken over one cart fits another exactly when they are the
      same agreement, unless the two carts exhibit a collision of one of the hashes. */
  lemma {:induction false} CartHashBinds<D, E>(sha: Quote -> D, sha': CartPreimage<D> -> E, c: Cart, d: Cart)
    requires SortKeysIdentify(c.quote) && KeysIdentify(c.lines, CartLineSku)
    ensures SameAgreement(c, d) ==> CartHash(sha, sha', c) == CartHash(sha, sha', d)
    ensures CartHash(sha, sha', c) == CartHash(sha, sha', d) ==>
              || SameAgreement(c, d)
              || QuoteCollision(sha, c.quote, d.quote)
              || CartCollision(sha, sha', c, d)
  {
    NormalFormIsComplete(c.quote, d.quote);
    SortCanonical(c.lines, d.lines, CartLineSku);
    if Preimage(sha, c) == Preimage(sha, d) {
      var x, y := Preimage(sha, c), Preimage(sha, d);
      assert c.destinationHash == x.destinationHash == y.destinationHash == d.destinationHash;
    }
  }
}
