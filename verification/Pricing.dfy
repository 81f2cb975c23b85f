/** The storefront's `buildQuote`: the whole Quote, in the order of operations of section
    16.11 of the project's plan. */
module Pricing {
  import opened Wrappers
  import opened Ordering
  import opened Sums
  import opened Tax
  import A = Apportion
  import T = Text

  /** One cart line; `parent` is empty when absent. */
  datatype Line = Line(sku: string, qty: nat, parent: string)

  datatype Item = Item(priceMinor: nat, hsnSac: string, gstRateBp: nat, tags: seq<string>)

  datatype Zone = Zone(id: string, title: string, costMinor: nat, etaDays: nat)

  datatype Discount = Discount(title: string, code: string, amountMinor: int)

  datatype Input = Input(
    lines: seq<Line>, items: map<string, Item>, destinationState: string, homeState: string,
    zone: Zone, discount: Option<Discount>, taxInclusive: bool)

  datatype Addon = Addon(sku: string, amountMinor: int)

  datatype QuoteLine = QuoteLine(
    sku: string, qty: nat, unitPriceMinor: int, lineTotalMinor: int, hsnSac: string,
    gstRateBp: nat, placeOfSupply: string, addons: seq<Addon>)

  datatype TaxKind = CGST | SGST | IGST {
    function Name(): string {
      match this
      case CGST => "CGST"
      case SGST => "SGST"
      case IGST => "IGST"
    }
  }

  /** The key of the storefront's tax `Map`. */
  datatype TaxGroup = TaxGroup(kind: TaxKind, rateBp: nat)

  datatype TaxLine = TaxLine(kind: TaxKind, title: string, rateBp: nat, amountMinor: int, informational: bool)

  datatype FulfillmentChosen = FulfillmentChosen(id: string, costMinor: int)

  datatype Quote = Quote(
    currency: string, subtotalMinor: int, lines: seq<QuoteLine>, discountLines: seq<Discount>,
    fulfillmentOptions: seq<Zone>, fulfillmentChosen: FulfillmentChosen, taxLines: seq<TaxLine>,
    roundOffMinor: int, totalMinor: int, taxInclusive: bool)

  /** The three ways `buildQuote` refuses a cart; the last two share a reason code. */
  datatype PricingError =
    | NotFound(sku: string)
    | AddonAlone(sku: string)
    | AddonWithoutParent(parent: string)

  type Lines = seq<Entry<string, Line>>
  type AddonLines = seq<Entry<string, seq<Line>>>
  type Taxes = seq<Entry<TaxGroup, int>>

  // ----- step 1: fold add-ons into their parents -----

  predicate IsAddon(items: map<string, Item>, line: Line) {
    line.sku in items && "addon" in items[line.sku].tags
  }

  predicate IsParent(items: map<string, Item>, line: Line) {
    line.sku in items && "addon" !in items[line.sku].tags
  }

  datatype Folded = Folded(parents: Lines, addons: AddonLines)

  function FoldLine(f: Folded, line: Line, items: map<string, Item>): Result<Folded, PricingError> {
    if line.sku !in items then Err(NotFound(line.sku))
    else if IsAddon(items, line) then
      if line.parent == "" then Err(AddonAlone(line.sku))
      else Ok(f.(addons := Put(f.addons, line.parent, GetOr(f.addons, line.parent, []) + [line])))
    else Ok(f.(parents := Put(f.parents, line.sku, line)))
  }

  function Fold(lines: seq<Line>, items: map<string, Item>): Result<Folded, PricingError> {
    if lines == [] then Ok(Folded([], []))
    else
      match Fold(lines[..|lines| - 1], items)
      case Err(e) => Err(e)
      case Ok(f) => FoldLine(f, lines[|lines| - 1], items)
  }

  /** The first add-on group whose parent line is missing. */
  function Orphan(addons: AddonLines, parents: Lines): Option<string> {
    if addons == [] then None
    else
      match Orphan(addons[..|addons| - 1], parents)
      case Some(sku) => Some(sku)
      case None =>
        var sku := addons[|addons| - 1].key;
        if Has(parents, sku) then None else Some(sku)
  }

  // ----- quote lines -----

  function LineSku(line: Line): Key { TextKey(line.sku) }

  function QuoteLineSku(line: QuoteLine): Key { TextKey(line.sku) }

  function ItemOf(items: map<string, Item>, sku: string): Item {
    if sku in items then items[sku] else Item(0, "", 0, [])
  }

  function Priced(items: map<string, Item>): Line -> Addon {
    (a: Line) => Addon(a.sku, ItemOf(items, a.sku).priceMinor * a.qty)
  }

  function AddonAmount(): Addon -> int { (a: Addon) => a.amountMinor }

  /** A parent line with its own add-ons folded in. */
  function QuoteLineFor(input: Input, line: Line, own: seq<Line>): QuoteLine {
    var item := ItemOf(input.items, line.sku);
    var folded := Map(own, Priced(input.items));
    QuoteLine(line.sku, line.qty, item.priceMinor,
      item.priceMinor * line.qty + SumBy(folded, AddonAmount()),
      item.hsnSac, item.gstRateBp,
      if "service" in item.tags then input.homeState else input.destinationState,
      folded)
  }

  function LineQuoter(input: Input, addons: AddonLines): Line -> QuoteLine {
    (line: Line) => QuoteLineFor(input, line, Sort(GetOr(addons, line.sku, []), LineSku))
  }

  function ParentLine(): Entry<string, Line> -> Line { (e: Entry<string, Line>) => e.value }

  function Unsorted(input: Input, folded: Folded): (lines: seq<QuoteLine>)
    ensures |lines| == |folded.parents|
  {
    Map(Map(folded.parents, ParentLine()), LineQuoter(input, folded.addons))
  }

  function QuoteLines(input: Input, folded: Folded): seq<QuoteLine> {
    Sort(Unsorted(input, folded), QuoteLineSku)
  }

  // ----- steps 2 to 6: apportion, extract, group -----

  function LineTotal(): QuoteLine -> int { (l: QuoteLine) => l.lineTotalMinor }

  function Subtotal(lines: seq<QuoteLine>): int { SumBy(lines, LineTotal()) }

  function Weights(lines: seq<QuoteLine>): seq<A.Weighted> {
    Map(lines, (l: QuoteLine) => A.Weighted(l.sku, l.lineTotalMinor))
  }

  function Abs(x: int): int { if x < 0 then -x else x }

  function DiscountShares(input: Input, lines: seq<QuoteLine>): (s: seq<int>)
    ensures |s| == |lines|
  {
    if input.discount.Some? then A.Shares(Abs(input.discount.value.amountMinor), Weights(lines))
    else seq(|lines|, _ => 0)
  }

  function ShippingShares(input: Input, lines: seq<QuoteLine>): (s: seq<int>)
    ensures |s| == |lines|
  {
    A.Shares(input.zone.costMinor, Weights(lines))
  }

  /** Each line's amount after its share of the discount and of the shipping. */
  function Inclusive(input: Input, lines: seq<QuoteLine>): (s: seq<int>)
    ensures |s| == |lines|
  {
    seq(|lines|, i requires 0 <= i < |lines| =>
      lines[i].lineTotalMinor - DiscountShares(input, lines)[i] + ShippingShares(input, lines)[i])
  }

  function AddTax(taxes: Taxes, group: TaxGroup, amount: int): Taxes {
    Put(taxes, group, GetOr(taxes, group, 0) + amount)
  }

  function AddLineTax(taxes: Taxes, line: QuoteLine, inclusive: int, home: string): Taxes {
    var tax := ExtractTax(inclusive, line.gstRateBp);
    if line.placeOfSupply == home then
      var (cgst, sgst) := SplitCgstSgst(tax);
      AddTax(AddTax(taxes, TaxGroup(CGST, line.gstRateBp / 2), cgst), TaxGroup(SGST, line.gstRateBp / 2), sgst)
    else AddTax(taxes, TaxGroup(IGST, line.gstRateBp), tax)
  }

  function TaxesOf(lines: seq<QuoteLine>, inclusive: seq<int>, home: string): Taxes
    requires |lines| == |inclusive|
  {
    if lines == [] then []
    else
      var n := |lines| - 1;
      AddLineTax(TaxesOf(lines[..n], inclusive[..n], home), lines[n], inclusive[n], home)
  }

  /** Whole percent, and one digit of the fraction; the second digit is dropped. */
  function RateLabel(rateBp: nat): string {
    var whole, frac := rateBp / 100, rateBp % 100;
    if frac == 0 then T.Decimal(whole) + "%" else T.Decimal(whole) + "." + T.Decimal(frac / 10) + "%"
  }

  function GroupKey(e: Entry<TaxGroup, int>): Key { Key(0, e.key.kind.Name(), "", e.key.rateBp) }

  function TaxLineOf(informational: bool): Entry<TaxGroup, int> -> TaxLine {
    (e: Entry<TaxGroup, int>) =>
      TaxLine(e.key.kind, e.key.kind.Name() + " " + RateLabel(e.key.rateBp), e.key.rateBp, e.value, informational)
  }

  function TaxLines(taxes: Taxes, informational: bool): seq<TaxLine> {
    Map(Sort(taxes, GroupKey), TaxLineOf(informational))
  }

  function DiscountLines(input: Input): seq<Discount> {
    if input.discount.Some? then [input.discount.value] else []
  }

  function DiscountAmount(): Discount -> int { (d: Discount) => d.amountMinor }

  function Assemble(input: Input, lines: seq<QuoteLine>, taxes: Taxes): Quote {
    Quote("INR", Subtotal(lines), lines, DiscountLines(input), [input.zone],
      FulfillmentChosen(input.zone.id, input.zone.costMinor),
      TaxLines(taxes, input.taxInclusive), 0,
      Subtotal(lines) + input.zone.costMinor + SumBy(DiscountLines(input), DiscountAmount()),
      input.taxInclusive)
  }

  function QuoteOf(input: Input, lines: seq<QuoteLine>): Quote {
    Assemble(input, lines, TaxesOf(lines, Inclusive(input, lines), input.homeState))
  }

  function BuildQuote(input: Input): Result<Quote, PricingError> {
    match Fold(input.lines, input.items)
    case Err(e) => Err(e)
    case Ok(folded) =>
      match Orphan(folded.addons, folded.parents)
      case Some(sku) => Err(AddonWithoutParent(sku))
      case None => Ok(QuoteOf(input, QuoteLines(input, folded)))
  }

  // ----- what folding keeps -----

  ghost predicate WellFolded(f: Folded, items: map<string, Item>) {
    && Functional(f.parents) && Functional(f.addons)
    && (forall e :: e in f.parents ==> e.key == e.value.sku && IsParent(items, e.value))
    && (forall e, a :: e in f.addons && a in e.value ==> a.parent == e.key && IsAddon(items, a))
  }

  lemma {:induction false} FoldLineKeeps(f: Folded, line: Line, items: map<string, Item>)
    requires WellFolded(f, items)
    ensures FoldLine(f, line, items).Ok? ==> WellFolded(FoldLine(f, line, items).value, items)
  {
    PutKeeps(f.parents, line.sku, line);
    PutKeeps(f.addons, line.parent, GetOr(f.addons, line.parent, []) + [line]);
  }

  lemma {:induction false} FoldKeeps(lines: seq<Line>, items: map<string, Item>)
    ensures Fold(lines, items).Ok? ==> WellFolded(Fold(lines, items).value, items)
  {
    if lines != [] {
      var front, line := lines[..|lines| - 1], lines[|lines| - 1];
      FoldKeeps(front, items);
      if Fold(front, items).Ok? { FoldLineKeeps(Fold(front, items).value, line, items); }
    }
  }

  ghost predicate DistinctQuoteLines(lines: seq<QuoteLine>) { DistinctKeys(lines, QuoteLineSku) }

  /** The lines of a Quote are one per parent SKU, in SKU order. */
  lemma {:induction false} QuoteLinesAreOrdered(input: Input, folded: Folded)
    requires WellFolded(folded, input.items)
    ensures Sorted(QuoteLines(input, folded), QuoteLineSku)
    ensures DistinctQuoteLines(QuoteLines(input, folded))
    ensures forall l :: l in QuoteLines(input, folded) ==>
              exists e :: e in folded.parents && l == LineQuoter(input, folded.addons)(e.value)
  {
    var unsorted := Map(Map(folded.parents, ParentLine()), LineQuoter(input, folded.addons));
    forall i, j | 0 <= i < j < |unsorted| ensures QuoteLineSku(unsorted[i]) != QuoteLineSku(unsorted[j]) {
      assert folded.parents[i] in folded.parents && folded.parents[j] in folded.parents;
    }
    SortSorts(unsorted, QuoteLineSku);
    DistinctKeysPermute(unsorted, QuoteLines(input, folded), QuoteLineSku);
    forall l | l in QuoteLines(input, folded)
      ensures exists e :: e in folded.parents && l == LineQuoter(input, folded.addons)(e.value)
    {
      assert l in multiset(unsorted);
      var i :| 0 <= i < |unsorted| && unsorted[i] == l;
      assert folded.parents[i] in folded.parents;
    }
  }

  lemma {:induction false} WeightsAreDistinct(lines: seq<QuoteLine>)
    requires DistinctQuoteLines(lines)
    ensures A.DistinctSkus(Weights(lines))
  {
    forall i, j | 0 <= i < j < |lines| ensures Weights(lines)[i].sku != Weights(lines)[j].sku {
      assert QuoteLineSku(lines[i]) != QuoteLineSku(lines[j]);
    }
  }

  // ----- the storefront's loops -----

  /** The first loop over the cart. */
  method FoldLines(lines: seq<Line>, items: map<string, Item>) returns (r: Result<Folded, PricingError>)
    ensures r == Fold(lines, items)
  {
    var parents: Lines, addons: AddonLines := [], [];
    for i := 0 to |lines|
      invariant Fold(lines[..i], items) == Ok(Folded(parents, addons))
    {
      var line := lines[i];
      assert lines[..i + 1][..i] == lines[..i];
      if line.sku !in items {
        FoldStops(lines, i + 1, items);
        return Err(NotFound(line.sku));
      }
      if "addon" in items[line.sku].tags {
        if line.parent == "" {
          FoldStops(lines, i + 1, items);
          return Err(AddonAlone(line.sku));
        }
        addons := Put(addons, line.parent, GetOr(addons, line.parent, []) + [line]);
      } else {
        parents := Put(parents, line.sku, line);
      }
    }
    assert lines[..|lines|] == lines;
    return Ok(Folded(parents, addons));
  }

  /** The first error stands, whatever follows it. */
  lemma {:induction false} FoldStops(lines: seq<Line>, k: nat, items: map<string, Item>)
    requires k <= |lines| && Fold(lines[..k], items).Err?
    ensures Fold(lines, items) == Fold(lines[..k], items)
  {
    if k < |lines| {
      var front := lines[..|lines| - 1];
      assert front[..k] == lines[..k];
      FoldStops(front, k, items);
    } else {
      assert lines[..k] == lines;
    }
  }

  method FindOrphan(addons: AddonLines, parents: Lines) returns (r: Option<string>)
    ensures r == Orphan(addons, parents)
  {
    for i := 0 to |addons|
      invariant Orphan(addons[..i], parents) == None
    {
      assert addons[..i + 1][..i] == addons[..i];
      if !Has(parents, addons[i].key) {
        OrphanStops(addons, i + 1, parents);
        return Some(addons[i].key);
      }
    }
    assert addons[..|addons|] == addons;
    return None;
  }

  lemma {:induction false} OrphanStops(addons: AddonLines, k: nat, parents: Lines)
    requires k <= |addons| && Orphan(addons[..k], parents).Some?
    ensures Orphan(addons, parents) == Orphan(addons[..k], parents)
  {
    if k < |addons| {
      var front := addons[..|addons| - 1];
      assert front[..k] == addons[..k];
      OrphanStops(front, k, parents);
    } else {
      assert addons[..k] == addons;
    }
  }

  method GroupTaxes(input: Input, lines: seq<QuoteLine>, discounts: seq<Entry<string, int>>, shipping: seq<Entry<string, int>>)
    returns (taxes: Taxes)
    requires DistinctQuoteLines(lines)
    requires shipping == A.Entries(input.zone.costMinor, Weights(lines))
    requires discounts == if input.discount.Some?
      then A.Entries(Abs(input.discount.value.amountMinor), Weights(lines)) else []
    ensures taxes == TaxesOf(lines, Inclusive(input, lines), input.homeState)
  {
    WeightsAreDistinct(lines);
    taxes := [];
    ghost var amounts := Inclusive(input, lines);
    for i := 0 to |lines|
      invariant taxes == TaxesOf(lines[..i], amounts[..i], input.homeState)
    {
      var line := lines[i];
      var inclusive := line.lineTotalMinor - GetOr(discounts, line.sku, 0) + GetOr(shipping, line.sku, 0);
      assert inclusive == amounts[i] by { InclusiveRead(input, lines, i); }
      TaxesNext(lines, amounts, i, input.homeState);
      taxes := AddOneLine(taxes, line, inclusive, input.homeState);
    }
    assert lines[..|lines|] == lines && amounts[..|lines|] == amounts;
  }

  /** One line's tax into its groups. */
  method AddOneLine(before: Taxes, line: QuoteLine, inclusive: int, home: string) returns (taxes: Taxes)
    ensures taxes == AddLineTax(before, line, inclusive, home)
  {
    taxes := before;
    var tax := ExtractTax(inclusive, line.gstRateBp);
    if line.placeOfSupply == home {
      var (cgst, sgst) := SplitCgstSgst(tax);
      taxes := AddTax(taxes, TaxGroup(CGST, line.gstRateBp / 2), cgst);
      taxes := AddTax(taxes, TaxGroup(SGST, line.gstRateBp / 2), sgst);
    } else {
      taxes := AddTax(taxes, TaxGroup(IGST, line.gstRateBp), tax);
    }
  }

  /** Reading a line's share back out of the `Map` by its SKU. */
  lemma {:induction false} EntryIsShare(amount: int, lines: seq<QuoteLine>, i: nat)
    requires i < |lines| && A.DistinctSkus(Weights(lines))
    ensures GetOr(A.Entries(amount, Weights(lines)), lines[i].sku, 0) == A.Shares(amount, Weights(lines))[i]
  {
    var entries := A.Entries(amount, Weights(lines));
    assert entries[i].key == lines[i].sku;
    IndexOfEntry(entries, i);
  }

  lemma {:induction false} InclusiveRead(input: Input, lines: seq<QuoteLine>, i: nat)
    requires i < |lines| && A.DistinctSkus(Weights(lines))
    ensures var shipping := A.Entries(input.zone.costMinor, Weights(lines));
      var discounts := if input.discount.Some? then A.Entries(Abs(input.discount.value.amountMinor), Weights(lines)) else [];
      Inclusive(input, lines)[i] == lines[i].lineTotalMinor - GetOr(discounts, lines[i].sku, 0) + GetOr(shipping, lines[i].sku, 0)
  {
    EntryIsShare(input.zone.costMinor, lines, i);
    if input.discount.Some? { EntryIsShare(Abs(input.discount.value.amountMinor), lines, i); }
  }

  lemma {:induction false} TaxesNext(lines: seq<QuoteLine>, inclusive: seq<int>, i: nat, home: string)
    requires i < |lines| == |inclusive|
    ensures TaxesOf(lines[..i + 1], inclusive[..i + 1], home)
      == AddLineTax(TaxesOf(lines[..i], inclusive[..i], home), lines[i], inclusive[i], home)
  {
    assert lines[..i + 1][..i] == lines[..i] && inclusive[..i + 1][..i] == inclusive[..i];
  }

  lemma {:induction false} UnsortedAt(input: Input, folded: Folded, i: nat)
    requires i < |folded.parents|
    ensures var line := folded.parents[i].value;
      Unsorted(input, folded)[i] == QuoteLineFor(input, line, Sort(GetOr(folded.addons, line.sku, []), LineSku))
  {
    assert Map(folded.parents, ParentLine())[i] == folded.parents[i].value;
  }

  /** One parent with its add-ons, sorted by SKU. */
  method QuoteParent(input: Input, folded: Folded, i: nat) returns (quoteLine: QuoteLine)
    requires i < |folded.parents|
    requires folded.parents[i].key == folded.parents[i].value.sku && folded.parents[i].key in input.items
    ensures quoteLine == Unsorted(input, folded)[i]
  {
    var sku, line := folded.parents[i].key, folded.parents[i].value;
    var item := input.items[sku];
    var own := Map(Sort(GetOr(folded.addons, sku, []), LineSku), Priced(input.items));
    quoteLine := QuoteLine(sku, line.qty, item.priceMinor,
      item.priceMinor * line.qty + SumBy(own, AddonAmount()), item.hsnSac, item.gstRateBp,
      if "service" in item.tags then input.homeState else input.destinationState, own);
    UnsortedAt(input, folded, i);
  }

  /** The loop over the parents. */
  method QuoteParents(input: Input, folded: Folded) returns (quoteLines: seq<QuoteLine>)
    requires forall i :: 0 <= i < |folded.parents| ==>
      folded.parents[i].key == folded.parents[i].value.sku && folded.parents[i].key in input.items
    ensures quoteLines == Unsorted(input, folded)
  {
    quoteLines := [];
    for i := 0 to |folded.parents|
      invariant |quoteLines| == i && forall j :: 0 <= j < i ==> quoteLines[j] == Unsorted(input, folded)[j]
    {
      var quoteLine := QuoteParent(input, folded, i);
      quoteLines := quoteLines + [quoteLine];
    }
  }

  /** `buildQuote`. The apportionments inside it never throw. */
  method Build(input: Input) returns (r: Result<Quote, PricingError>)
    ensures r == BuildQuote(input)
  {
    var folded := FoldLines(input.lines, input.items);
    if folded.Err? { return Err(folded.error); }
    var orphan := FindOrphan(folded.value.addons, folded.value.parents);
    if orphan.Some? { return Err(AddonWithoutParent(orphan.value)); }
    FoldKeeps(input.lines, input.items);
    assert forall i :: 0 <= i < |folded.value.parents| ==> folded.value.parents[i] in folded.value.parents;
    var unsorted := QuoteParents(input, folded.value);
    var quoteLines := Sort(unsorted, QuoteLineSku);
    QuoteLinesAreOrdered(input, folded.value);
    WeightsAreDistinct(quoteLines);
    LineTotalsAreNonNegative(input, folded.value);

    var discountShares: seq<Entry<string, int>> := [];
    if input.discount.Some? {
      var d := A.Run(Abs(input.discount.value.amountMinor), Weights(quoteLines));
      discountShares := d.value;
    }
    var s := A.Run(input.zone.costMinor, Weights(quoteLines));
    var taxes := GroupTaxes(input, quoteLines, discountShares, s.value);
    return Ok(Assemble(input, quoteLines, taxes));
  }

  lemma {:induction false} LineTotalIsNonNegative(input: Input, line: Line, own: seq<Line>)
    ensures QuoteLineFor(input, line, own).lineTotalMinor >= 0
  {
    var folded := Map(own, Priced(input.items));
    forall a | a in folded ensures AddonAmount()(a) >= 0 {
      var i :| 0 <= i < |folded| && folded[i] == a;
      NonNegativeProduct(ItemOf(input.items, own[i].sku).priceMinor, own[i].qty);
    }
    SumNonNegative(folded, AddonAmount());
    NonNegativeProduct(ItemOf(input.items, line.sku).priceMinor, line.qty);
  }

  lemma {:induction false} NonNegativeProduct(price: nat, qty: nat)
    ensures price * qty >= 0
  {
  }

  lemma {:induction false} LineTotalsAreNonNegative(input: Input, folded: Folded)
    requires WellFolded(folded, input.items)
    ensures forall l :: l in QuoteLines(input, folded) ==> l.lineTotalMinor >= 0
    ensures A.NonNegativeWeights(Weights(QuoteLines(input, folded)))
  {
    var lines := QuoteLines(input, folded);
    QuoteLinesAreOrdered(input, folded);
    forall l | l in lines ensures l.lineTotalMinor >= 0 {
      var e :| e in folded.parents && l == LineQuoter(input, folded.addons)(e.value);
      LineTotalIsNonNegative(input, e.value, Sort(GetOr(folded.addons, e.value.sku, []), LineSku));
    }
    forall i | 0 <= i < |lines| ensures Weights(lines)[i].weight >= 0 {
      assert lines[i] in lines;
    }
  }
}
