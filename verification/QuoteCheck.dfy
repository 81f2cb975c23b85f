/** The Gate's tenth check, `quote-consistent`: the Merchant's own sums, re-added by code
    that shares nothing with the code that made them. The two meet in `BuiltQuotePasses`. */
module QuoteCheck {
  import opened Wrappers
  import opened Ordering
  import opened Sums
  import opened Tax
  import opened Pricing
  import A = Apportion

  /** The first flaw found, in the order the Gate looks. */
  datatype Flaw =
    | LinesOffSubtotal
    | LineDoesNotFold(sku: string)
    | DiscountAddsMoney
    | TotalOff
    | RoundOffNotZero
    | TaxCountedTwice
    | TaxAboveTotal
    | TaxClaimedInside
    | PriceNotAttested(sku: string)

  function TaxAmount(): TaxLine -> int { (t: TaxLine) => t.amountMinor }

  predicate LineFolds(l: QuoteLine) {
    l.qty * l.unitPriceMinor + SumBy(l.addons, AddonAmount()) == l.lineTotalMinor
  }

  predicate PriceAttested(l: QuoteLine, attested: map<string, int>) {
    l.sku in attested ==> attested[l.sku] == l.unitPriceMinor
  }

  function FirstBadLine(lines: seq<QuoteLine>): Option<string> {
    if lines == [] then None
    else if !LineFolds(lines[0]) then Some(lines[0].sku)
    else FirstBadLine(lines[1..])
  }

  function FirstBadPrice(lines: seq<QuoteLine>, attested: map<string, int>): Option<string> {
    if lines == [] then None
    else if !PriceAttested(lines[0], attested) then Some(lines[0].sku)
    else FirstBadPrice(lines[1..], attested)
  }

  function CheckQuoteConsistent(q: Quote, attested: map<string, int>): Option<Flaw> {
    if Subtotal(q.lines) != q.subtotalMinor then Some(LinesOffSubtotal)
    else if FirstBadLine(q.lines).Some? then Some(LineDoesNotFold(FirstBadLine(q.lines).value))
    else if exists d :: d in q.discountLines && d.amountMinor >= 0 then Some(DiscountAddsMoney)
    else if q.subtotalMinor + q.fulfillmentChosen.costMinor + SumBy(q.discountLines, DiscountAmount())
            + q.roundOffMinor != q.totalMinor then Some(TotalOff)
    else if q.roundOffMinor != 0 then Some(RoundOffNotZero)
    else if q.taxInclusive && exists t :: t in q.taxLines && !t.informational then Some(TaxCountedTwice)
    else if q.taxInclusive && SumBy(q.taxLines, TaxAmount()) > q.totalMinor then Some(TaxAboveTotal)
    else if !q.taxInclusive && (exists t :: t in q.taxLines && t.informational) && SumBy(q.taxLines, TaxAmount()) != 0
      then Some(TaxClaimedInside)
    else if FirstBadPrice(q.lines, attested).Some? then Some(PriceNotAttested(FirstBadPrice(q.lines, attested).value))
    else None
  }

  /** A Quote whose sums are right, whose discounts take money off, whose tax is counted once, and
      whose prices are the attested ones. */
  ghost predicate AddsUp(q: Quote, attested: map<string, int>) {
    && q.subtotalMinor == SumBy(q.lines, LineTotal())
    && (forall l :: l in q.lines ==> l.lineTotalMinor == l.qty * l.unitPriceMinor + SumBy(l.addons, AddonAmount()))
    && (forall d :: d in q.discountLines ==> d.amountMinor < 0)
    && q.totalMinor == q.subtotalMinor + q.fulfillmentChosen.costMinor + SumBy(q.discountLines, DiscountAmount())
    && q.roundOffMinor == 0
    && (q.taxInclusive ==> (forall t :: t in q.taxLines ==> t.informational) && SumBy(q.taxLines, TaxAmount()) <= q.totalMinor)
    && (!q.taxInclusive ==> (forall t :: t in q.taxLines ==> !t.informational) || SumBy(q.taxLines, TaxAmount()) == 0)
    && (forall l :: l in q.lines && l.sku in attested ==> l.unitPriceMinor == attested[l.sku])
  }

  /** `quote-consistent` passes exactly the Quotes that add up. */
  lemma {:induction false} PassesExactly(q: Quote, attested: map<string, int>)
    ensures CheckQuoteConsistent(q, attested) == None <==> AddsUp(q, attested)
  {
    LinesAreFine(q.lines, attested);
    assert forall l :: l in q.lines ==> (LineFolds(l) <==> l.lineTotalMinor == l.qty * l.unitPriceMinor + SumBy(l.addons, AddonAmount()));
    assert forall l :: l in q.lines ==> (PriceAttested(l, attested) <==> (l.sku in attested ==> l.unitPriceMinor == attested[l.sku]));
  }

  lemma {:induction false} LinesAreFine(lines: seq<QuoteLine>, attested: map<string, int>)
    ensures FirstBadLine(lines) == None <==> forall l :: l in lines ==> LineFolds(l)
    ensures FirstBadPrice(lines, attested) == None <==> forall l :: l in lines ==> PriceAttested(l, attested)
  {
    if lines != [] {
      LinesAreFine(lines[1..], attested);
      assert lines == [lines[0]] + lines[1..];
    }
  }

  function AddonTotal(): QuoteLine -> int { (l: QuoteLine) => SumBy(l.addons, AddonAmount()) }

  /** What the Gate leaves free, exactly. Two Quotes that pass for the same attested SKUs and
      quantities differ in their totals by the difference of their add-on amounts, shipping and
      discounts, and by nothing else. */
  lemma {:induction false} TotalsDifferBy(q: Quote, r: Quote, attested: map<string, int>)
    requires CheckQuoteConsistent(q, attested) == None && CheckQuoteConsistent(r, attested) == None
    requires |q.lines| == |r.lines|
    requires forall i :: 0 <= i < |q.lines| ==>
      && q.lines[i].sku == r.lines[i].sku && q.lines[i].sku in attested && q.lines[i].qty == r.lines[i].qty
    ensures q.totalMinor - r.totalMinor
      == SumBy(q.lines, AddonTotal()) - SumBy(r.lines, AddonTotal())
       + q.fulfillmentChosen.costMinor - r.fulfillmentChosen.costMinor
       + SumBy(q.discountLines, DiscountAmount()) - SumBy(r.discountLines, DiscountAmount())
    ensures forall i :: 0 <= i < |q.lines| ==>
      q.lines[i].lineTotalMinor - r.lines[i].lineTotalMinor == AddonTotal()(q.lines[i]) - AddonTotal()(r.lines[i])
  {
    LinesAreFine(q.lines, attested);
    LinesAreFine(r.lines, attested);
    forall i | 0 <= i < |q.lines|
      ensures q.lines[i].lineTotalMinor - r.lines[i].lineTotalMinor == AddonTotal()(q.lines[i]) - AddonTotal()(r.lines[i])
    {
      assert q.lines[i] in q.lines && r.lines[i] in r.lines;
      assert PriceAttested(q.lines[i], attested) && PriceAttested(r.lines[i], attested);
      assert LineFolds(q.lines[i]) && LineFolds(r.lines[i]);
    }
    SubtotalsDifferBy(q.lines, r.lines);
  }

  lemma {:induction false} SubtotalsDifferBy(s: seq<QuoteLine>, t: seq<QuoteLine>)
    requires |s| == |t|
    requires forall i :: 0 <= i < |s| ==>
      s[i].lineTotalMinor - t[i].lineTotalMinor == AddonTotal()(s[i]) - AddonTotal()(t[i])
    ensures Subtotal(s) - Subtotal(t) == SumBy(s, AddonTotal()) - SumBy(t, AddonTotal())
  {
    if s != [] { SubtotalsDifferBy(s[1..], t[1..]); }
  }

  /** One line at its attested price with one add-on, billed at any amount at all. */
  function WithAddonAt(amount: nat): Quote {
    Quote("INR", 100 + amount, [QuoteLine("a", 1, 100, 100 + amount, "9", 0, "KA", [Addon("x", amount)])], [],
      [Zone("z", "z", 0, 1)], FulfillmentChosen("z", 0), [], 0, 100 + amount, true)
  }

  /** The add-on's own attested price is never looked at: attested at 5, it passes at any
      amount. */
  lemma {:induction false} AddonsPassAtAnyPrice(amount: nat)
    ensures CheckQuoteConsistent(WithAddonAt(amount), map["a" := 100, "x" := 5]) == None
    ensures WithAddonAt(amount).totalMinor == 100 + amount
  {
    var q := WithAddonAt(amount);
    var attested: map<string, int> := map["a" := 100, "x" := 5];
    var l := q.lines[0];
    assert l.addons[1..] == [] && SumBy(l.addons, AddonAmount()) == amount;
    assert LineFolds(l);
    assert "a"[0] != "x"[0];
    assert attested["a"] == 100 && PriceAttested(l, attested);
    LinesAreFine(q.lines, attested);
    assert q.lines[1..] == [] && Subtotal(q.lines) == LineTotal()(l) + Subtotal([]);
  }

  // ----- the tax a built Quote claims -----

  function TaxTotal(lines: seq<QuoteLine>, inclusive: seq<int>): int
    requires |lines| == |inclusive|
  {
    if lines == [] then 0
    else
      var n := |lines| - 1;
      TaxTotal(lines[..n], inclusive[..n]) + ExtractTax(inclusive[n], lines[n].gstRateBp)
  }

  lemma {:induction false} AddTaxSum(taxes: Taxes, group: TaxGroup, amount: int)
    ensures SumBy(AddTax(taxes, group, amount), ValueOf()) == SumBy(taxes, ValueOf()) + amount
  {
    PutSum(taxes, group, GetOr(taxes, group, 0) + amount);
  }

  lemma {:induction false} LineTaxSum(taxes: Taxes, line: QuoteLine, inclusive: int, home: string)
    ensures SumBy(AddLineTax(taxes, line, inclusive, home), ValueOf())
         == SumBy(taxes, ValueOf()) + ExtractTax(inclusive, line.gstRateBp)
  {
    var tax := ExtractTax(inclusive, line.gstRateBp);
    var (cgst, sgst) := SplitCgstSgst(tax);
    var c, s := TaxGroup(CGST, line.gstRateBp / 2), TaxGroup(SGST, line.gstRateBp / 2);
    AddTaxSum(taxes, c, cgst);
    AddTaxSum(AddTax(taxes, c, cgst), s, sgst);
    AddTaxSum(taxes, TaxGroup(IGST, line.gstRateBp), tax);
  }

  /** Grouping loses no paisa: the groups add up to the tax extracted line by line. */
  lemma {:induction false} GroupsAddUp(lines: seq<QuoteLine>, inclusive: seq<int>, home: string)
    requires |lines| == |inclusive|
    ensures SumBy(TaxesOf(lines, inclusive, home), ValueOf()) == TaxTotal(lines, inclusive)
  {
    if lines != [] {
      var n := |lines| - 1;
      GroupsAddUp(lines[..n], inclusive[..n], home);
      LineTaxSum(TaxesOf(lines[..n], inclusive[..n], home), lines[n], inclusive[n], home);
    }
  }

  /** What one line puts into one group. */
  function Contribution(line: QuoteLine, inclusive: int, home: string, group: TaxGroup): int {
    var tax := ExtractTax(inclusive, line.gstRateBp);
    match group.kind
    case CGST => if line.placeOfSupply == home && line.gstRateBp / 2 == group.rateBp then tax / 2 else 0
    case SGST => if line.placeOfSupply == home && line.gstRateBp / 2 == group.rateBp then tax - tax / 2 else 0
    case IGST => if line.placeOfSupply != home && line.gstRateBp == group.rateBp then tax else 0
  }

  function GroupTotal(lines: seq<QuoteLine>, inclusive: seq<int>, home: string, group: TaxGroup): int
    requires |lines| == |inclusive|
  {
    if lines == [] then 0
    else
      var n := |lines| - 1;
      GroupTotal(lines[..n], inclusive[..n], home, group) + Contribution(lines[n], inclusive[n], home, group)
  }

  lemma {:induction false} AddTaxAt(taxes: Taxes, g: TaxGroup, amount: int, group: TaxGroup)
    requires Functional(taxes)
    ensures Functional(AddTax(taxes, g, amount))
    ensures GetOr(AddTax(taxes, g, amount), group, 0) == GetOr(taxes, group, 0) + if g == group then amount else 0
  {
    PutKeeps(taxes, g, GetOr(taxes, g, 0) + amount);
    GetAfterPut(taxes, g, GetOr(taxes, g, 0) + amount, group, 0);
  }

  lemma {:induction false} LineContributes(taxes: Taxes, line: QuoteLine, inclusive: int, home: string, group: TaxGroup)
    requires Functional(taxes)
    ensures Functional(AddLineTax(taxes, line, inclusive, home))
    ensures GetOr(AddLineTax(taxes, line, inclusive, home), group, 0)
         == GetOr(taxes, group, 0) + Contribution(line, inclusive, home, group)
  {
    var tax := ExtractTax(inclusive, line.gstRateBp);
    if line.placeOfSupply == home {
      var c := TaxGroup(CGST, line.gstRateBp / 2);
      AddTaxAt(taxes, c, tax / 2, group);
      AddTaxAt(AddTax(taxes, c, tax / 2), TaxGroup(SGST, line.gstRateBp / 2), tax - tax / 2, group);
    } else {
      AddTaxAt(taxes, TaxGroup(IGST, line.gstRateBp), tax, group);
    }
  }

  /** Every group holds exactly the tax of the lines that belong to it: central and state
      halves for the home state, the whole rate elsewhere. */
  lemma {:induction false} GroupsAreByPlaceAndRate(lines: seq<QuoteLine>, inclusive: seq<int>, home: string, group: TaxGroup)
    requires |lines| == |inclusive|
    ensures Functional(TaxesOf(lines, inclusive, home))
    ensures GetOr(TaxesOf(lines, inclusive, home), group, 0) == GroupTotal(lines, inclusive, home, group)
  {
    if lines != [] {
      var n := |lines| - 1;
      GroupsAreByPlaceAndRate(lines[..n], inclusive[..n], home, group);
      LineContributes(TaxesOf(lines[..n], inclusive[..n], home), lines[n], inclusive[n], home, group);
    }
  }

  lemma {:induction false} ClaimedTax(input: Input, lines: seq<QuoteLine>)
    ensures SumBy(QuoteOf(input, lines).taxLines, TaxAmount()) == TaxTotal(lines, Inclusive(input, lines))
  {
    var taxes := TaxesOf(lines, Inclusive(input, lines), input.homeState);
    GroupsAddUp(lines, Inclusive(input, lines), input.homeState);
    SumSort(taxes, GroupKey, ValueOf());
    SumMap(Sort(taxes, GroupKey), TaxLineOf(input.taxInclusive), TaxAmount(), ValueOf());
  }

  function IntSum(xs: seq<int>): int { SumBy(xs, (x: int) => x) }

  lemma {:induction false} TaxBelowAmounts(lines: seq<QuoteLine>, inclusive: seq<int>)
    requires |lines| == |inclusive|
    requires forall i :: 0 <= i < |inclusive| ==> inclusive[i] >= 0
    ensures 0 <= TaxTotal(lines, inclusive) <= IntSum(inclusive)
  {
    if lines != [] {
      var n := |lines| - 1;
      TaxBelowAmounts(lines[..n], inclusive[..n]);
      TaxWithinInclusive(inclusive[n], lines[n].gstRateBp);
      assert inclusive == inclusive[..n] + [inclusive[n]];
      SumSnoc(inclusive[..n], inclusive[n], (x: int) => x);
    }
  }

  lemma {:induction false} SharesAddUp(lines: seq<QuoteLine>, d: seq<int>, s: seq<int>, inclusive: seq<int>)
    requires |d| == |s| == |inclusive| == |lines|
    requires forall i :: 0 <= i < |lines| ==> inclusive[i] == lines[i].lineTotalMinor - d[i] + s[i]
    ensures IntSum(inclusive) == Subtotal(lines) - IntSum(d) + IntSum(s)
  {
    if lines != [] {
      SharesAddUp(lines[1..], d[1..], s[1..], inclusive[1..]);
    }
  }

  lemma {:induction false} ZerosAddUp(n: nat)
    ensures IntSum(seq(n, _ => 0)) == 0
  {
    if n > 0 {
      assert seq(n, _ => 0)[1..] == seq(n - 1, _ => 0);
      ZerosAddUp(n - 1);
    }
  }

  lemma {:induction false} SharesOf(amount: int, lines: seq<QuoteLine>)
    requires DistinctQuoteLines(lines) && A.NonNegativeWeights(Weights(lines))
    requires amount >= 0
    ensures A.Total(Weights(lines)) == Subtotal(lines)
    ensures IntSum(A.Shares(amount, Weights(lines))) == if Subtotal(lines) > 0 then amount else 0
    ensures forall i :: 0 <= i < |lines| ==> 0 <= A.Shares(amount, Weights(lines))[i]
    ensures amount <= Subtotal(lines) ==>
              forall i :: 0 <= i < |lines| ==> A.Shares(amount, Weights(lines))[i] <= lines[i].lineTotalMinor
  {
    WeightsAreDistinct(lines);
    SumMap(lines, (l: QuoteLine) => A.Weighted(l.sku, l.lineTotalMinor), A.WeightOf(), LineTotal());
    assert A.Total(Weights(lines)) == Subtotal(lines);
    var shares := A.Shares(amount, Weights(lines));
    if Subtotal(lines) > 0 {
      A.SharesSum(amount, Weights(lines));
    } else {
      assert shares == seq(|lines|, _ => 0);
      ZerosAddUp(|lines|);
    }
    forall i | 0 <= i < |lines|
      ensures 0 <= shares[i] && (amount <= Subtotal(lines) ==> shares[i] <= lines[i].lineTotalMinor)
    {
      A.ShareWithinWeight(amount, Weights(lines), i);
    }
  }

  /** A discount the shop may give: negative, and no larger than what it is taken from. */
  predicate DiscountInRange(discount: Option<Discount>, subtotal: int) {
    discount.Some? ==> -subtotal <= discount.value.amountMinor < 0
  }

  /** Whatever the discount, the amounts add up to the total when there is a line to carry it. */
  lemma {:induction false} AmountsAddUp(input: Input, lines: seq<QuoteLine>)
    requires DistinctQuoteLines(lines) && A.NonNegativeWeights(Weights(lines)) && Subtotal(lines) > 0
    requires input.discount.Some? && input.discount.value.amountMinor < 0
    ensures IntSum(Inclusive(input, lines)) == QuoteOf(input, lines).totalMinor
  {
    var d, s, inclusive := DiscountShares(input, lines), ShippingShares(input, lines), Inclusive(input, lines);
    var taken := -input.discount.value.amountMinor;
    SharesOf(input.zone.costMinor, lines);
    SharesOf(taken, lines);
    assert IntSum(d) == taken && IntSum(s) == input.zone.costMinor;
    SharesAddUp(lines, d, s, inclusive);
    assert SumBy(DiscountLines(input), DiscountAmount()) == -taken;
  }

  /** Each line keeps a non-negative amount, and the amounts add up to the total the
      Consumer pays whenever there is a line to carry it. */
  lemma {:induction false} InclusiveAmounts(input: Input, lines: seq<QuoteLine>)
    requires DistinctQuoteLines(lines) && A.NonNegativeWeights(Weights(lines))
    requires DiscountInRange(input.discount, Subtotal(lines))
    ensures forall i :: 0 <= i < |lines| ==> Inclusive(input, lines)[i] >= 0
    ensures Subtotal(lines) > 0 ==> IntSum(Inclusive(input, lines)) == QuoteOf(input, lines).totalMinor
    ensures 0 <= IntSum(Inclusive(input, lines)) <= QuoteOf(input, lines).totalMinor
  {
    var d, s, inclusive := DiscountShares(input, lines), ShippingShares(input, lines), Inclusive(input, lines);
    SharesOf(input.zone.costMinor, lines);
    var taken := if input.discount.Some? then -input.discount.value.amountMinor else 0;
    if input.discount.Some? {
      SharesOf(taken, lines);
    } else {
      ZerosAddUp(|lines|);
      forall i | 0 <= i < |lines| ensures lines[i].lineTotalMinor >= 0 {
        assert Weights(lines)[i] in Weights(lines);
      }
    }
    SharesAddUp(lines, d, s, inclusive);
    assert SumBy(DiscountLines(input), DiscountAmount()) == -taken;
    SumNonNegative(inclusive, (x: int) => x);
    SumNonNegative(Weights(lines), A.WeightOf());
  }

  function AttestedPrices(items: map<string, Item>): map<string, int> {
    map sku | sku in items :: items[sku].priceMinor
  }

  /** The structure every built Quote has, whatever the discount. */
  lemma {:induction false} BuiltLines(input: Input)
    requires BuildQuote(input).Ok?
    ensures var q := BuildQuote(input).value;
      && q == QuoteOf(input, q.lines)
      && DistinctQuoteLines(q.lines) && A.NonNegativeWeights(Weights(q.lines))
      && FirstBadLine(q.lines) == None
      && FirstBadPrice(q.lines, AttestedPrices(input.items)) == None
      && (forall t :: t in q.taxLines ==> t.informational == input.taxInclusive)
  {
    var folded := Fold(input.lines, input.items).value;
    FoldKeeps(input.lines, input.items);
    QuoteLinesAreOrdered(input, folded);
    LineTotalsAreNonNegative(input, folded);
    var lines := QuoteLines(input, folded);
    forall l | l in lines ensures LineFolds(l) && PriceAttested(l, AttestedPrices(input.items)) {
      var e :| e in folded.parents && l == LineQuoter(input, folded.addons)(e.value);
      assert l.qty * l.unitPriceMinor == l.unitPriceMinor * l.qty;
    }
    LinesAreFine(lines, AttestedPrices(input.items));
  }

  /** With a negative discount, or none, only the tax can be refused. */
  lemma {:induction false} BuiltVerdict(input: Input)
    requires BuildQuote(input).Ok?
    requires input.discount.Some? ==> input.discount.value.amountMinor < 0
    ensures var q := BuildQuote(input).value;
            CheckQuoteConsistent(q, AttestedPrices(input.items))
              == if input.taxInclusive && TaxTotal(q.lines, Inclusive(input, q.lines)) > q.totalMinor
                 then Some(TaxAboveTotal) else None
  {
    BuiltLines(input);
    ClaimedTax(input, BuildQuote(input).value.lines);
  }

  /** The storefront and the Gate agree. Every Quote `buildQuote` returns passes
      `quote-consistent` against the same catalogue when the discount is in range; a
      discount that is not negative is always refused; and when prices exclude tax the
      sign of the discount alone decides. */
  lemma {:induction false} BuiltQuotePasses(input: Input)
    requires BuildQuote(input).Ok?
    ensures var q := BuildQuote(input).value;
            var verdict := CheckQuoteConsistent(q, AttestedPrices(input.items));
      && (DiscountInRange(input.discount, q.subtotalMinor) ==> verdict == None)
      && (input.discount.Some? && input.discount.value.amountMinor >= 0 ==> verdict == Some(DiscountAddsMoney))
      && (!input.taxInclusive ==>
            (verdict == None <==> (input.discount.Some? ==> input.discount.value.amountMinor < 0)))
  {
    BuiltLines(input);
    var q := BuildQuote(input).value;
    if input.discount.Some? ==> input.discount.value.amountMinor < 0 { BuiltVerdict(input); }
    if DiscountInRange(input.discount, q.subtotalMinor) {
      InclusiveAmounts(input, q.lines);
      TaxBelowAmounts(q.lines, Inclusive(input, q.lines));
    }
    if input.discount.Some? {
      assert input.discount.value in q.discountLines;
    }
  }

  /** Below the range: a discount above the subtotal still passes when no line's own amount is
      negative, and there is a line to carry it. */
  lemma {:induction false} DeepDiscountCanPass(input: Input)
    requires BuildQuote(input).Ok?
    requires input.discount.Some? && input.discount.value.amountMinor < 0
    requires var q := BuildQuote(input).value;
      q.subtotalMinor > 0 && forall i :: 0 <= i < |q.lines| ==> Inclusive(input, q.lines)[i] >= 0
    ensures CheckQuoteConsistent(BuildQuote(input).value, AttestedPrices(input.items)) == None
  {
    var q := BuildQuote(input).value;
    BuiltLines(input);
    BuiltVerdict(input);
    AmountsAddUp(input, q.lines);
    TaxBelowAmounts(q.lines, Inclusive(input, q.lines));
  }

  // ----- why the range matters -----

  /** Three SKUs at 1, 3 and 3 paise and a rate of 100%, four paise of shipping and ten
      paise off a subtotal of seven. */
  function DeepDiscount(): Input {
    Input([Line("a", 1, ""), Line("b", 1, ""), Line("c", 1, "")],
      map["a" := Item(1, "9", 10000, []), "b" := Item(3, "9", 10000, []), "c" := Item(3, "9", 10000, [])],
      "MH", "KA", Zone("z", "z", 4, 1), Some(Discount("d", "d", -10)), true)
  }

  function DeepLines(): seq<QuoteLine> {
    [QuoteLine("a", 1, 1, 1, "9", 10000, "MH", []), QuoteLine("b", 1, 3, 3, "9", 10000, "MH", []),
     QuoteLine("c", 1, 3, 3, "9", 10000, "MH", [])]
  }

  lemma {:induction false} Sum3<T>(xs: seq<T>, f: T -> int)
    requires |xs| == 3
    ensures SumBy(xs, f) == f(xs[0]) + f(xs[1]) + f(xs[2])
  {
    assert SumBy(xs, f) == f(xs[0]) + SumBy(xs[1..], f);
    assert xs[1..][1..] == xs[2..] && xs[2..][1..] == [];
    assert SumBy(xs[1..], f) == f(xs[1]) + SumBy(xs[2..], f);
  }

  lemma {:induction false} Tax3(lines: seq<QuoteLine>, inclusive: seq<int>)
    requires |lines| == |inclusive| == 3
    ensures TaxTotal(lines, inclusive) == ExtractTax(inclusive[0], lines[0].gstRateBp)
      + ExtractTax(inclusive[1], lines[1].gstRateBp) + ExtractTax(inclusive[2], lines[2].gstRateBp)
  {
    assert lines[..2][..1] == lines[..1] && inclusive[..2][..1] == inclusive[..1];
    assert lines[..1][..0] == [] && inclusive[..1][..0] == [];
    assert TaxTotal(lines[..1], inclusive[..1]) == ExtractTax(inclusive[0], lines[0].gstRateBp);
    assert TaxTotal(lines[..2], inclusive[..2])
        == TaxTotal(lines[..2][..1], inclusive[..2][..1]) + ExtractTax(inclusive[1], lines[1].gstRateBp);
  }

  function DeepWeights(): seq<A.Weighted> { [A.Weighted("a", 1), A.Weighted("b", 3), A.Weighted("c", 3)] }

  lemma {:induction false} DeepShare(amount: int, shares: seq<int>)
    requires (amount == 10 && shares == [2, 4, 4]) || (amount == 4 && shares == [0, 2, 2])
    ensures A.Shares(amount, DeepWeights()) == shares
  {
    var w := DeepWeights();
    Sum3(w, A.WeightOf());
    Sum3(shares, (s: int) => s);
    assert A.Total(w) == 7;
    forall i | 0 <= i < 3
      ensures A.FloorOf(amount, 7)(w[i]) == if amount == 10 then [1, 4, 4][i] else [0, 1, 1][i]
      ensures A.RemainderOf(amount, 7)(w[i]) == if amount == 10 then [3, 2, 2][i] else [4, 5, 5][i]
    {
    }
    assert A.LargestRemainder(amount, w, shares);
    A.SharesFollowTheRule(amount, w);
    A.LargestRemainderUnique(amount, w, A.Shares(amount, w), shares);
  }

  lemma {:induction false} FoldFresh(f: Folded, line: Line, items: map<string, Item>)
    requires IsParent(items, line) && forall e :: e in f.parents ==> e.key != line.sku
    ensures FoldLine(f, line, items) == Ok(f.(parents := f.parents + [Entry(line.sku, line)]))
  {
  }

  function DeepFolded(): Folded {
    var ls := DeepDiscount().lines;
    Folded([Entry("a", ls[0]), Entry("b", ls[1]), Entry("c", ls[2])], [])
  }

  lemma {:induction false} DeepFold()
    ensures Fold(DeepDiscount().lines, DeepDiscount().items) == Ok(DeepFolded())
  {
    var ls, items := DeepDiscount().lines, DeepDiscount().items;
    var ps := DeepFolded().parents;
    assert ls[..3] == ls && ls[..3][..2] == ls[..2] && ls[..2][..1] == ls[..1] && ls[..1][..0] == [];
    assert "a"[0] != "b"[0] && "a"[0] != "c"[0] && "b"[0] != "c"[0];
    FoldFresh(Folded([], []), ls[0], items);
    FoldFresh(Folded(ps[..1], []), ls[1], items);
    FoldFresh(Folded(ps[..2], []), ls[2], items);
    assert [] + [ps[0]] == ps[..1] && ps[..1] + [ps[1]] == ps[..2] && ps[..2] + [ps[2]] == ps;
    assert Fold(ls[..1], items) == Ok(Folded(ps[..1], []));
    assert Fold(ls[..2], items) == Ok(Folded(ps[..2], []));
  }

  lemma {:induction false} DeepMapped()
    ensures Map(Map(DeepFolded().parents, ParentLine()), LineQuoter(DeepDiscount(), [])) == DeepLines()
  {
    var parents := Map(DeepFolded().parents, ParentLine());
    assert |parents| == 3;
    assert Map(parents, LineQuoter(DeepDiscount(), [])) == DeepLines();
  }

  lemma {:induction false} DeepSorted()
    ensures QuoteLines(DeepDiscount(), DeepFolded()) == DeepLines()
  {
    var lines := DeepLines();
    DeepMapped();
    assert TextLess("a", "b") && TextLess("a", "c") && TextLess("b", "c");
    forall i, j | 0 <= i < j < 3
      ensures !Before(QuoteLineSku(lines[j]), QuoteLineSku(lines[i]))
      ensures QuoteLineSku(lines[j]) != QuoteLineSku(lines[i])
    {
      BeforeTotal(QuoteLineSku(lines[i]), QuoteLineSku(lines[j]));
    }
    SortOfSorted(lines, QuoteLineSku);
  }

  lemma {:induction false} DeepInclusive()
    ensures Inclusive(DeepDiscount(), DeepLines()) == [-1, 1, 1]
  {
    assert Weights(DeepLines()) == DeepWeights();
    DeepShare(10, [2, 4, 4]);
    DeepShare(4, [0, 2, 2]);
  }

  lemma {:induction false} DeepTax()
    ensures TaxTotal(DeepLines(), Inclusive(DeepDiscount(), DeepLines())) == 2
    ensures QuoteOf(DeepDiscount(), DeepLines()).totalMinor == 1
  {
    DeepInclusive();
    assert ExtractTax(-1, 10000) == 0 && ExtractTax(1, 10000) == 1;
    Tax3(DeepLines(), [-1, 1, 1]);
    Sum3(DeepLines(), LineTotal());
  }

  /** A discount above the subtotal can make the Gate refuse the shop's own arithmetic:
      rounding leaves the lines at -1, 1 and 1 paise, a total of one, and two paise of tax
      inside it. */
  lemma {:induction false} DeepDiscountIsRefused()
    ensures BuildQuote(DeepDiscount()).Ok?
    ensures BuildQuote(DeepDiscount()).value.totalMinor == 1
    ensures CheckQuoteConsistent(BuildQuote(DeepDiscount()).value, AttestedPrices(DeepDiscount().items)) == Some(TaxAboveTotal)
  {
    DeepFold();
    DeepSorted();
    DeepTax();
    assert Orphan([], DeepFolded().parents) == None;
    BuiltVerdict(DeepDiscount());
  }
}
