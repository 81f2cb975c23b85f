/** The Gate: twelve checks in a fixed order, stopping at the first failure, and the
    Transcript that records them. */
module Gate {
  import opened Wrappers
  import opened Sums
  import opened Transcript
  import P = Pricing
  import Q = QuoteCheck

  datatype Method = Upi | CashOnDelivery | Card | Netbanking

  datatype Line = Line(sku: string, qty: int)

  datatype Authority = Authority(
    kind: AuthorityKind, mechanism: Option<Mechanism>, present: bool, ceremony: Option<string>,
    boundCartHash: Option<string>)

  datatype Policy = Policy(
    perOrderCapMinor: int, perOrderLineCount: int, perGroupQty: int, perGroupQtyOverrides: map<string, int>,
    blockedTags: set<string>, enabledMethods: set<Method>, enabledKinds: set<AuthorityKind>,
    enabledMechanisms: set<Mechanism>, currency: string, windowOpen: bool)
  {
    function QtyCapFor(group: string): int {
      if group in perGroupQtyOverrides then perGroupQtyOverrides[group] else perGroupQty
    }
  }

  /** Everything a decision looks at: the request, the pinned Quote with its bytes, and the
      bytes door 9 answers now. */
  datatype Context = Context(
    lines: seq<Line>, groupOf: map<string, string>, tagsOf: map<string, set<string>>,
    attestedPrices: map<string, int>, authority: Authority, paidBy: Method, header: Header,
    pinned: P.Quote, pinnedBytes: string, freshBytes: string)

  datatype Outcome = Outcome(result: CheckResult, code: Option<ReasonCode>, detail: string)

  const Passed: Outcome := Outcome(PASS, None, "")

  const ArrivesWithTheMoney: Outcome := Outcome(DEFERRED, None, "arrives with the money; settle() must resolve")

  function Failed(code: ReasonCode): Outcome { Outcome(FAIL, Some(code), "") }

  function PassIf(holds: bool, code: ReasonCode): Outcome { if holds then Passed else Failed(code) }

  function GroupOf(c: Context, sku: string): string { if sku in c.groupOf then c.groupOf[sku] else sku }

  // ----- the twelve -----

  function CheckAuthority(p: Policy, c: Context): Outcome {
    var a := c.authority;
    if a.kind !in p.enabledKinds then Failed(AuthorityKindNotEnabled)
    else if a.kind == ConfirmedIntent && a.mechanism == None then Failed(IntentMechanismNotEnabled)
    else if a.kind == ConfirmedIntent && a.mechanism.value !in p.enabledMechanisms then Failed(IntentMechanismNotEnabled)
    else
      match BindingFor(a.kind, a.mechanism)
      case None => Failed(AuthorityKindNotEnabled)
      case Some((binding, landsBeforeGate)) =>
        if !landsBeforeGate then ArrivesWithTheMoney
        else if !a.present then Failed(AuthorityMissing)
        else if binding.what == BindsCart && a.boundCartHash != Some(c.header.cartHash) then Failed(AuthorityStale)
        else Passed
  }

  function Groups(c: Context): set<string> { set l | l in c.lines :: GroupOf(c, l.sku) }

  function QtyIn(c: Context, group: string): Line -> int {
    (l: Line) => if GroupOf(c, l.sku) == group then l.qty else 0
  }

  function GroupQty(c: Context, group: string): int { SumBy(c.lines, QtyIn(c, group)) }

  /** Two of each colour are four of the group. */
  predicate QtyWithinCaps(p: Policy, c: Context) {
    forall group :: group in Groups(c) ==> GroupQty(c, group) <= p.QtyCapFor(group)
  }

  predicate NothingBlocked(p: Policy, c: Context) {
    forall l :: l in c.lines && l.sku in c.tagsOf ==> c.tagsOf[l.sku] !! p.blockedTags
  }

  function OutcomeOf(check: Check, p: Policy, c: Context): Outcome {
    match check
    case AuthorityCheck => CheckAuthority(p, c)
    case CurrencyCheck => PassIf(c.pinned.currency == p.currency, CurrencyMismatch)
    case MerchantCheck => PassIf(c.header.merchantDomain != "", MerchantMismatch)
    case WindowCheck => PassIf(p.windowOpen, WindowClosed)
    case CountCheck => PassIf(|Groups(c)| <= p.perOrderLineCount, CountExceeded)
    case QtyCheck => PassIf(QtyWithinCaps(p, c), QtyExceeded)
    case BlockedCheck => PassIf(NothingBlocked(p, c), BlockedItem)
    case TagsCheck => Passed
    case CapsCheck => PassIf(c.pinned.totalMinor <= p.perOrderCapMinor, CapExceeded)
    case QuoteConsistentCheck => PassIf(Q.CheckQuoteConsistent(c.pinned, c.attestedPrices) == None, QuoteInconsistent)
    case QuoteFreshCheck => PassIf(c.freshBytes == c.pinnedBytes, PriceChanged)
    case MethodCheck => PassIf(c.paidBy in p.enabledMethods, MethodNotSupported)
  }

  /** The running totals over a prefix of the lines. */
  ghost predicate Tally(perGroup: map<string, int>, lines: seq<Line>, c: Context) {
    && perGroup.Keys == (set l | l in lines :: GroupOf(c, l.sku))
    && forall g :: g in perGroup ==> perGroup[g] == SumBy(lines, QtyIn(c, g))
  }

  /** `per_group.get(group, 0) + qty`. */
  function Added(perGroup: map<string, int>, group: string, qty: int): map<string, int> {
    perGroup[group := (if group in perGroup then perGroup[group] else 0) + qty]
  }

  lemma {:induction false} TallyNext(perGroup: map<string, int>, lines: seq<Line>, line: Line, c: Context)
    requires Tally(perGroup, lines, c)
    ensures Tally(Added(perGroup, GroupOf(c, line.sku), line.qty), lines + [line], c)
  {
    var g := GroupOf(c, line.sku);
    if g !in perGroup { NoneInGroup(lines, c, g); }
    forall h ensures SumBy(lines + [line], QtyIn(c, h)) == SumBy(lines, QtyIn(c, h)) + QtyIn(c, h)(line) {
      SumSnoc(lines, line, QtyIn(c, h));
    }
  }

  lemma {:induction false} TallyStep(perGroup: map<string, int>, c: Context, i: nat)
    requires i < |c.lines| && Tally(perGroup, c.lines[..i], c)
    ensures Tally(Added(perGroup, GroupOf(c, c.lines[i].sku), c.lines[i].qty), c.lines[..i + 1], c)
  {
    TallyNext(perGroup, c.lines[..i], c.lines[i], c);
    assert c.lines[..i + 1] == c.lines[..i] + [c.lines[i]];
  }

  /** Quantities added up group by group in one pass over the lines. */
  method AddUp(c: Context) returns (perGroup: map<string, int>)
    ensures Tally(perGroup, c.lines, c)
  {
    perGroup := map[];
    for i := 0 to |c.lines|
      invariant Tally(perGroup, c.lines[..i], c)
    {
      var line := c.lines[i];
      TallyStep(perGroup, c, i);
      perGroup := Added(perGroup, GroupOf(c, line.sku), line.qty);
    }
    assert c.lines[..|c.lines|] == c.lines;
  }

  method CheckQty(p: Policy, c: Context) returns (within: bool)
    ensures within <==> QtyWithinCaps(p, c)
  {
    var perGroup := AddUp(c);
    TallyDecides(perGroup, p, c);
    return forall g :: g in perGroup ==> perGroup[g] <= p.QtyCapFor(g);
  }

  lemma {:induction false} TallyDecides(perGroup: map<string, int>, p: Policy, c: Context)
    requires Tally(perGroup, c.lines, c)
    ensures (forall g :: g in perGroup ==> perGroup[g] <= p.QtyCapFor(g)) <==> QtyWithinCaps(p, c)
  {
    assert forall g :: g in perGroup <==> g in Groups(c);
  }

  lemma {:induction false} NoneInGroup(lines: seq<Line>, c: Context, group: string)
    requires forall l :: l in lines ==> GroupOf(c, l.sku) != group
    ensures SumBy(lines, QtyIn(c, group)) == 0
  {
    if lines != [] { NoneInGroup(lines[1..], c, group); }
  }

  // ----- decide -----

  datatype Decision = Decision(transcript: Body, quote: P.Quote, permitted: bool)

  datatype Ruling = Permitted(decision: Decision) | Refused(code: ReasonCode, transcript: Body)

  function RecordFor(check: Check, p: Policy, c: Context): CheckRecord {
    var o := OutcomeOf(check, p, c);
    CheckRecord(check, o.result, o.code, o.detail)
  }

  function RecordsUpTo(n: nat, p: Policy, c: Context): (rs: seq<CheckRecord>)
    requires n <= |GATE_CHECK_ORDER|
    ensures |rs| == n
  {
    seq(n, i requires 0 <= i < n => RecordFor(GATE_CHECK_ORDER[i], p, c))
  }

  lemma {:induction false} RecordsNext(n: nat, p: Policy, c: Context)
    requires n < |GATE_CHECK_ORDER|
    ensures RecordsUpTo(n + 1, p, c) == RecordsUpTo(n, p, c) + [RecordFor(GATE_CHECK_ORDER[n], p, c)]
  {
  }

  function Blank(c: Context): Body { Body(c.header, None, None, None, None, [], None) }

  /** The first `n` checks did not fail. */
  ghost predicate Clear(n: nat, p: Policy, c: Context)
    requires n <= 12
  {
    forall i :: 0 <= i < n ==> OutcomeOf(GATE_CHECK_ORDER[i], p, c).result != FAIL
  }

  /** The check the Gate stopped at, with every one before it behind it. */
  ghost predicate StoppedAt(k: nat, p: Policy, c: Context, ruling: Ruling) {
    && k < 12 && ruling.Refused?
    && Clear(k, p, c)
    && OutcomeOf(GATE_CHECK_ORDER[k], p, c) == Failed(ruling.code)
    && ruling.transcript == Blank(c).(checks := RecordsUpTo(k + 1, p, c), reasonCode := Some(ruling.code))
  }

  // ----- what a decision has to meet -----

  /** The four rows of the Binding table: a kind with its mechanism. */
  predicate HasBinding(a: Authority) {
    || (a.kind == UpiPin && a.mechanism == None)
    || (a.kind == Passkey && a.mechanism == None)
    || (a.kind == ConfirmedIntent && a.mechanism == Some(UpiVerify))
    || (a.kind == ConfirmedIntent && a.mechanism == Some(PasskeyMechanism))
  }

  /** A passkey signs the cart, by itself or behind a confirmed intent. */
  predicate SignsTheCart(a: Authority) { a.kind == Passkey || a.mechanism == Some(PasskeyMechanism) }

  /** The Product Group a line counts for. */
  function NameOf(c: Context, l: Line): string { if l.sku in c.groupOf then c.groupOf[l.sku] else l.sku }

  function QtyNamed(c: Context, name: string): Line -> int { (l: Line) => if NameOf(c, l) == name then l.qty else 0 }

  function CapOn(p: Policy, name: string): int {
    if name in p.perGroupQtyOverrides then p.perGroupQtyOverrides[name] else p.perGroupQty
  }

  ghost predicate Authorised(p: Policy, c: Context) {
    var a := c.authority;
    && a.kind in p.enabledKinds
    && (a.kind == ConfirmedIntent ==> a.mechanism.Some? && a.mechanism.value in p.enabledMechanisms)
    && HasBinding(a)
    && (a.kind != UpiPin ==> a.present)
    && (a.kind != UpiPin && SignsTheCart(a) ==> a.boundCartHash == Some(c.header.cartHash))
  }

  /** Why the request itself is refused by one check, if it is. */
  ghost function Fault(check: Check, p: Policy, c: Context): Option<ReasonCode> {
    var a := c.authority;
    match check
    case AuthorityCheck =>
      if a.kind !in p.enabledKinds then Some(AuthorityKindNotEnabled)
      else if a.kind == ConfirmedIntent && (a.mechanism == None || a.mechanism.value !in p.enabledMechanisms) then Some(IntentMechanismNotEnabled)
      else if !HasBinding(a) then Some(AuthorityKindNotEnabled)
      else if a.kind != UpiPin && !a.present then Some(AuthorityMissing)
      else if a.kind != UpiPin && SignsTheCart(a) && a.boundCartHash != Some(c.header.cartHash) then Some(AuthorityStale)
      else None
    case CurrencyCheck => if c.pinned.currency != p.currency then Some(CurrencyMismatch) else None
    case MerchantCheck => if c.header.merchantDomain == "" then Some(MerchantMismatch) else None
    case WindowCheck => if !p.windowOpen then Some(WindowClosed) else None
    case CountCheck => if |set l | l in c.lines :: NameOf(c, l)| > p.perOrderLineCount then Some(CountExceeded) else None
    case QtyCheck =>
      if exists l :: l in c.lines && SumBy(c.lines, QtyNamed(c, NameOf(c, l))) > CapOn(p, NameOf(c, l)) then Some(QtyExceeded) else None
    case BlockedCheck =>
      if exists l, tag :: l in c.lines && l.sku in c.tagsOf && tag in c.tagsOf[l.sku] && tag in p.blockedTags then Some(BlockedItem) else None
    case TagsCheck => None
    case CapsCheck => if c.pinned.totalMinor > p.perOrderCapMinor then Some(CapExceeded) else None
    case QuoteConsistentCheck => if !Q.AddsUp(c.pinned, c.attestedPrices) then Some(QuoteInconsistent) else None
    case QuoteFreshCheck => if c.freshBytes != c.pinnedBytes then Some(PriceChanged) else None
    case MethodCheck => if c.paidBy !in p.enabledMethods then Some(MethodNotSupported) else None
  }

  ghost function FirstFaultOf(checks: seq<Check>, p: Policy, c: Context): Option<(Check, ReasonCode)> {
    if checks == [] then None
    else if Fault(checks[0], p, c).Some? then Some((checks[0], Fault(checks[0], p, c).value))
    else FirstFaultOf(checks[1..], p, c)
  }

  /** The first fault, in the order the source lists its checks. */
  ghost function FirstFault(p: Policy, c: Context): Option<(Check, ReasonCode)> {
    FirstFaultOf([
      AuthorityCheck, CurrencyCheck, MerchantCheck, WindowCheck, CountCheck, QtyCheck, BlockedCheck, TagsCheck,
      CapsCheck, QuoteConsistentCheck, QuoteFreshCheck, MethodCheck], p, c)
  }

  /** Everything a permitted decision meets. */
  ghost predicate Acceptable(p: Policy, c: Context) {
    && Authorised(p, c)
    && c.pinned.currency == p.currency && c.header.merchantDomain != "" && p.windowOpen
    && |set l | l in c.lines :: NameOf(c, l)| <= p.perOrderLineCount
    && (forall l :: l in c.lines ==> SumBy(c.lines, QtyNamed(c, NameOf(c, l))) <= CapOn(p, NameOf(c, l)))
    && (forall l, tag :: l in c.lines && l.sku in c.tagsOf && tag in c.tagsOf[l.sku] ==> tag !in p.blockedTags)
    && c.pinned.totalMinor <= p.perOrderCapMinor
    && Q.AddsUp(c.pinned, c.attestedPrices)
    && c.freshBytes == c.pinnedBytes
    && c.paidBy in p.enabledMethods
  }

  lemma {:induction false} NoFaultAmong(checks: seq<Check>, p: Policy, c: Context)
    ensures FirstFaultOf(checks, p, c) == None <==> forall check :: check in checks ==> Fault(check, p, c) == None
  {
    if checks != [] {
      NoFaultAmong(checks[1..], p, c);
      assert checks == [checks[0]] + checks[1..];
    }
  }

  lemma {:induction false} AcceptableExactly(p: Policy, c: Context)
    ensures FirstFault(p, c) == None <==> Acceptable(p, c)
  {
    NoFaultAmong(GATE_CHECK_ORDER, p, c);
    forall check: Check ensures check in GATE_CHECK_ORDER {
      EveryCheckIsListed(check);
    }
    NoFaultIsAcceptable(p, c);
  }

  lemma {:induction false} EveryCheckIsListed(check: Check)
    ensures check in GATE_CHECK_ORDER
  {
    assert GATE_CHECK_ORDER[0] == AuthorityCheck && GATE_CHECK_ORDER[1] == CurrencyCheck && GATE_CHECK_ORDER[2] == MerchantCheck;
    assert GATE_CHECK_ORDER[3] == WindowCheck && GATE_CHECK_ORDER[4] == CountCheck && GATE_CHECK_ORDER[5] == QtyCheck;
    assert GATE_CHECK_ORDER[6] == BlockedCheck && GATE_CHECK_ORDER[7] == TagsCheck && GATE_CHECK_ORDER[8] == CapsCheck;
    assert GATE_CHECK_ORDER[9] == QuoteConsistentCheck && GATE_CHECK_ORDER[10] == QuoteFreshCheck && GATE_CHECK_ORDER[11] == MethodCheck;
  }

  lemma {:induction false} NoFaultIsAcceptable(p: Policy, c: Context)
    ensures (forall check: Check :: Fault(check, p, c) == None) <==> Acceptable(p, c)
  {
    if forall check: Check :: Fault(check, p, c) == None {
      assert Fault(AuthorityCheck, p, c) == Fault(CurrencyCheck, p, c) == Fault(MerchantCheck, p, c) == Fault(WindowCheck, p, c) == None;
      assert Fault(CountCheck, p, c) == Fault(QtyCheck, p, c) == Fault(BlockedCheck, p, c) == Fault(CapsCheck, p, c) == None;
      assert Fault(QuoteConsistentCheck, p, c) == Fault(QuoteFreshCheck, p, c) == Fault(MethodCheck, p, c) == None;
    }
  }

  lemma {:induction false} SameQty(lines: seq<Line>, c: Context, name: string)
    ensures SumBy(lines, QtyNamed(c, name)) == SumBy(lines, QtyIn(c, name))
  {
    if lines != [] {
      SameQty(lines[1..], c, name);
      assert QtyNamed(c, name)(lines[0]) == QtyIn(c, name)(lines[0]);
    }
  }

  /** A check fails exactly on its fault, with its code. */
  lemma {:induction false} FailsExactly(check: Check, p: Policy, c: Context)
    ensures OutcomeOf(check, p, c).result == FAIL <==> Fault(check, p, c).Some?
    ensures OutcomeOf(check, p, c).result == FAIL ==> OutcomeOf(check, p, c).code == Fault(check, p, c)
  {
    match check
    case CountCheck => assert Groups(c) == set l | l in c.lines :: NameOf(c, l);
    case QtyCheck =>
      forall l | l in c.lines ensures SumBy(c.lines, QtyNamed(c, NameOf(c, l))) == GroupQty(c, GroupOf(c, l.sku)) {
        SameQty(c.lines, c, NameOf(c, l));
      }
    case QuoteConsistentCheck => Q.PassesExactly(c.pinned, c.attestedPrices);
    case _ =>
  }

  /** Where the Gate stops is the first fault, and where it does not stop there is none. */
  lemma {:induction false} StopsAtTheFirstFault(p: Policy, c: Context, k: nat)
    requires k <= 12 && Clear(k, p, c)
    ensures k == 12 ==> FirstFault(p, c) == None
    ensures k < 12 && OutcomeOf(GATE_CHECK_ORDER[k], p, c).result == FAIL ==>
      FirstFault(p, c).Some? && FirstFault(p, c).value.0 == GATE_CHECK_ORDER[k]
      && OutcomeOf(GATE_CHECK_ORDER[k], p, c).code == Some(FirstFault(p, c).value.1)
  {
    forall i | 0 <= i < k ensures Fault(GATE_CHECK_ORDER[i], p, c) == None {
      FailsExactly(GATE_CHECK_ORDER[i], p, c);
    }
    if k < 12 { FailsExactly(GATE_CHECK_ORDER[k], p, c); }
    FaultsInOrder(GATE_CHECK_ORDER, p, c, k);
  }

  /** The first fault by position in the order. */
  lemma {:induction false} FaultsInOrder(checks: seq<Check>, p: Policy, c: Context, k: nat)
    requires k <= |checks| && forall i :: 0 <= i < k ==> Fault(checks[i], p, c) == None
    ensures k == |checks| ==> FirstFaultOf(checks, p, c) == None
    ensures k < |checks| && Fault(checks[k], p, c).Some? ==>
      FirstFaultOf(checks, p, c) == Some((checks[k], Fault(checks[k], p, c).value))
  {
    if k > 0 {
      assert forall i :: 0 <= i < k - 1 ==> checks[1..][i] == checks[i + 1];
      FaultsInOrder(checks[1..], p, c, k - 1);
    }
  }

  /** One check; the quantity check is the one with a loop of its own. */
  method RunCheck(check: Check, p: Policy, c: Context) returns (outcome: Outcome)
    ensures outcome == OutcomeOf(check, p, c)
  {
    if check == QtyCheck {
      var within := CheckQty(p, c);
      outcome := PassIf(within, QtyExceeded);
    } else {
      outcome := OutcomeOf(check, p, c);
    }
  }

  /** The checks, in order, stopping at the first failure. A dry run decides alike and
      permits nothing. */
  method Decide(p: Policy, c: Context, dryRun: bool) returns (ruling: Ruling, ghost stop: nat)
    ensures ruling.Permitted? <==> Acceptable(p, c)
    ensures ruling.Permitted? ==>
      var t := ruling.decision.transcript;
      && ruling.decision.permitted == !dryRun && ruling.decision.quote == c.pinned
      && t.header == c.header && t.authorityKind == Some(c.authority.kind)
      && t.authorityMechanism == c.authority.mechanism && t.ceremony == c.authority.ceremony
    ensures ruling.Refused? ==>
      var t := ruling.transcript;
      && t.header == c.header && t.checks != []
      && FirstFault(p, c) == Some((t.checks[|t.checks| - 1].check, ruling.code))
    ensures ruling.Permitted? <==> Clear(12, p, c)
    ensures ruling.Permitted? ==> ruling.decision == Decision(
      Blank(c).(authorityKind := Some(c.authority.kind), authorityMechanism := c.authority.mechanism,
                ceremony := c.authority.ceremony, checks := RecordsUpTo(12, p, c)),
      c.pinned, !dryRun)
    ensures ruling.Permitted? ==> PermittedShape(ruling.decision.transcript)
    ensures ruling.Refused? ==> RefusedShape(ruling.transcript) && StoppedAt(stop, p, c, ruling)
  {
    var log := new Log(c.header);
    stop := 0;
    for k := 0 to |GATE_CHECK_ORDER|
      invariant log.Value() == Blank(c).(checks := RecordsUpTo(k, p, c))
      invariant Clear(k, p, c)
    {
      var check := GATE_CHECK_ORDER[k];
      var outcome := RunCheck(check, p, c);
      log.Record(check, outcome.result, outcome.code, outcome.detail);
      RecordsNext(k, p, c);
      if outcome.result == FAIL {
        FailuresHaveCodes(check, p, c);
        ruling, stop := Refused(outcome.code.value, log.Value()), k;
        RefusedHasShape(k, p, c, ruling);
        StopsAtTheFirstFault(p, c, k);
        AcceptableExactly(p, c);
        return;
      }
    }
    log.authorityKind := Some(c.authority.kind);
    log.authorityMechanism := c.authority.mechanism;
    log.ceremony := c.authority.ceremony;
    PermittedHasShape(p, c);
    StopsAtTheFirstFault(p, c, 12);
    AcceptableExactly(p, c);
    ruling := Permitted(Decision(log.Value(), c.pinned, !dryRun));
  }

  lemma {:induction false} FailuresHaveCodes(check: Check, p: Policy, c: Context)
    ensures OutcomeOf(check, p, c).result == FAIL <==> OutcomeOf(check, p, c).code.Some?
    ensures OutcomeOf(check, p, c).result == FAIL ==> OutcomeOf(check, p, c) == Failed(OutcomeOf(check, p, c).code.value)
    ensures OutcomeOf(check, p, c).result == DEFERRED ==> check == AuthorityCheck && c.authority.kind == UpiPin
  {
  }

  /** The shape of a permitted Transcript: all twelve checks in order, the first deferred
      exactly for `upi-pin`, every other one passed, no reason code. */
  ghost predicate PermittedShape(t: Body) {
    && Checks(t.checks) == GATE_CHECK_ORDER
    && t.authorityKind.Some?
    && (t.checks[0].result == DEFERRED <==> t.authorityKind == Some(UpiPin))
    && (forall i :: 0 <= i < 12 ==> t.checks[i].result != FAIL && t.checks[i].reasonCode == None)
    && (forall i :: 1 <= i < 12 ==> t.checks[i].result == PASS)
    && t.reasonCode == None
    && BindingFor(t.authorityKind.value, t.authorityMechanism).Some?
    && t.binding == None
  }

  /** The shape of a refusal: a prefix of the order whose only failure is its last record
      and gives the reason. */
  ghost predicate RefusedShape(t: Body) {
    && 0 < |t.checks| <= 12
    && Checks(t.checks) == GATE_CHECK_ORDER[..|t.checks|]
    && (forall i :: 0 <= i < |t.checks| ==> (t.checks[i].result == FAIL <==> i == |t.checks| - 1))
    && t.reasonCode.Some?
    && t.reasonCode == t.checks[|t.checks| - 1].reasonCode
  }

  lemma {:induction false} RecordsShape(n: nat, p: Policy, c: Context)
    requires n <= 12
    ensures Checks(RecordsUpTo(n, p, c)) == GATE_CHECK_ORDER[..n]
    ensures forall i :: 0 <= i < n ==>
      && RecordsUpTo(n, p, c)[i].result == OutcomeOf(GATE_CHECK_ORDER[i], p, c).result
      && RecordsUpTo(n, p, c)[i].reasonCode == OutcomeOf(GATE_CHECK_ORDER[i], p, c).code
  {
    assert |GATE_CHECK_ORDER| == 12;
  }

  lemma {:induction false} RefusedHasShape(k: nat, p: Policy, c: Context, ruling: Ruling)
    requires StoppedAt(k, p, c, ruling)
    ensures RefusedShape(ruling.transcript)
  {
    RecordsShape(k + 1, p, c);
  }

  lemma {:induction false} PermittedHasShape(p: Policy, c: Context)
    requires Clear(12, p, c)
    ensures PermittedShape(Blank(c).(authorityKind := Some(c.authority.kind), authorityMechanism := c.authority.mechanism,
                ceremony := c.authority.ceremony, checks := RecordsUpTo(12, p, c)))
    ensures c.pinned.totalMinor <= p.perOrderCapMinor
    ensures c.authority.kind != Mandate && c.paidBy in p.enabledMethods
  {
    RecordsShape(12, p, c);
    assert GATE_CHECK_ORDER[..12] == GATE_CHECK_ORDER;
    forall i | 0 <= i < 12 ensures GATE_CHECK_ORDER[i] == AuthorityCheck <==> i == 0 {
    }
    forall i | 0 <= i < 12
      ensures OutcomeOf(GATE_CHECK_ORDER[i], p, c).code == None
      ensures i > 0 ==> OutcomeOf(GATE_CHECK_ORDER[i], p, c).result == PASS
    {
      FailuresHaveCodes(GATE_CHECK_ORDER[i], p, c);
    }
    assert GATE_CHECK_ORDER[0] == AuthorityCheck;
    assert GATE_CHECK_ORDER[8] == CapsCheck && GATE_CHECK_ORDER[11] == MethodCheck;
  }

  /** The storefront's own Quote, pinned against its own catalogue, is never what the tenth
      check refuses. */
  lemma {:induction false} OwnQuoteIsConsistent(input: P.Input, p: Policy, c: Context)
    requires P.BuildQuote(input).Ok? && c.pinned == P.BuildQuote(input).value
    requires c.attestedPrices == Q.AttestedPrices(input.items)
    requires Q.DiscountInRange(input.discount, c.pinned.subtotalMinor)
    ensures OutcomeOf(QuoteConsistentCheck, p, c) == Passed
  {
    Q.BuiltQuotePasses(input);
  }
}
