/** The Transcript of one Gate decision: what each check answered, in order, and how a
    deferred answer is resolved when the money arrives. */
module Transcript {
  import opened Wrappers

  datatype AuthorityKind = UpiPin | Passkey | ConfirmedIntent | Mandate

  datatype Mechanism = UpiVerify | PasskeyMechanism

  datatype BindingWhat = BindsCart | BindsAmount | BindsNothing

  datatype BindingBy = ByPayerDevice | ByPayerBank | ByMerchant

  datatype Binding = Binding(what: BindingWhat, attestedBy: BindingBy)

  datatype Check =
    | AuthorityCheck | CurrencyCheck | MerchantCheck | WindowCheck | CountCheck | QtyCheck
    | BlockedCheck | TagsCheck | CapsCheck | QuoteConsistentCheck | QuoteFreshCheck | MethodCheck

  const GATE_CHECK_ORDER: seq<Check> := [
    AuthorityCheck, CurrencyCheck, MerchantCheck, WindowCheck, CountCheck, QtyCheck,
    BlockedCheck, TagsCheck, CapsCheck, QuoteConsistentCheck, QuoteFreshCheck, MethodCheck]

  datatype CheckResult = PASS | FAIL | DEFERRED

  datatype ReasonCode =
    | AuthorityKindNotEnabled | IntentMechanismNotEnabled | AuthorityMissing | AuthorityStale
    | CurrencyMismatch | MerchantMismatch | WindowClosed | CountExceeded | QtyExceeded
    | BlockedItem | CapExceeded | QuoteInconsistent | PriceChanged | MethodNotSupported

  datatype CheckRecord = CheckRecord(check: Check, result: CheckResult, reasonCode: Option<ReasonCode>, detail: string)

  /** What the Consumer authorised and who asked. */
  datatype Header = Header(
    orderId: string, cartHash: string, quoteHash: string, totalMinor: int, currency: string,
    merchantDomain: string, expiryUtc: string, agentId: string, consumerId: string)

  datatype Body = Body(
    header: Header, authorityKind: Option<AuthorityKind>, authorityMechanism: Option<Mechanism>,
    binding: Option<Binding>, ceremony: Option<string>, checks: seq<CheckRecord>, reasonCode: Option<ReasonCode>)

  /** Which Binding a kind carries, and whether it lands before the Gate. */
  function BindingFor(kind: AuthorityKind, mechanism: Option<Mechanism>): Option<(Binding, bool)> {
    match (kind, mechanism)
    case (UpiPin, None) => Some((Binding(BindsAmount, ByPayerBank), false))
    case (Passkey, None) => Some((Binding(BindsCart, ByPayerDevice), true))
    case (ConfirmedIntent, Some(UpiVerify)) => Some((Binding(BindsNothing, ByPayerBank), true))
    case (ConfirmedIntent, Some(PasskeyMechanism)) => Some((Binding(BindsCart, ByPayerDevice), true))
    case _ => None
  }

  function Checks(records: seq<CheckRecord>): (cs: seq<Check>)
    ensures |cs| == |records|
  {
    seq(|records|, i requires 0 <= i < |records| => records[i].check)
  }

  predicate NothingDeferred(records: seq<CheckRecord>) {
    forall r :: r in records ==> r.result != DEFERRED
  }

  /** What `assert_complete` demands before a capture. */
  predicate Complete(records: seq<CheckRecord>) {
    && |records| <= |GATE_CHECK_ORDER|
    && Checks(records) == GATE_CHECK_ORDER[..|records|]
    && NothingDeferred(records)
  }

  function Recorded(b: Body, r: CheckRecord): Body {
    b.(checks := b.checks + [r],
       reasonCode := if r.result == FAIL && b.reasonCode == None then r.reasonCode else b.reasonCode)
  }

  function Resolved(r: CheckRecord): CheckRecord {
    if r.result == DEFERRED then r.(result := PASS) else r
  }

  /** Every deferred record turned into a pass, everything else as it was. */
  function ResolvedAll(records: seq<CheckRecord>): (rs: seq<CheckRecord>)
    ensures |rs| == |records|
    ensures forall i :: 0 <= i < |rs| ==> rs[i] == Resolved(records[i])
  {
    seq(|records|, i requires 0 <= i < |records| => Resolved(records[i]))
  }

  /** The position of the first deferred record of a check. */
  function FirstDeferred(records: seq<CheckRecord>, check: Check): (i: nat)
    ensures i <= |records|
    ensures i < |records| ==> records[i].check == check && records[i].result == DEFERRED
    ensures forall j :: 0 <= j < i ==> !(records[j].check == check && records[j].result == DEFERRED)
  {
    if records == [] then 0
    else if records[0].check == check && records[0].result == DEFERRED then 0
    else
      var i := FirstDeferred(records[1..], check);
      assert forall j :: 1 <= j < i + 1 ==> records[j] == records[1..][j - 1];
      i + 1
  }

  class Log {
    const header: Header
    var authorityKind: Option<AuthorityKind>
    var authorityMechanism: Option<Mechanism>
    var binding: Option<Binding>
    var ceremony: Option<string>
    var checks: seq<CheckRecord>
    var reasonCode: Option<ReasonCode>

    function Value(): Body
      reads this
    {
      Body(header, authorityKind, authorityMechanism, binding, ceremony, checks, reasonCode)
    }

    constructor (header: Header)
      ensures Value() == Body(header, None, None, None, None, [], None)
    {
      this.header := header;
      authorityKind, authorityMechanism, binding, ceremony, checks, reasonCode := None, None, None, None, [], None;
    }

    constructor From(b: Body)
      ensures Value() == b
    {
      header := b.header;
      authorityKind, authorityMechanism, binding, ceremony := b.authorityKind, b.authorityMechanism, b.binding, b.ceremony;
      checks, reasonCode := b.checks, b.reasonCode;
    }

    /** Append a record; the first failure, and only the first, becomes the reason. */
    method Record(check: Check, result: CheckResult, code: Option<ReasonCode>, detail: string)
      modifies this
      ensures Value() == Recorded(old(Value()), CheckRecord(check, result, code, detail))
    {
      checks := checks + [CheckRecord(check, result, code, detail)];
      if result == FAIL && reasonCode == None {
        reasonCode := code;
      }
    }

    /** Resolve the first deferred record of this check, or refuse when there is none. */
    method ResolveDeferred(check: Check, result: CheckResult) returns (found: bool)
      modifies this
      ensures var i := FirstDeferred(old(checks), check);
        && found == (i < |old(checks)|)
        && (found ==> checks == old(checks)[i := old(checks)[i].(result := result)])
        && (!found ==> checks == old(checks))
      ensures reasonCode ==
        if found && result == FAIL && old(reasonCode) == None then Some(AuthorityMissing) else old(reasonCode)
      ensures authorityKind == old(authorityKind) && authorityMechanism == old(authorityMechanism)
      ensures binding == old(binding) && ceremony == old(ceremony)
    {
      var k := 0;
      while k < |checks|
        invariant 0 <= k <= |checks|
        invariant k <= FirstDeferred(checks, check)
      {
        if checks[k].check == check && checks[k].result == DEFERRED {
          checks := checks[k := checks[k].(result := result)];
          if result == FAIL && reasonCode == None {
            reasonCode := Some(AuthorityMissing);
          }
          return true;
        }
        k := k + 1;
      }
      return false;
    }

    /** Settling resolves every check that was deferred when it started. */
    method ResolveAll()
      modifies this
      ensures Value() == old(Value()).(checks := ResolvedAll(old(checks)))
    {
      ghost var before := checks;
      var waiting := DeferredOf(checks);
      DeferredCount(checks);
      ghost var n := |waiting|;
      for k := 0 to |waiting|
        invariant authorityKind == old(authorityKind)
        invariant authorityMechanism == old(authorityMechanism) && binding == old(binding)
        invariant ceremony == old(ceremony) && reasonCode == old(reasonCode)
        invariant |checks| == |before|
        invariant forall i :: 0 <= i < |checks| ==> checks[i] == before[i] || checks[i] == Resolved(before[i])
        invariant DeferredOf(checks) == waiting[k..]
      {
        ghost var now := checks;
        FirstWaiting(checks);
        var found := ResolveDeferred(waiting[k].check, PASS);
        ResolvedFirst(now, FirstDeferred(now, waiting[k].check));
      }
      NoneWaiting(checks);
      assert checks == ResolvedAll(before);
    }
  }

  function DeferredOf(records: seq<CheckRecord>): seq<CheckRecord> {
    if records == [] then []
    else if records[0].result == DEFERRED then [records[0]] + DeferredOf(records[1..])
    else DeferredOf(records[1..])
  }

  lemma {:induction false} DeferredCount(records: seq<CheckRecord>)
    ensures |DeferredOf(records)| <= |records|
  {
    if records != [] { DeferredCount(records[1..]); }
  }

  /** The first deferred record is the one its check finds. */
  lemma {:induction false} FirstWaiting(records: seq<CheckRecord>)
    requires DeferredOf(records) != []
    ensures var i := FirstDeferred(records, DeferredOf(records)[0].check);
      && i < |records|
      && (forall j :: 0 <= j < i ==> records[j].result != DEFERRED)
  {
    if records[0].result != DEFERRED {
      FirstWaiting(records[1..]);
    }
  }

  lemma {:induction false} ResolvedFirst(records: seq<CheckRecord>, i: nat)
    requires i < |records| && records[i].result == DEFERRED
    requires forall j :: 0 <= j < i ==> records[j].result != DEFERRED
    ensures DeferredOf(records) != []
    ensures DeferredOf(records[i := records[i].(result := PASS)]) == DeferredOf(records)[1..]
  {
    var rs := records[i := records[i].(result := PASS)];
    if i == 0 {
      assert rs[1..] == records[1..];
    } else {
      ResolvedFirst(records[1..], i - 1);
      assert rs[1..] == records[1..][i - 1 := records[i].(result := PASS)];
    }
  }

  lemma {:induction false} NoneWaiting(records: seq<CheckRecord>)
    ensures DeferredOf(records) == [] <==> NothingDeferred(records)
  {
    if records != [] {
      NoneWaiting(records[1..]);
      assert records == [records[0]] + records[1..];
    }
  }

  function AllRecorded(b: Body, rs: seq<CheckRecord>): Body {
    if rs == [] then b else Recorded(AllRecorded(b, rs[..|rs| - 1]), rs[|rs| - 1])
  }

  /** A failure that says why, with none before it. */
  ghost predicate FirstFailure(rs: seq<CheckRecord>, i: nat) {
    && i < |rs| && rs[i].result == FAIL && rs[i].reasonCode.Some?
    && forall j :: 0 <= j < i ==> !(rs[j].result == FAIL && rs[j].reasonCode.Some?)
  }

  /** Over any run of records: all are kept in order, nothing else of the Transcript moves, and the
      reason is the first failure's. */
  lemma {:induction false} TheFirstFailureIsTheReason(b: Body, rs: seq<CheckRecord>)
    requires b.reasonCode == None
    ensures var after := AllRecorded(b, rs);
      && after == b.(checks := b.checks + rs, reasonCode := after.reasonCode)
      && (after.reasonCode.Some? ==> exists i: nat :: FirstFailure(rs, i) && after.reasonCode == rs[i].reasonCode)
      && (after.reasonCode == None ==> forall r :: r in rs ==> !(r.result == FAIL && r.reasonCode.Some?))
  {
    if rs == [] {
      assert b.checks + rs == b.checks;
    } else {
      var front, last := rs[..|rs| - 1], rs[|rs| - 1];
      TheFirstFailureIsTheReason(b, front);
      var before := AllRecorded(b, front);
      assert rs == front + [last] && b.checks + rs == b.checks + front + [last];
      if before.reasonCode.Some? {
        var i: nat :| FirstFailure(front, i) && before.reasonCode == front[i].reasonCode;
        assert FirstFailure(rs, i);
      } else if last.result == FAIL && last.reasonCode.Some? {
        forall j | 0 <= j < |front| ensures !(rs[j].result == FAIL && rs[j].reasonCode.Some?) { assert front[j] in front; }
        assert FirstFailure(rs, |front|);
      }
    }
  }
}
