/** A decision across the gap between the tap and the money: `to_dict`, `transcript_from_dict`
    and the checkout row that keeps the document. Field names and the words of the closed
    vocabularies are enumerations here; each stands for its own distinct text. */
module TranscriptStore {
  import opened Wrappers
  import opened Sums
  import opened Transcript

  datatype Field =
    | OrderIdF | CartHashF | QuoteHashF | TotalMinorF | CurrencyF | MerchantDomainF | ExpiryUtcF | AgentIdF | ConsumerIdF
    | ChecksF | AuthorityF | KindF | BindingF | WhatF | ByF | MechanismF | CeremonyF | CheckF | ResultF | ReasonCodeF | DetailF

  datatype Word =
    | KindW(kind: AuthorityKind) | MechanismW(mechanism: Mechanism) | WhatW(what: BindingWhat) | ByW(attestedBy: BindingBy)
    | CheckW(check: Check) | ResultW(result: CheckResult) | ReasonW(reason: ReasonCode)

  datatype Json = Null | Text(text: string) | Number(number: int) | Of(word: Word) | List(items: seq<Json>) | Obj(fields: map<Field, Json>)

  // ----- to_dict -----

  function BindingToDict(b: Binding): Json { Obj(map[WhatF := Of(WhatW(b.what)), ByF := Of(ByW(b.attestedBy))]) }

  function With(m: map<Field, Json>, f: Field, v: Option<Json>): map<Field, Json> {
    if v.Some? then m[f := v.value] else m
  }

  function ReasonText(code: Option<ReasonCode>): Option<Json> { if code.Some? then Some(Of(ReasonW(code.value))) else None }

  /** An empty string is left out. */
  function NonEmpty(s: string): Option<Json> { if s != "" then Some(Text(s)) else None }

  function CheckToDict(): CheckRecord -> Json {
    (r: CheckRecord) =>
      Obj(With(With(map[CheckF := Of(CheckW(r.check)), ResultF := Of(ResultW(r.result))],
        ReasonCodeF, ReasonText(r.reasonCode)), DetailF, NonEmpty(r.detail)))
  }

  function AuthorityToDict(b: Body): Option<Json> {
    if b.authorityKind == None then None
    else
      var base := map[KindF := Of(KindW(b.authorityKind.value)),
                      BindingF := if b.binding.Some? then BindingToDict(b.binding.value) else Null];
      Some(Obj(With(With(base,
        MechanismF, if b.authorityMechanism.Some? then Some(Of(MechanismW(b.authorityMechanism.value))) else None),
        CeremonyF, if b.ceremony.Some? then NonEmpty(b.ceremony.value) else None)))
  }

  function HeaderToDict(h: Header): map<Field, Json> {
    map[OrderIdF := Text(h.orderId), CartHashF := Text(h.cartHash), QuoteHashF := Text(h.quoteHash),
        TotalMinorF := Number(h.totalMinor), CurrencyF := Text(h.currency), MerchantDomainF := Text(h.merchantDomain),
        ExpiryUtcF := Text(h.expiryUtc), AgentIdF := Text(h.agentId), ConsumerIdF := Text(h.consumerId)]
  }

  function ToDict(b: Body): Json {
    Obj(With(With(HeaderToDict(b.header)[ChecksF := List(Map(b.checks, CheckToDict()))],
      AuthorityF, AuthorityToDict(b)), ReasonCodeF, ReasonText(b.reasonCode)))
  }

  // ----- transcript_from_dict -----

  function Get(m: map<Field, Json>, f: Field): Option<Json> { if f in m then Some(m[f]) else None }

  /** What `or None` and `if ...` call nothing. */
  predicate Nothing(v: Option<Json>) {
    match v
    case None => true
    case Some(Null) => true
    case Some(Text(t)) => t == ""
    case Some(Number(n)) => n == 0
    case Some(List(items)) => items == []
    case Some(Obj(fields)) => fields == map[]
    case Some(Of(_)) => false
  }

  /** None: the document is refused with a KeyError or a ValueError. */
  function TextAt(m: map<Field, Json>, f: Field): Option<string> {
    match Get(m, f)
    case Some(Text(t)) => Some(t)
    case _ => None
  }

  function HeaderFromDict(m: map<Field, Json>): Option<Header> {
    if TextAt(m, OrderIdF).Some? && TextAt(m, CartHashF).Some? && TextAt(m, QuoteHashF).Some? && TextAt(m, CurrencyF).Some?
      && TextAt(m, MerchantDomainF).Some? && TextAt(m, ExpiryUtcF).Some? && TextAt(m, AgentIdF).Some? && TextAt(m, ConsumerIdF).Some?
      && Get(m, TotalMinorF).Some? && Get(m, TotalMinorF).value.Number?
    then Some(Header(TextAt(m, OrderIdF).value, TextAt(m, CartHashF).value, TextAt(m, QuoteHashF).value,
      Get(m, TotalMinorF).value.number, TextAt(m, CurrencyF).value, TextAt(m, MerchantDomainF).value,
      TextAt(m, ExpiryUtcF).value, TextAt(m, AgentIdF).value, TextAt(m, ConsumerIdF).value))
    else None
  }

  function ReasonFromDict(v: Option<Json>): Option<Option<ReasonCode>> {
    if Nothing(v) then Some(None)
    else match v.value
      case Of(ReasonW(code)) => Some(Some(code))
      case _ => None
  }

  function CheckFromDict(j: Json): Option<CheckRecord> {
    match j
    case Obj(m) =>
      (match (Get(m, CheckF), Get(m, ResultF), ReasonFromDict(Get(m, ReasonCodeF)))
       case (Some(Of(CheckW(check))), Some(Of(ResultW(result))), Some(code)) =>
         (match Get(m, DetailF)
          case None => Some(CheckRecord(check, result, code, ""))
          case Some(Text(detail)) => Some(CheckRecord(check, result, code, detail))
          case _ => None)
       case _ => None)
    case _ => None
  }

  function ChecksFromDict(items: seq<Json>): Option<seq<CheckRecord>> {
    if items == [] then Some([])
    else
      match (CheckFromDict(items[0]), ChecksFromDict(items[1..]))
      case (Some(r), Some(rest)) => Some([r] + rest)
      case _ => None
  }

  function BindingFromDict(v: Option<Json>): Option<Option<Binding>> {
    if Nothing(v) then Some(None)
    else match v.value
      case Obj(m) =>
        (match (Get(m, WhatF), Get(m, ByF))
         case (Some(Of(WhatW(what))), Some(Of(ByW(attestedBy)))) => Some(Some(Binding(what, attestedBy)))
         case _ => None)
      case _ => None
  }

  datatype Authority = Authority(
    kind: Option<AuthorityKind>, mechanism: Option<Mechanism>, binding: Option<Binding>, ceremony: Option<string>)

  function KindFromDict(v: Option<Json>): Option<Option<AuthorityKind>> {
    if Nothing(v) then Some(None)
    else match v.value
      case Of(KindW(kind)) => Some(Some(kind))
      case _ => None
  }

  function MechanismFromDict(v: Option<Json>): Option<Option<Mechanism>> {
    match v
    case None => Some(None)
    case Some(Null) => Some(None)
    case Some(Of(MechanismW(mechanism))) => Some(Some(mechanism))
    case _ => None
  }

  function CeremonyFromDict(v: Option<Json>): Option<Option<string>> {
    match v
    case None => Some(None)
    case Some(Null) => Some(None)
    case Some(Text(ceremony)) => Some(Some(ceremony))
    case _ => None
  }

  function AuthorityFromDict(v: Option<Json>): Option<Authority> {
    if Nothing(v) then Some(Authority(None, None, None, None))
    else match v.value
      case Obj(m) =>
        (match (KindFromDict(Get(m, KindF)), MechanismFromDict(Get(m, MechanismF)), BindingFromDict(Get(m, BindingF)), CeremonyFromDict(Get(m, CeremonyF)))
         case (Some(kind), Some(mechanism), Some(binding), Some(ceremony)) => Some(Authority(kind, mechanism, binding, ceremony))
         case _ => None)
      case _ => None
  }

  function FromDict(j: Json): Option<Body> {
    match j
    case Obj(m) =>
      var checks := match Get(m, ChecksF) case None => Some([]) case Some(List(items)) => ChecksFromDict(items) case _ => None;
      (match (HeaderFromDict(m), AuthorityFromDict(Get(m, AuthorityF)), checks, ReasonFromDict(Get(m, ReasonCodeF)))
       case (Some(h), Some(a), Some(records), Some(code)) => Some(Body(h, a.kind, a.mechanism, a.binding, a.ceremony, records, code))
       case _ => None)
    case _ => None
  }

  // ----- the round trip -----

  /** What writing forgets: the authority's details when no kind is set, and an empty ceremony. */
  function Kept(b: Body): Body {
    if b.authorityKind == None then b.(authorityMechanism := None, binding := None, ceremony := None)
    else b.(ceremony := if b.ceremony == Some("") then None else b.ceremony)
  }

  lemma {:induction false} CheckRoundTrip(r: CheckRecord)
    ensures CheckFromDict(CheckToDict()(r)) == Some(r)
  {
  }

  lemma {:induction false} ChecksRoundTrip(rs: seq<CheckRecord>)
    ensures ChecksFromDict(Map(rs, CheckToDict())) == Some(rs)
  {
    if rs != [] {
      CheckRoundTrip(rs[0]);
      ChecksRoundTrip(rs[1..]);
      assert Map(rs, CheckToDict())[1..] == Map(rs[1..], CheckToDict());
      assert rs == [rs[0]] + rs[1..];
    }
  }

  lemma {:induction false} BindingRoundTrip(b: Binding)
    ensures BindingFromDict(Some(BindingToDict(b))) == Some(Some(b))
  {
    assert WhatF in BindingToDict(b).fields;
  }

  lemma {:induction false} AuthorityRoundTrip(b: Body)
    ensures AuthorityFromDict(AuthorityToDict(b)) ==
      Some(Authority(b.authorityKind, Kept(b).authorityMechanism, Kept(b).binding, Kept(b).ceremony))
  {
    if b.authorityKind.Some? {
      var m := AuthorityToDict(b).value.fields;
      assert KindF in m;
      if b.binding.Some? { BindingRoundTrip(b.binding.value); }
    }
  }

  lemma {:induction false} HeaderRoundTrip(m: map<Field, Json>, h: Header)
    requires forall f :: f in HeaderToDict(h) ==> f in m && m[f] == HeaderToDict(h)[f]
    ensures HeaderFromDict(m) == Some(h)
  {
    var d := HeaderToDict(h);
    assert OrderIdF in d && CartHashF in d && QuoteHashF in d && TotalMinorF in d && CurrencyF in d;
    assert MerchantDomainF in d && ExpiryUtcF in d && AgentIdF in d && ConsumerIdF in d;
  }

  lemma {:induction false} FieldsOfDocument(b: Body)
    ensures var m := ToDict(b).fields;
      && (forall f :: f in HeaderToDict(b.header) ==> f in m && m[f] == HeaderToDict(b.header)[f])
      && Get(m, ChecksF) == Some(List(Map(b.checks, CheckToDict())))
      && Get(m, AuthorityF) == AuthorityToDict(b)
      && Get(m, ReasonCodeF) == ReasonText(b.reasonCode)
  {
    var h := HeaderToDict(b.header);
    assert ChecksF !in h && AuthorityF !in h && ReasonCodeF !in h;
  }

  /** Reading what was written gives the Transcript back, less what writing forgets. */
  lemma {:induction false} ReadingWhatWasWritten(b: Body)
    ensures FromDict(ToDict(b)) == Some(Kept(b))
  {
    var m := ToDict(b).fields;
    FieldsOfDocument(b);
    HeaderRoundTrip(m, b.header);
    ChecksRoundTrip(b.checks);
    AuthorityRoundTrip(b);
    Assembled(m, b);
  }

  lemma {:induction false} Assembled(m: map<Field, Json>, b: Body)
    requires HeaderFromDict(m) == Some(b.header)
    requires Get(m, ChecksF).Some? && Get(m, ChecksF).value.List? && ChecksFromDict(Get(m, ChecksF).value.items) == Some(b.checks)
    requires AuthorityFromDict(Get(m, AuthorityF)) == Some(Authority(b.authorityKind, Kept(b).authorityMechanism, Kept(b).binding, Kept(b).ceremony))
    requires Get(m, ReasonCodeF) == ReasonText(b.reasonCode)
    ensures FromDict(Obj(m)) == Some(Kept(b))
  {
    assert ReasonFromDict(Get(m, ReasonCodeF)) == Some(b.reasonCode);
  }

  /** The document is the same however often it is read and written again. */
  lemma {:induction false} DocumentsAreStable(b: Body)
    ensures FromDict(ToDict(b)).Some? && ToDict(FromDict(ToDict(b)).value) == ToDict(b)
  {
    ReadingWhatWasWritten(b);
  }

  /** Exactly when nothing is forgotten. */
  lemma {:induction false} RoundTripExactly(b: Body)
    ensures FromDict(ToDict(b)) == Some(b) <==>
      && (b.authorityKind == None ==> b.authorityMechanism == None && b.binding == None && b.ceremony == None)
      && b.ceremony != Some("")
  {
    ReadingWhatWasWritten(b);
  }

  /** Equal documents are of Transcripts that differ in forgotten things alone. */
  lemma {:induction false} DocumentsTellApart(b: Body, c: Body)
    requires ToDict(b) == ToDict(c)
    ensures Kept(b) == Kept(c)
  {
    ReadingWhatWasWritten(b);
    ReadingWhatWasWritten(c);
  }

  // ----- the checkout row -----

  datatype Decision<Q> = Decision(transcript: Body, quote: Q, quoteBytes: string, cartHash: string, permitted: bool)

  datatype Stored<Q> = Stored(transcript: Json, quote: Q, quoteBytes: string, cartHash: string, permitted: bool)

  datatype Row<C, Q> = Row(checkout: C, decision: Option<Stored<Q>>)

  function Write<Q>(d: Decision<Q>): Stored<Q> { Stored(ToDict(d.transcript), d.quote, d.quoteBytes, d.cartHash, d.permitted) }

  function ReadBack<Q>(s: Stored<Q>): Option<Decision<Q>> {
    match FromDict(s.transcript)
    case None => None
    case Some(t) => Some(Decision(t, s.quote, s.quoteBytes, s.cartHash, s.permitted))
  }

  /** Insert or update; without a decision the column is left alone. */
  function Saved<C, Q>(rows: map<string, Row<C, Q>>, orderId: string, checkout: C, decision: Option<Decision<Q>>): map<string, Row<C, Q>> {
    var before := if orderId in rows then rows[orderId].decision else None;
    rows[orderId := Row(checkout, if decision.Some? then Some(Write(decision.value)) else before)]
  }

  class CheckoutStore<C, Q> {
    var rows: map<string, Row<C, Q>>

    constructor ()
      ensures rows == map[]
    {
      rows := map[];
    }

    method Save(orderId: string, checkout: C, decision: Option<Decision<Q>>)
      modifies this
      ensures rows == Saved(old(rows), orderId, checkout, decision)
    {
      if orderId in rows {
        var row := rows[orderId].(checkout := checkout);
        if decision.Some? { row := row.(decision := Some(Write(decision.value))); }
        rows := rows[orderId := row];
      } else {
        rows := rows[orderId := Row(checkout, if decision.Some? then Some(Write(decision.value)) else None)];
      }
    }

    method DecisionFor(orderId: string) returns (d: Option<Decision<Q>>)
      ensures d == if orderId in rows && rows[orderId].decision.Some? then ReadBack(rows[orderId].decision.value) else None
    {
      if orderId !in rows || rows[orderId].decision == None { return None; }
      return ReadBack(rows[orderId].decision.value);
    }
  }

  datatype SaveCall<C, Q> = SaveCall(orderId: string, checkout: C, decision: Option<Decision<Q>>)

  function AllSaved<C, Q>(calls: seq<SaveCall<C, Q>>): map<string, Row<C, Q>> {
    if calls == [] then map[]
    else
      var c := calls[|calls| - 1];
      Saved(AllSaved(calls[..|calls| - 1]), c.orderId, c.checkout, c.decision)
  }

  /** The last decision saved for an order, however many saves of its status came after. */
  function LastDecision<C, Q>(calls: seq<SaveCall<C, Q>>, orderId: string): Option<Decision<Q>> {
    if calls == [] then None
    else
      var c := calls[|calls| - 1];
      if c.orderId == orderId && c.decision.Some? then c.decision else LastDecision(calls[..|calls| - 1], orderId)
  }

  lemma {:induction false} WrittenAndRead<Q>(d: Decision<Q>)
    ensures ReadBack(Write(d)) == Some(d.(transcript := Kept(d.transcript)))
    ensures Write(d.(transcript := Kept(d.transcript))) == Write(d)
  {
    ReadingWhatWasWritten(d.transcript);
    DocumentsAreStable(d.transcript);
  }

  /** What the money is settled against is what was decided: over every run of saves the row
      of an order holds the last decision given for it, and reading it back loses nothing the
      document said. */
  lemma {:induction false} TheDecisionSurvives<C, Q>(calls: seq<SaveCall<C, Q>>, orderId: string)
    ensures var rows := AllSaved(calls);
      match LastDecision(calls, orderId)
      case None => orderId in rows ==> rows[orderId].decision == None
      case Some(d) =>
        && orderId in rows && rows[orderId].decision == Some(Write(d))
        && ReadBack(Write(d)) == Some(d.(transcript := Kept(d.transcript)))
        && Write(d.(transcript := Kept(d.transcript))) == Write(d)
  {
    if calls != [] {
      TheDecisionSurvives(calls[..|calls| - 1], orderId);
      var c := calls[|calls| - 1];
      if c.decision.Some? { WrittenAndRead(c.decision.value); }
    }
  }

  /** The last save of an order. */
  function LastSave<C, Q>(calls: seq<SaveCall<C, Q>>, orderId: string): Option<SaveCall<C, Q>> {
    if calls == [] then None
    else if calls[|calls| - 1].orderId == orderId then Some(calls[|calls| - 1])
    else LastSave(calls[..|calls| - 1], orderId)
  }

  /** Over every run of saves there is a row for exactly the orders that were saved, and it holds
      the checkout saved last. */
  lemma {:induction false} TheRowIsTheLastSave<C, Q>(calls: seq<SaveCall<C, Q>>, orderId: string)
    ensures orderId in AllSaved(calls) <==> LastSave(calls, orderId).Some?
    ensures orderId in AllSaved(calls) ==> AllSaved(calls)[orderId].checkout == LastSave(calls, orderId).value.checkout
  {
    if calls != [] { TheRowIsTheLastSave(calls[..|calls| - 1], orderId); }
  }
}
