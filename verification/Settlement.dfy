/** `settle` and `collect`: the two ways money finishes moving. */
module Settlement {
  import opened Wrappers
  import opened Transcript
  import opened Ledger
  import G = Gate

  /** What the Provider says happened. */
  datatype ProviderRecord = ProviderRecord(amountMinor: int, currency: string, succeeded: bool)

  datatype Verdict = Paid | Failed | Raised

  /** A decision as settling sees it: the Transcript and the pinned Quote's total. */
  datatype Terms = Terms(transcript: Body, totalMinor: int, currency: string)

  datatype After = After(transcript: Body, rows: seq<Row>, verdict: Verdict)

  const ATTEMPT: string := "1"

  function CaptureOf(order: string, amountMinor: int, currency: string, withoutReserve: bool): Write {
    Write(CAPTURE, order, amountMinor, currency, ATTEMPT, withoutReserve)
  }

  /** Let go of exactly what the order holds, if it holds anything. */
  function ReleasedIfHeld(rows: seq<Row>, order: string, currency: string): seq<Row> {
    var held := OpenHolds(Of(rows, order));
    if held > 0 then Apply(rows, Write(RELEASE, order, held, currency, ATTEMPT, false)) else rows
  }

  predicate Reconciles(t: Terms, record: ProviderRecord) {
    record.succeeded && record.currency == t.currency && record.amountMinor == t.totalMinor
  }

  function SettleSpec(t: Terms, record: ProviderRecord, rows: seq<Row>): After {
    var order := t.transcript.header.orderId;
    if !Reconciles(t, record) then After(t.transcript, ReleasedIfHeld(rows, order, t.currency), Failed)
    else
      var resolved := t.transcript.(checks := ResolvedAll(t.transcript.checks));
      if resolved.authorityKind == None then After(resolved, rows, Raised)
      else
        match BindingFor(resolved.authorityKind.value, resolved.authorityMechanism)
        case None => After(resolved, rows, Raised)
        case Some((binding, _)) =>
          var bound := resolved.(binding := Some(binding));
          if !Complete(bound.checks) then After(bound, rows, Raised)
          else
            var w := CaptureOf(order, record.amountMinor, record.currency, false);
            if Refusal(Of(rows, order), w).Some? then After(bound, rows, Raised)
            else After(bound, Apply(rows, w), Paid)
  }

  function CollectSpec(t: Terms, rows: seq<Row>): After {
    var order := t.transcript.header.orderId;
    if t.transcript.authorityKind != Some(ConfirmedIntent) || !Complete(t.transcript.checks) then
      After(t.transcript, rows, Raised)
    else
      var w := CaptureOf(order, t.totalMinor, t.currency, true);
      if Refusal(Of(rows, order), w).Some? then After(t.transcript, rows, Raised)
      else After(t.transcript, Apply(rows, w), Paid)
  }

  method ReleaseIfHeld(table: Table, order: string, currency: string)
    modifies table
    ensures table.rows == ReleasedIfHeld(old(table.rows), order, currency)
  {
    var reserved, captured, refunded, closing := table.Position(order);
    var held := reserved - closing;
    if held > 0 {
      var refusal := table.Release(order, held, currency, ATTEMPT);
    }
  }

  /** Verify the Provider's record, resolve what was deferred, record the Binding, capture. */
  method Settle(log: Log, totalMinor: int, currency: string, record: ProviderRecord, table: Table) returns (verdict: Verdict)
    modifies log, table
    ensures After(log.Value(), table.rows, verdict)
         == SettleSpec(Terms(old(log.Value()), totalMinor, currency), record, old(table.rows))
  {
    if !record.succeeded {
      ReleaseIfHeld(table, log.header.orderId, currency);
      return Failed;
    }
    if record.currency != currency || record.amountMinor != totalMinor {
      ReleaseIfHeld(table, log.header.orderId, currency);
      return Failed;
    }
    log.ResolveAll();
    if log.authorityKind == None { return Raised; }
    var binding := BindingFor(log.authorityKind.value, log.authorityMechanism);
    if binding == None { return Raised; }
    log.binding := Some(binding.value.0);
    if !Complete(log.checks) { return Raised; }
    var refusal := table.Capture(log.header.orderId, record.amountMinor, record.currency, ATTEMPT, false);
    return if refusal.Some? then Raised else Paid;
  }

  /** Cash at the door: one capture with no hold behind it, and no check run. */
  method Collect(log: Log, totalMinor: int, currency: string, table: Table) returns (verdict: Verdict)
    modifies table
    ensures After(log.Value(), table.rows, verdict)
         == CollectSpec(Terms(log.Value(), totalMinor, currency), old(table.rows))
  {
    if log.authorityKind != Some(ConfirmedIntent) { return Raised; }
    if !Complete(log.checks) { return Raised; }
    var refusal := table.Capture(log.header.orderId, totalMinor, currency, ATTEMPT, true);
    return if refusal.Some? then Raised else Paid;
  }

  /** No capture happens with a check still deferred, out of order or failed to bind. */
  lemma {:induction false} NoDeferredCapture(t: Terms, record: ProviderRecord, rows: seq<Row>)
    ensures var after := SettleSpec(t, record, rows);
      && (after.verdict == Paid ==> NothingDeferred(after.transcript.checks) && after.transcript.binding.Some?)
      && (after.verdict != Paid ==> forall r :: r in after.rows && r !in rows ==> r.kind == RELEASE)
    ensures var after := CollectSpec(t, rows);
      && (after.verdict == Paid ==> NothingDeferred(after.transcript.checks))
      && (after.verdict != Paid ==> after.rows == rows)
  {
  }

  lemma {:induction false} PermittedIsComplete(t: Body)
    requires G.PermittedShape(t)
    ensures Complete(ResolvedAll(t.checks))
    ensures t.authorityKind != Some(UpiPin) ==> Complete(t.checks)
  {
    assert Checks(ResolvedAll(t.checks)) == Checks(t.checks);
    assert |t.checks| == 12;
    assert GATE_CHECK_ORDER[..12] == GATE_CHECK_ORDER;
  }

  /** For a decision the Gate permitted, the money settles exactly when the Provider's
      record reconciles and the order holds at least the amount, and more than nothing. */
  lemma {:induction false} SettlesExactly(t: Terms, record: ProviderRecord, rows: seq<Row>)
    requires G.PermittedShape(t.transcript) && t.totalMinor >= 0
    ensures SettleSpec(t, record, rows).verdict == Paid <==>
      && Reconciles(t, record)
      && 0 < OpenHolds(Of(rows, t.transcript.header.orderId))
      && t.totalMinor <= OpenHolds(Of(rows, t.transcript.header.orderId))
    ensures SettleSpec(t, record, rows).verdict == Failed <==> !Reconciles(t, record)
  {
    PermittedIsComplete(t.transcript);
  }

  /** What settling leaves of a decision the Gate permitted. When it settles: every deferred check a
      pass and every other record as it was, the Binding of the kind that authorised it, and one
      capture of the total that closes what it covers. When the record does not reconcile: the
      Transcript as it was and whatever the order held let go. */
  lemma {:induction false} WhatSettlingLeaves(t: Terms, record: ProviderRecord, rows: seq<Row>)
    requires G.PermittedShape(t.transcript)
    ensures var after, order := SettleSpec(t, record, rows), t.transcript.header.orderId;
      && (after.verdict == Paid ==>
            && record == ProviderRecord(t.totalMinor, t.currency, true)
            && after.transcript == t.transcript.(checks := after.transcript.checks, binding := after.transcript.binding)
            && |after.transcript.checks| == |t.transcript.checks|
            && (forall i :: 0 <= i < |t.transcript.checks| ==>
                  after.transcript.checks[i] == if t.transcript.checks[i].result == DEFERRED
                    then t.transcript.checks[i].(result := PASS) else t.transcript.checks[i])
            && after.transcript.binding == Some(
                 if t.transcript.authorityKind == Some(UpiPin) then Binding(BindsAmount, ByPayerBank)
                 else if t.transcript.authorityMechanism == Some(UpiVerify) then Binding(BindsNothing, ByPayerBank)
                 else Binding(BindsCart, ByPayerDevice))
            && (!HasKey(rows, EntryKey(order, CAPTURE, "1")) ==>
                  after.rows == rows + [Row(CAPTURE, order, t.totalMinor, t.currency, EntryKey(order, CAPTURE, "1"), true)])
            && (HasKey(rows, EntryKey(order, CAPTURE, "1")) ==> after.rows == rows))
      && (after.verdict == Failed ==>
            && after.transcript == t.transcript
            && (OpenHolds(Of(rows, order)) <= 0 ==> after.rows == rows)
            && (OpenHolds(Of(rows, order)) > 0 && !HasKey(rows, EntryKey(order, RELEASE, "1")) ==>
                  after.rows == rows + [Row(RELEASE, order, OpenHolds(Of(rows, order)), t.currency, EntryKey(order, RELEASE, "1"), true)]))
      && (after.verdict == Raised ==> after.rows == rows)
  {
  }

  /** Cash for a decision the Gate permitted is collected if and only if the order was confirmed for
      cash and no open hold is smaller than the total; it leaves one capture of the total, and a
      refusal leaves nothing. */
  lemma {:induction false} CollectsExactly(t: Terms, rows: seq<Row>)
    requires G.PermittedShape(t.transcript) && t.totalMinor >= 0
    ensures var after, order := CollectSpec(t, rows), t.transcript.header.orderId;
      var open := OpenHolds(Of(rows, order));
      && (after.verdict == Paid <==> t.transcript.authorityKind == Some(ConfirmedIntent) && (open <= 0 || t.totalMinor <= open))
      && after.verdict != Failed && after.transcript == t.transcript
      && (after.verdict == Raised ==> after.rows == rows)
      && (after.verdict == Paid && !HasKey(rows, EntryKey(order, CAPTURE, "1")) ==>
            after.rows == rows + [Row(CAPTURE, order, t.totalMinor, t.currency, EntryKey(order, CAPTURE, "1"), open > 0)])
  {
    PermittedIsComplete(t.transcript);
  }
}
