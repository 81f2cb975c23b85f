/** The Ledger: append-only, one row per money event, two invariants per order. */
module Ledger {
  import opened Wrappers
  import opened Sums

  datatype Kind = RESERVE | CAPTURE | RELEASE | REFUND | REVERSAL

  /** The idempotency key `order:kind:reference`; the reference is an attempt number, or
      the refund's or reversal's own id. */
  datatype EntryKey = EntryKey(order: string, kind: Kind, reference: string)

  datatype Row = Row(kind: Kind, order: string, amountMinor: int, currency: string, key: EntryKey, closesHold: bool)

  datatype LedgerError =
    | NegativeAmount | AlreadyHolds | NoOpenHold | ExceedsHold | NotAnAmount | ExceedsRefundable

  // ----- what the rows say about one order -----

  function Of(rows: seq<Row>, order: string): seq<Row> {
    if rows == [] then []
    else
      var front, last := rows[..|rows| - 1], rows[|rows| - 1];
      if last.order == order then Of(front, order) + [last] else Of(front, order)
  }

  function AmountIf(kind: Kind): Row -> int { (r: Row) => if r.kind == kind then r.amountMinor else 0 }

  function ClosingAmount(): Row -> int { (r: Row) => if r.closesHold then r.amountMinor else 0 }

  function Sum(rows: seq<Row>, kind: Kind): int { SumBy(rows, AmountIf(kind)) }

  function OpenHolds(rows: seq<Row>): int { Sum(rows, RESERVE) - SumBy(rows, ClosingAmount()) }

  function Refundable(rows: seq<Row>): int { Sum(rows, CAPTURE) - Sum(rows, REFUND) }

  predicate HasKey(rows: seq<Row>, key: EntryKey) { exists r :: r in rows && r.key == key }

  // ----- the five writes -----

  datatype Write = Write(kind: Kind, order: string, amountMinor: int, currency: string, reference: string, withoutReserve: bool)

  function KeyOf(w: Write): EntryKey { EntryKey(w.order, w.kind, w.reference) }

  /** Why the order's own rows refuse a write. */
  function Refusal(own: seq<Row>, w: Write): Option<LedgerError> {
    var open := OpenHolds(own);
    match w.kind
    case RESERVE =>
      if Sum(own, RESERVE) != 0 && open > 0 then Some(AlreadyHolds)
      else if w.amountMinor < 0 then Some(NegativeAmount) else None
    case CAPTURE =>
      if open <= 0 && !w.withoutReserve then Some(NoOpenHold)
      else if open > 0 && w.amountMinor > open then Some(ExceedsHold)
      else if w.amountMinor < 0 then Some(NegativeAmount) else None
    case RELEASE =>
      if open <= 0 then Some(NoOpenHold)
      else if w.amountMinor > open then Some(ExceedsHold)
      else if w.amountMinor < 0 then Some(NegativeAmount) else None
    case REFUND =>
      if w.amountMinor <= 0 then Some(NotAnAmount)
      else if w.amountMinor > Refundable(own) then Some(ExceedsRefundable) else None
    case REVERSAL =>
      if w.amountMinor <= 0 then Some(NotAnAmount) else None
  }

  function RowFor(own: seq<Row>, w: Write): Row {
    Row(w.kind, w.order, w.amountMinor, w.currency, KeyOf(w),
      w.kind == RELEASE || (w.kind == CAPTURE && OpenHolds(own) > 0))
  }

  /** The rows after a write; a refused write and a repeated key change nothing. */
  function Apply(rows: seq<Row>, w: Write): seq<Row> {
    var own := Of(rows, w.order);
    if Refusal(own, w).Some? || HasKey(rows, KeyOf(w)) then rows else rows + [RowFor(own, w)]
  }

  function Run(rows: seq<Row>, ws: seq<Write>): seq<Row> {
    if ws == [] then rows else Apply(Run(rows, ws[..|ws| - 1]), ws[|ws| - 1])
  }

  // ----- invariants -----

  /** The two sums a write must keep right, for one order. */
  predicate Balanced(own: seq<Row>) {
    OpenHolds(own) >= 0 && Sum(own, REFUND) <= Sum(own, CAPTURE)
  }

  /** Keys are unique and each row is filed under its own order, nothing is negative, no
      order closes more than it held, none refunds more than it captured. */
  ghost predicate Sound(rows: seq<Row>) {
    && (forall i, j :: 0 <= i < j < |rows| ==> rows[i].key != rows[j].key)
    && (forall r :: r in rows ==> r.amountMinor >= 0 && r.key == EntryKey(r.order, r.kind, r.key.reference))
    && (forall order :: Balanced(Of(rows, order)))
  }

  lemma {:induction false} OfSnoc(rows: seq<Row>, r: Row, order: string)
    ensures Of(rows + [r], order) == if r.order == order then Of(rows, order) + [r] else Of(rows, order)
  {
    assert (rows + [r])[..|rows|] == rows;
  }

  lemma {:induction false} OfMembers(rows: seq<Row>, order: string)
    ensures forall r :: r in Of(rows, order) <==> r in rows && r.order == order
  {
    if rows != [] {
      OfMembers(rows[..|rows| - 1], order);
      assert rows == rows[..|rows| - 1] + [rows[|rows| - 1]];
    }
  }

  lemma {:induction false} SumSnocs(rows: seq<Row>, r: Row)
    ensures OpenHolds(rows + [r]) == OpenHolds(rows) + AmountIf(RESERVE)(r) - ClosingAmount()(r)
    ensures forall kind :: Sum(rows + [r], kind) == Sum(rows, kind) + AmountIf(kind)(r)
  {
    SumSnoc(rows, r, ClosingAmount());
    forall kind ensures Sum(rows + [r], kind) == Sum(rows, kind) + AmountIf(kind)(r) {
      SumSnoc(rows, r, AmountIf(kind));
    }
  }

  lemma {:induction false} WriteKeepsBalance(own: seq<Row>, w: Write)
    requires Balanced(own) && Refusal(own, w) == None
    ensures Balanced(own + [RowFor(own, w)]) && w.amountMinor >= 0
  {
    SumSnocs(own, RowFor(own, w));
  }

  /** Every write keeps the Ledger sound, appends at most one row, and touches no other
      order's rows. */
  lemma {:induction false} ApplyKeepsSound(rows: seq<Row>, w: Write)
    requires Sound(rows)
    ensures Sound(Apply(rows, w))
    ensures rows <= Apply(rows, w) && |Apply(rows, w)| <= |rows| + 1
    ensures forall order :: order != w.order ==> Of(Apply(rows, w), order) == Of(rows, order)
  {
    var own := Of(rows, w.order);
    if Apply(rows, w) != rows {
      var r := RowFor(own, w);
      WriteKeepsBalance(own, w);
      forall order
        ensures order != w.order ==> Of(rows + [r], order) == Of(rows, order)
        ensures Balanced(Of(rows + [r], order))
      {
        OfSnoc(rows, r, order);
      }
      forall i | 0 <= i < |rows| ensures rows[i].key != r.key { assert rows[i] in rows; }
    }
  }

  /** Over any run of writes, from the empty Ledger on. */
  lemma {:induction false} EveryRunIsSound(ws: seq<Write>)
    ensures Sound(Run([], ws))
  {
    if ws != [] {
      EveryRunIsSound(ws[..|ws| - 1]);
      ApplyKeepsSound(Run([], ws[..|ws| - 1]), ws[|ws| - 1]);
    }
  }

  /** A retry observes the first attempt: a write whose key is already there adds no row. */
  lemma {:induction false} RetryIsFree(rows: seq<Row>, w: Write)
    ensures Apply(Apply(rows, w), w) == Apply(rows, w)
  {
    if Apply(rows, w) != rows {
      var r := RowFor(Of(rows, w.order), w);
      assert r in rows + [r] && r.key == KeyOf(w);
    }
  }

  /** One order's rows are a ledger of their own: a write acts on them as if no other order
      existed. */
  lemma {:induction false} OrdersAreSeparate(rows: seq<Row>, w: Write)
    requires Sound(rows)
    ensures Of(Apply(rows, w), w.order) == Apply(Of(rows, w.order), w)
  {
    var own := Of(rows, w.order);
    OfMembers(rows, w.order);
    OfIsIdempotent(own, w.order);
    assert HasKey(rows, KeyOf(w)) <==> HasKey(own, KeyOf(w)) by {
      if HasKey(rows, KeyOf(w)) {
        var r :| r in rows && r.key == KeyOf(w);
        assert r in own;
      }
    }
    OfSnoc(rows, RowFor(own, w), w.order);
  }

  lemma {:induction false} OfIsIdempotent(rows: seq<Row>, order: string)
    requires forall r :: r in rows ==> r.order == order
    ensures Of(rows, order) == rows
  {
    if rows != [] {
      OfIsIdempotent(rows[..|rows| - 1], order);
      assert rows == rows[..|rows| - 1] + [rows[|rows| - 1]];
    }
  }

  // ----- the table -----

  class Table {
    var rows: seq<Row>

    constructor ()
      ensures rows == []
    {
      rows := [];
    }

    /** The order's position, computed from the rows every time. */
    method Position(order: string) returns (reserved: int, captured: int, refunded: int, closing: int)
      ensures reserved == Sum(Of(rows, order), RESERVE)
      ensures captured == Sum(Of(rows, order), CAPTURE)
      ensures refunded == Sum(Of(rows, order), REFUND)
      ensures closing == SumBy(Of(rows, order), ClosingAmount())
    {
      reserved, captured, refunded, closing := 0, 0, 0, 0;
      for i := 0 to |rows|
        invariant reserved == Sum(Of(rows[..i], order), RESERVE)
        invariant captured == Sum(Of(rows[..i], order), CAPTURE)
        invariant refunded == Sum(Of(rows[..i], order), REFUND)
        invariant closing == SumBy(Of(rows[..i], order), ClosingAmount())
      {
        var r := rows[i];
        assert rows[..i + 1] == rows[..i] + [r];
        OfSnoc(rows[..i], r, order);
        SumSnocs(Of(rows[..i], order), r);
        SumSnoc(Of(rows[..i], order), r, ClosingAmount());
        if r.order == order {
          if r.kind == RESERVE { reserved := reserved + r.amountMinor; }
          if r.kind == CAPTURE { captured := captured + r.amountMinor; }
          if r.kind == REFUND { refunded := refunded + r.amountMinor; }
          if r.closesHold { closing := closing + r.amountMinor; }
        }
      }
      assert rows[..|rows|] == rows;
    }

    /** Insert unless the unique key is taken. */
    method Append(r: Row)
      modifies this
      ensures rows == if HasKey(old(rows), r.key) then old(rows) else old(rows) + [r]
    {
      if !HasKey(rows, r.key) {
        rows := rows + [r];
      }
    }

    method Reserve(order: string, amountMinor: int, currency: string, reference: string) returns (refusal: Option<LedgerError>)
      modifies this
      ensures var w := Write(RESERVE, order, amountMinor, currency, reference, false);
        && rows == Apply(old(rows), w)
        && refusal == Refusal(Of(old(rows), order), w)
    {
      var reserved, captured, refunded, closing := Position(order);
      if reserved != 0 && reserved - closing > 0 { return Some(AlreadyHolds); }
      if amountMinor < 0 { return Some(NegativeAmount); }
      Append(Row(RESERVE, order, amountMinor, currency, EntryKey(order, RESERVE, reference), false));
      return None;
    }

    method Capture(order: string, amountMinor: int, currency: string, reference: string, withoutReserve: bool)
      returns (refusal: Option<LedgerError>)
      modifies this
      ensures var w := Write(CAPTURE, order, amountMinor, currency, reference, withoutReserve);
        && rows == Apply(old(rows), w)
        && refusal == Refusal(Of(old(rows), order), w)
    {
      var reserved, captured, refunded, closing := Position(order);
      var open := reserved - closing;
      if open <= 0 && !withoutReserve { return Some(NoOpenHold); }
      if open > 0 && amountMinor > open { return Some(ExceedsHold); }
      if amountMinor < 0 { return Some(NegativeAmount); }
      Append(Row(CAPTURE, order, amountMinor, currency, EntryKey(order, CAPTURE, reference), open > 0));
      return None;
    }

    method Release(order: string, amountMinor: int, currency: string, reference: string) returns (refusal: Option<LedgerError>)
      modifies this
      ensures var w := Write(RELEASE, order, amountMinor, currency, reference, false);
        && rows == Apply(old(rows), w)
        && refusal == Refusal(Of(old(rows), order), w)
    {
      var reserved, captured, refunded, closing := Position(order);
      var open := reserved - closing;
      if open <= 0 { return Some(NoOpenHold); }
      if amountMinor > open { return Some(ExceedsHold); }
      if amountMinor < 0 { return Some(NegativeAmount); }
      Append(Row(RELEASE, order, amountMinor, currency, EntryKey(order, RELEASE, reference), true));
      return None;
    }

    method Refund(order: string, amountMinor: int, currency: string, refundId: string) returns (refusal: Option<LedgerError>)
      modifies this
      ensures var w := Write(REFUND, order, amountMinor, currency, refundId, false);
        && rows == Apply(old(rows), w)
        && refusal == Refusal(Of(old(rows), order), w)
    {
      if amountMinor <= 0 { return Some(NotAnAmount); }
      var reserved, captured, refunded, closing := Position(order);
      if amountMinor > captured - refunded { return Some(ExceedsRefundable); }
      Append(Row(REFUND, order, amountMinor, currency, EntryKey(order, REFUND, refundId), false));
      return None;
    }

    method Reversal(order: string, amountMinor: int, currency: string, reversalId: string) returns (refusal: Option<LedgerError>)
      modifies this
      ensures var w := Write(REVERSAL, order, amountMinor, currency, reversalId, false);
        && rows == Apply(old(rows), w)
        && refusal == Refusal(Of(old(rows), order), w)
    {
      if amountMinor <= 0 { return Some(NotAnAmount); }
      Append(Row(REVERSAL, order, amountMinor, currency, EntryKey(order, REVERSAL, reversalId), false));
      return None;
    }
  }

  // ----- which writes are taken, and what they leave -----

  /** By the order's own sums: a reserve while nothing is open; a capture within the open hold, or
      without one where that is allowed; a release of at most the open hold; a refund of at most
      what is left of the captures, up to all of it; any positive reversal. */
  lemma {:induction false} TakenExactly(own: seq<Row>, w: Write)
    requires forall r :: r in own ==> r.amountMinor >= 0
    ensures Refusal(own, w) == None <==>
      match w.kind
      case RESERVE => w.amountMinor >= 0 && (Sum(own, RESERVE) == 0 || OpenHolds(own) <= 0)
      case CAPTURE => w.amountMinor >= 0 && (if OpenHolds(own) > 0 then w.amountMinor <= OpenHolds(own) else w.withoutReserve)
      case RELEASE => 0 < OpenHolds(own) && 0 <= w.amountMinor <= OpenHolds(own)
      case REFUND => 0 < w.amountMinor <= Sum(own, CAPTURE) - Sum(own, REFUND)
      case REVERSAL => 0 < w.amountMinor
  {
  }

  /** A taken write under a new key is one row of exactly that amount, and the order's sums move by
      it: a reserve opens, a release closes, a capture closes what it covers of an open hold. */
  lemma {:induction false} WhatAWriteLeaves(rows: seq<Row>, w: Write)
    requires Refusal(Of(rows, w.order), w) == None && !HasKey(rows, KeyOf(w))
    ensures var before, after := Of(rows, w.order), Of(Apply(rows, w), w.order);
      && after == before + [after[|before|]]
      && after[|before|].kind == w.kind && after[|before|].amountMinor == w.amountMinor && after[|before|].currency == w.currency
      && OpenHolds(after) == OpenHolds(before)
           + (if w.kind == RESERVE then w.amountMinor else 0)
           - (if w.kind == RELEASE || (w.kind == CAPTURE && OpenHolds(before) > 0) then w.amountMinor else 0)
      && (forall kind :: Sum(after, kind) == Sum(before, kind) + if kind == w.kind then w.amountMinor else 0)
  {
    var r := RowFor(Of(rows, w.order), w);
    OfSnoc(rows, r, w.order);
    SumSnocs(Of(rows, w.order), r);
  }

  /** Everything that is left of the captures can be refunded in one write, and then nothing more. */
  lemma {:induction false} FullRefund(rows: seq<Row>, order: string, currency: string, refundId: string, again: Write)
    requires Refundable(Of(rows, order)) > 0 && !HasKey(rows, EntryKey(order, REFUND, refundId))
    requires again.kind == REFUND && again.order == order
    ensures var w := Write(REFUND, order, Refundable(Of(rows, order)), currency, refundId, false);
      && Refusal(Of(rows, order), w) == None
      && Refundable(Of(Apply(rows, w), order)) == 0
      && Refusal(Of(Apply(rows, w), order), again).Some?
  {
    WhatAWriteLeaves(rows, Write(REFUND, order, Refundable(Of(rows, order)), currency, refundId, false));
  }
}
