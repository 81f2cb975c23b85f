/** The sealed receipt: five sections, each link covering the link before it, the section's
    name and its canonical payload. The hash and the canonical form are parameters; nothing is
    assumed of the hash but that it writes hexadecimal. */
module Bundle {
  import opened Wrappers
  import opened Text

  /** Money events are a list that grows; every other section is one document. */
  datatype Payload = Moved(entries: seq<string>, paidBy: string, merchantAsserted: bool) | Document(text: string)

  datatype Section = Section(name: string, payload: Payload, link: string)

  const SECTION_ORDER: seq<string> := ["bought", "tapped", "decided", "told", "moved"]

  datatype Scheme = Scheme(hash: string -> string, canonical: Payload -> string)

  /** A hexadecimal digest is never empty and holds no separator; two payloads never share a
      canonical form. */
  ghost predicate Proper(h: Scheme) {
    && (forall s :: h.hash(s) != "" && '|' !in h.hash(s))
    && (forall p, q :: h.canonical(p) == h.canonical(q) ==> p == q)
  }

  function Material(h: Scheme, previous: string, name: string, payload: Payload): string {
    previous + "|" + name + "|" + h.canonical(payload)
  }

  function Chain(h: Scheme, previous: string, name: string, payload: Payload): string {
    h.hash(Material(h, previous, name, payload))
  }

  function Head(sections: seq<Section>): string {
    if sections == [] then "" else sections[|sections| - 1].link
  }

  /** What the last section's link was computed over. */
  function LastMaterial(h: Scheme, sections: seq<Section>): string
    requires sections != []
  {
    var n := |sections| - 1;
    Material(h, Head(sections[..n]), sections[n].name, sections[n].payload)
  }

  /** Every link recomputes, and no name holds the separator. */
  predicate Recomputes(h: Scheme, sections: seq<Section>) {
    sections == [] ||
    var n := |sections| - 1;
      && sections[n].link == h.hash(LastMaterial(h, sections))
      && '|' !in sections[n].name
      && Recomputes(h, sections[..n])
  }

  function Names(sections: seq<Section>): (names: seq<string>)
    ensures |names| == |sections|
  {
    if sections == [] then [] else Names(sections[..|sections| - 1]) + [sections[|sections| - 1].name]
  }

  lemma {:induction false} NamesSnoc(sections: seq<Section>, s: Section)
    ensures Names(sections + [s]) == Names(sections) + [s.name]
  {
    assert (sections + [s])[..|sections|] == sections;
  }

  lemma {:induction false} RecomputesSnoc(h: Scheme, sections: seq<Section>, name: string, payload: Payload)
    requires Recomputes(h, sections) && '|' !in name
    ensures Recomputes(h, sections + [Section(name, payload, Chain(h, Head(sections), name, payload))])
  {
    var all := sections + [Section(name, payload, Chain(h, Head(sections), name, payload))];
    assert all[..|sections|] == sections;
  }

  // ----- tamper evidence -----

  /** Walk two chains back from their heads to the first pair of links that agree over
      different texts. */
  function FindCollision(h: Scheme, xs: seq<Section>, ys: seq<Section>): Option<(string, string)> {
    if xs == [] || ys == [] then None
    else if LastMaterial(h, xs) != LastMaterial(h, ys) then Some((LastMaterial(h, xs), LastMaterial(h, ys)))
    else FindCollision(h, xs[..|xs| - 1], ys[..|ys| - 1])
  }

  /** The framing has one reading. */
  lemma {:induction false} MaterialSplits(h: Scheme, p: string, m: string, a: Payload, q: string, n: string, b: Payload)
    requires Proper(h) && '|' !in p && '|' !in m && '|' !in q && '|' !in n
    requires Material(h, p, m, a) == Material(h, q, n, b)
    ensures p == q && m == n && a == b
  {
    var x, y := m + "|" + h.canonical(a), n + "|" + h.canonical(b);
    assert Material(h, p, m, a) == p + ['|'] + x && Material(h, q, n, b) == q + ['|'] + y;
    FirstSplit(p, x, q, y, '|');
    FirstSplit(m, h.canonical(a), n, h.canonical(b), '|');
  }

  lemma {:induction false} HeadIsPlain(h: Scheme, sections: seq<Section>)
    requires Proper(h) && Recomputes(h, sections)
    ensures '|' !in Head(sections) && (Head(sections) == "" <==> sections == [])
  {
  }

  /** Equal last materials: equal last sections, on chains that end alike before them. */
  lemma {:induction false} SameLastSection(h: Scheme, xs: seq<Section>, ys: seq<Section>)
    requires Proper(h) && Recomputes(h, xs) && Recomputes(h, ys) && xs != [] && ys != []
    requires LastMaterial(h, xs) == LastMaterial(h, ys)
    ensures xs[|xs| - 1] == ys[|ys| - 1] && Head(xs[..|xs| - 1]) == Head(ys[..|ys| - 1])
  {
    var front, back := xs[..|xs| - 1], ys[..|ys| - 1];
    var x, y := xs[|xs| - 1], ys[|ys| - 1];
    HeadIsPlain(h, front);
    HeadIsPlain(h, back);
    MaterialSplits(h, Head(front), x.name, x.payload, Head(back), y.name, y.payload);
  }

  /** Different last materials under one head are the collision. */
  lemma {:induction false} DifferentLastMaterials(h: Scheme, xs: seq<Section>, ys: seq<Section>)
    requires Recomputes(h, xs) && Recomputes(h, ys) && xs != [] && ys != [] && Head(xs) == Head(ys)
    requires LastMaterial(h, xs) != LastMaterial(h, ys)
    ensures Collides(h, FindCollision(h, xs, ys))
  {
  }

  predicate Collides(h: Scheme, found: Option<(string, string)>) {
    found.Some? && found.value.0 != found.value.1 && h.hash(found.value.0) == h.hash(found.value.1)
  }

  /** Tamper evidence as a reduction, for chains of any length: two chains whose links all
      recompute and whose heads are equal are the same sections, or two different texts with
      one hash have been found. */
  lemma {:induction false} EqualHeadsOrACollision(h: Scheme, xs: seq<Section>, ys: seq<Section>)
    requires Proper(h) && Recomputes(h, xs) && Recomputes(h, ys) && Head(xs) == Head(ys)
    ensures xs == ys || Collides(h, FindCollision(h, xs, ys))
  {
    HeadIsPlain(h, xs);
    HeadIsPlain(h, ys);
    if xs != [] {
      if LastMaterial(h, xs) == LastMaterial(h, ys) {
        SameLastSection(h, xs, ys);
        EqualHeadsOrACollision(h, xs[..|xs| - 1], ys[..|ys| - 1]);
        assert xs == xs[..|xs| - 1] + [xs[|xs| - 1]] && ys == ys[..|ys| - 1] + [ys[|ys| - 1]];
      } else {
        DifferentLastMaterials(h, xs, ys);
      }
    }
  }

  // ----- building -----

  datatype Receipt = Receipt(receiptId: string, version: nat, domain: string, sections: seq<Section>, jwks: string, demo: bool)

  datatype BuildError = OutOfOrder(expected: string) | TooMany | Unfinished(missing: seq<string>)

  /** What building keeps: the links recompute and the names are in order. */
  predicate InOrder(h: Scheme, sections: seq<Section>) {
    && |sections| <= |SECTION_ORDER|
    && Recomputes(h, sections)
    && Names(sections) == SECTION_ORDER[..|sections|]
  }

  lemma {:induction false} NextInOrder(h: Scheme, sections: seq<Section>, payload: Payload)
    requires InOrder(h, sections) && |sections| < |SECTION_ORDER|
    ensures var name := SECTION_ORDER[|sections|];
      InOrder(h, sections + [Section(name, payload, Chain(h, Head(sections), name, payload))])
  {
    var name := SECTION_ORDER[|sections|];
    var s := Section(name, payload, Chain(h, Head(sections), name, payload));
    RecomputesSnoc(h, sections, name, payload);
    NamesSnoc(sections, s);
    assert SECTION_ORDER[..|sections|] + [name] == SECTION_ORDER[..|sections| + 1];
  }

  class Builder {
    const scheme: Scheme
    const receiptId: string
    const domain: string
    const demo: bool
    var sections: seq<Section>

    predicate Valid()
      reads this
    {
      InOrder(scheme, sections)
    }

    constructor (scheme: Scheme, receiptId: string, domain: string, demo: bool)
      ensures Valid() && sections == [] && this.scheme == scheme
    {
      this.scheme, this.receiptId, this.domain, this.demo := scheme, receiptId, domain, demo;
      sections := [];
    }

    /** Sections are sealed in order, or not at all. */
    method Add(name: string, payload: Payload) returns (refusal: Option<BuildError>)
      requires Valid()
      modifies this
      ensures Valid()
      ensures refusal == None <==> |old(sections)| < 5 && name == SECTION_ORDER[|old(sections)|]
      ensures refusal == None ==> |sections| == |old(sections)| + 1 && sections[..|old(sections)|] == old(sections)
      ensures refusal == None ==> sections[|old(sections)|].name == name && sections[|old(sections)|].payload == payload
      ensures refusal.Some? ==> sections == old(sections)
    {
      if |sections| >= |SECTION_ORDER| { return Some(TooMany); }
      var expected := SECTION_ORDER[|sections|];
      if name != expected { return Some(OutOfOrder(expected)); }
      NextInOrder(scheme, sections, payload);
      sections := sections + [Section(name, payload, Chain(scheme, Head(sections), name, payload))];
      return None;
    }

    method Seal(jwks: string, version: nat) returns (r: Result<Receipt, BuildError>)
      requires Valid()
      ensures r.Ok? <==> |sections| == 5
      ensures r.Ok? ==> Recomputes(scheme, r.value.sections) && Names(r.value.sections) == SECTION_ORDER
      ensures r.Ok? ==> r.value == Receipt(receiptId, version, domain, sections, jwks, demo)
      ensures r.Err? ==> r.error == Unfinished(SECTION_ORDER[|sections|..])
    {
      if |sections| != |SECTION_ORDER| { return Err(Unfinished(SECTION_ORDER[|sections|..])); }
      assert SECTION_ORDER[..5] == SECTION_ORDER;
      return Ok(Receipt(receiptId, version, domain, sections, jwks, demo));
    }
  }

  // ----- appending money events -----

  /** A receipt as sealed: five sections in order, the last one money events. */
  predicate Sealed(h: Scheme, b: Receipt) {
    && Recomputes(h, b.sections) && |b.sections| == 5 && Names(b.sections) == SECTION_ORDER
    && b.sections[4].payload.Moved?
  }

  /** Version the receipt: every section but the last as it was, and the event at the end of
      the last. An empty key snapshot keeps the old one. */
  function AppendMovedEntry(h: Scheme, b: Receipt, entry: string, jwks: string): Receipt
    requires Sealed(h, b)
  {
    var moved := b.sections[4].payload;
    var more := moved.(entries := moved.entries + [entry]);
    var kept := b.sections[..4];
    b.(version := b.version + 1,
       sections := kept + [Section("moved", more, Chain(h, Head(kept), "moved", more))],
       jwks := if jwks != "" then jwks else b.jwks)
  }

  lemma {:induction false} AppendingKeepsSealed(h: Scheme, b: Receipt, entry: string, jwks: string)
    requires Sealed(h, b)
    ensures Sealed(h, AppendMovedEntry(h, b, entry, jwks))
  {
    var kept := b.sections[..4];
    var last := AppendMovedEntry(h, b, entry, jwks).sections[4];
    RecomputesSnoc(h, kept, "moved", last.payload);
    NamesSnoc(kept, last);
    NamesSnoc(kept, b.sections[4]);
    assert b.sections == kept + [b.sections[4]];
    assert SECTION_ORDER == SECTION_ORDER[..4] + ["moved"];
    assert Names(kept) == SECTION_ORDER[..4];
  }

  function AppendAll(h: Scheme, b: Receipt, entries: seq<string>): Receipt
    requires Sealed(h, b)
    ensures Sealed(h, AppendAll(h, b, entries))
  {
    if entries == [] then b
    else
      var before := AppendAll(h, b, entries[..|entries| - 1]);
      AppendingKeepsSealed(h, before, entries[|entries| - 1], "");
      AppendMovedEntry(h, before, entries[|entries| - 1], "")
  }

  /** However many events are appended: the chain recomputes, the first four sections and
      their links never move, the version counts the events, and they are all there in order. */
  lemma {:induction false} AppendsOnlyAdd(h: Scheme, b: Receipt, entries: seq<string>)
    requires Sealed(h, b)
    ensures var after := AppendAll(h, b, entries);
      && Recomputes(h, after.sections) && Names(after.sections) == SECTION_ORDER
      && after.sections[..4] == b.sections[..4]
      && after.version == b.version + |entries|
      && after.sections[4].payload == b.sections[4].payload.(entries := b.sections[4].payload.entries + entries)
  {
    if entries == [] {
      assert b.sections[4].payload.entries + entries == b.sections[4].payload.entries;
    } else {
      var front := entries[..|entries| - 1];
      AppendsOnlyAdd(h, b, front);
      assert AppendAll(h, b, entries) == AppendMovedEntry(h, AppendAll(h, b, front), entries[|entries| - 1], "");
      assert front + [entries[|entries| - 1]] == entries;
      assert b.sections[4].payload.entries + front + [entries[|entries| - 1]] == b.sections[4].payload.entries + entries;
    }
  }

  /** Two histories of one receipt that end in the same head are the same history, or a
      collision has been found. */
  lemma {:induction false} HistoriesShow(h: Scheme, b: Receipt, es: seq<string>, fs: seq<string>)
    requires Proper(h) && Sealed(h, b)
    requires Head(AppendAll(h, b, es).sections) == Head(AppendAll(h, b, fs).sections)
    ensures es == fs || Collides(h, FindCollision(h, AppendAll(h, b, es).sections, AppendAll(h, b, fs).sections))
  {
    AppendsOnlyAdd(h, b, es);
    AppendsOnlyAdd(h, b, fs);
    var first := b.sections[4].payload.entries;
    EqualHeadsOrACollision(h, AppendAll(h, b, es).sections, AppendAll(h, b, fs).sections);
    if first + es == first + fs {
      assert es == (first + es)[|first|..] && fs == (first + fs)[|first|..];
    }
  }
}
