/** The REST face of the adapter: replay, then run, then remember. The doors themselves are a
    parameter, so what is proved holds of any ten doors. */
module DoorReplay {
  import opened Wrappers
  import opened Text
  import Stock
  import Sums
  import StockRuns

  /** What a door's handler does: it answers, with a refusal or not, or it throws something
      unforeseen, having changed what it had changed. */
  datatype Outcome<S, P> = Answers(store: S, status: nat, payload: P) | Throws(store: S)

  datatype Doors<!S, !B, !P> = Doors(known: set<string>, mutating: set<string>, run: (string, S, B) -> Outcome<S, P>)

  /** `authentic` is what verifying the signature over the raw bytes said. */
  datatype Request<B> = Request(door: string, key: string, authentic: bool, body: B)

  datatype Reply<P> = Reply(status: nat, payload: P)

  datatype Response<P> = Answered(reply: Reply<P>) | NoSuchDoor | NotAuthentic | KeyRequired | CouldNotAnswer

  datatype Machine<S, P> = Machine(store: S, table: map<string, Reply<P>>)

  const KEY_COLUMN: nat := 191

  /** The table's key, scoped by door and cut to its column. */
  function Compose(door: string, key: string): string {
    var s := door + ":" + key;
    if |s| <= KEY_COLUMN then s else s[..KEY_COLUMN]
  }

  /** Uncut, a composed key names one door and one key. */
  lemma {:induction false} ComposeScopes(door: string, key: string, door': string, key': string)
    requires ':' !in door && ':' !in door'
    requires |door| + 1 + |key| <= KEY_COLUMN && |door'| + 1 + |key'| <= KEY_COLUMN
    requires Compose(door, key) == Compose(door', key')
    ensures door == door' && key == key'
  {
    assert door + ":" + key == door + [':'] + key && door' + ":" + key' == door' + [':'] + key';
    FirstSplit(door, key, door', key', ':');
  }

  /** Whether a request gets as far as the replay table. */
  predicate Keyed<S, B, P>(d: Doors<S, B, P>, r: Request<B>) {
    r.door in d.known && r.authentic && r.door in d.mutating && r.key != ""
  }

  /** The answer a request is refused with before any door runs. */
  function Early<S, B, P>(d: Doors<S, B, P>, r: Request<B>): Option<Response<P>> {
    if r.door !in d.known then Some(NoSuchDoor)
    else if !r.authentic then Some(NotAuthentic)
    else if r.door in d.mutating && r.key == "" then Some(KeyRequired)
    else None
  }

  /** `INSERT IGNORE`: the first writer wins. */
  function Remembered<P>(table: map<string, Reply<P>>, k: string, reply: Reply<P>): map<string, Reply<P>> {
    if k in table then table else table[k := reply]
  }

  function RunDoor<S, B, P>(d: Doors<S, B, P>, m: Machine<S, P>, r: Request<B>): (Machine<S, P>, Response<P>) {
    match d.run(r.door, m.store, r.body)
    case Throws(store) => (m.(store := store), CouldNotAnswer)
    case Answers(store, status, payload) =>
      var reply := Reply(status, payload);
      (Machine(store, if Keyed(d, r) then Remembered(m.table, Compose(r.door, r.key), reply) else m.table), Answered(reply))
  }

  predicate Replays<S, B, P>(d: Doors<S, B, P>, m: Machine<S, P>, r: Request<B>) {
    Keyed(d, r) && Compose(r.door, r.key) in m.table
  }

  function Handle<S, B, P>(d: Doors<S, B, P>, m: Machine<S, P>, r: Request<B>): (Machine<S, P>, Response<P>) {
    var early := Early(d, r);
    if early.Some? then (m, early.value)
    else if Replays(d, m, r) then (m, Answered(m.table[Compose(r.door, r.key)]))
    else RunDoor(d, m, r)
  }

  class Controller<S, B, P> {
    const doors: Doors<S, B, P>
    var store: S
    var table: map<string, Reply<P>>

    function Value(): Machine<S, P>
      reads this
    {
      Machine(store, table)
    }

    constructor (doors: Doors<S, B, P>, store: S)
      ensures this.doors == doors && Value() == Machine(store, map[])
    {
      this.doors := doors;
      this.store, table := store, map[];
    }

    method HandleRequest(r: Request<B>) returns (response: Response<P>)
      modifies this
      ensures (Value(), response) == Handle(doors, old(Value()), r)
    {
      if r.door !in doors.known { return NoSuchDoor; }
      if !r.authentic { return NotAuthentic; }
      var k := Compose(r.door, r.key);
      if r.door in doors.mutating {
        if r.key == "" { return KeyRequired; }
        if k in table { return Answered(table[k]); }
      }
      var outcome := doors.run(r.door, store, r.body);
      store := outcome.store;
      if outcome.Throws? { return CouldNotAnswer; }
      var reply := Reply(outcome.status, outcome.payload);
      if r.door in doors.mutating && k !in table {
        table := table[k := reply];
      }
      return Answered(reply);
    }
  }

  // ----- one request at a time -----

  function Run<S, B, P>(d: Doors<S, B, P>, m: Machine<S, P>, rs: seq<Request<B>>): Machine<S, P> {
    if rs == [] then m else Handle(d, Run(d, m, rs[..|rs| - 1]), rs[|rs| - 1]).0
  }

  function AnswerAt<S, B, P>(d: Doors<S, B, P>, m: Machine<S, P>, rs: seq<Request<B>>, i: nat): Response<P>
    requires i < |rs|
  {
    Handle(d, Run(d, m, rs[..i]), rs[i]).1
  }

  /** The requests of a run that were not answered from the table. */
  function FirstAsked<S, B, P>(d: Doors<S, B, P>, m: Machine<S, P>, rs: seq<Request<B>>): seq<Request<B>> {
    if rs == [] then []
    else
      var before, r := rs[..|rs| - 1], rs[|rs| - 1];
      if Replays(d, Run(d, m, before), r) then FirstAsked(d, m, before) else FirstAsked(d, m, before) + [r]
  }

  function AllAnswers<S, B, P>(d: Doors<S, B, P>, m: Machine<S, P>, rs: seq<Request<B>>): seq<Response<P>> {
    if rs == [] then []
    else AllAnswers(d, m, rs[..|rs| - 1]) + [Handle(d, Run(d, m, rs[..|rs| - 1]), rs[|rs| - 1]).1]
  }

  /** The answers that were not replays, in order. */
  function FirstAnswers<S, B, P>(d: Doors<S, B, P>, m: Machine<S, P>, rs: seq<Request<B>>): seq<Response<P>> {
    if rs == [] then []
    else
      var before, r := rs[..|rs| - 1], rs[|rs| - 1];
      var s := Run(d, m, before);
      if Replays(d, s, r) then FirstAnswers(d, m, before) else FirstAnswers(d, m, before) + [Handle(d, s, r).1]
  }

  /** Retry transparency: take every retry out of a run, and the store, the table and every
      other answer are what they were. */
  lemma {:induction false} RetriesAreTransparent<S, B, P>(d: Doors<S, B, P>, m: Machine<S, P>, rs: seq<Request<B>>)
    ensures Run(d, m, FirstAsked(d, m, rs)) == Run(d, m, rs)
    ensures AllAnswers(d, m, FirstAsked(d, m, rs)) == FirstAnswers(d, m, rs)
  {
    if rs != [] {
      var before, r := rs[..|rs| - 1], rs[|rs| - 1];
      RetriesAreTransparent(d, m, before);
      var kept := FirstAsked(d, m, before);
      assert (kept + [r])[..|kept|] == kept;
    }
  }

  /** What is in the table was answered to a request of the run with that key, the first of
      them that was not thrown out of. */
  lemma {:induction false} StoredWasAnswered<S, B, P>(d: Doors<S, B, P>, m: Machine<S, P>, rs: seq<Request<B>>, k: string) returns (i: nat)
    requires k !in m.table && k in Run(d, m, rs).table
    ensures i < |rs| && Keyed(d, rs[i]) && Compose(rs[i].door, rs[i].key) == k
    ensures k !in Run(d, m, rs[..i]).table
    ensures AnswerAt(d, m, rs, i) == Answered(Run(d, m, rs).table[k])
  {
    var n := |rs| - 1;
    if k in Run(d, m, rs[..n]).table {
      i := StoredWasAnswered(d, m, rs[..n], k);
      assert rs[..n][..i] == rs[..i];
    } else {
      i := n;
    }
  }

  /** Every retry got the first answer, a refusal included. */
  lemma {:induction false} ARetryGetsTheFirstAnswer<S, B, P>(d: Doors<S, B, P>, store: S, rs: seq<Request<B>>, j: nat) returns (i: nat)
    requires j < |rs| && Replays(d, Run(d, Machine(store, map[]), rs[..j]), rs[j])
    ensures var m := Machine(store, map[]);
      && i < j && Keyed(d, rs[i]) && Compose(rs[i].door, rs[i].key) == Compose(rs[j].door, rs[j].key)
      && !Replays(d, Run(d, m, rs[..i]), rs[i])
      && AnswerAt(d, m, rs, j) == AnswerAt(d, m, rs, i)
  {
    i := StoredWasAnswered(d, Machine(store, map[]), rs[..j], Compose(rs[j].door, rs[j].key));
    assert rs[..j][..i] == rs[..i];
  }

  // ----- overlapping requests -----

  /** One call between its statements; a finished one remembers whether it ran its door. */
  datatype Phase<P> = Arrived | Missed | Ran(reply: Reply<P>) | Done(response: Response<P>, ran: bool)

  datatype Call<B, P> = Call(request: Request<B>, phase: Phase<P>)

  datatype Overlap<S, B, P> = Overlap(store: S, table: map<string, Reply<P>>, calls: seq<Call<B, P>>)

  function KeyOf<B>(r: Request<B>): string { Compose(r.door, r.key) }

  /** What a call finds when it looks: a refusal, a stored answer, or nothing yet. */
  function Looked<S, B, P>(d: Doors<S, B, P>, table: map<string, Reply<P>>, r: Request<B>): Phase<P> {
    if Early(d, r).Some? then Done(Early(d, r).value, false)
    else if Keyed(d, r) && KeyOf(r) in table then Done(Answered(table[KeyOf(r)]), false)
    else Missed
  }

  /** The next statement of call `i`: look, run the door, remember. A door that throws is
      answered for and over. */
  function Advance<S, B, P>(d: Doors<S, B, P>, w: Overlap<S, B, P>, i: nat): Overlap<S, B, P> {
    if i >= |w.calls| then w
    else
      var c := w.calls[i];
      match c.phase
      case Arrived => w.(calls := w.calls[i := c.(phase := Looked(d, w.table, c.request))])
      case Missed =>
        (match d.run(c.request.door, w.store, c.request.body)
         case Throws(store) => w.(store := store, calls := w.calls[i := c.(phase := Done(CouldNotAnswer, true))])
         case Answers(store, status, payload) =>
           w.(store := store, calls := w.calls[i := c.(phase := Ran(Reply(status, payload)))]))
      case Ran(reply) =>
        w.(table := if Keyed(d, c.request) then Remembered(w.table, KeyOf(c.request), reply) else w.table,
           calls := w.calls[i := c.(phase := Done(Answered(reply), true))])
      case Done(_, _) => w
  }

  function Interleaved<S, B, P>(d: Doors<S, B, P>, w: Overlap<S, B, P>, turns: seq<nat>): Overlap<S, B, P> {
    if turns == [] then w else Advance(d, Interleaved(d, w, turns[..|turns| - 1]), turns[|turns| - 1])
  }

  lemma {:induction false} InterleavedSnoc<S, B, P>(d: Doors<S, B, P>, w: Overlap<S, B, P>, turns: seq<nat>, i: nat)
    ensures Interleaved(d, w, turns + [i]) == Advance(d, Interleaved(d, w, turns), i)
  {
    assert (turns + [i])[..|turns|] == turns;
  }

  /** A call nobody interrupts is `handle`. */
  lemma {:induction false} AloneIsHandle<S, B, P>(d: Doors<S, B, P>, w: Overlap<S, B, P>, i: nat)
    requires i < |w.calls| && w.calls[i].phase == Arrived
    ensures var after := Advance(d, Advance(d, Advance(d, w, i), i), i);
      var (m, response) := Handle(d, Machine(w.store, w.table), w.calls[i].request);
      && after.store == m.store && after.table == m.table
      && after.calls[i].phase.Done? && after.calls[i].phase.response == response
      && (forall j :: 0 <= j < |w.calls| && j != i ==> after.calls[j] == w.calls[j])
  {
  }

  /** Whatever overlaps, a stored answer never changes. */
  lemma {:induction false} TheFirstWriterWins<S, B, P>(d: Doors<S, B, P>, w: Overlap<S, B, P>, turns: seq<nat>, k: string)
    requires k in w.table
    ensures k in Interleaved(d, w, turns).table && Interleaved(d, w, turns).table[k] == w.table[k]
  {
    if turns != [] { TheFirstWriterWins(d, w, turns[..|turns| - 1], k); }
  }

  // ----- which of any number of overlapping calls run their door -----

  predicate DidRun<B, P>(c: Call<B, P>) { c.phase.Ran? || (c.phase.Done? && c.phase.ran) }

  /** The turn in which call `i` looks, or the length when it never does. */
  function LookTurn(turns: seq<nat>, i: nat): (t: nat)
    ensures t <= |turns|
    ensures t < |turns| ==> turns[t] == i
    ensures forall j :: 0 <= j < t ==> turns[j] != i
  {
    if turns == [] then 0
    else
      var t := LookTurn(turns[..|turns| - 1], i);
      if t < |turns| - 1 || turns[|turns| - 1] == i then t else t + 1
  }

  /** The turn in which an answer is first remembered under `k`, or the length when none is. */
  function RememberTurn<S, B, P>(d: Doors<S, B, P>, w: Overlap<S, B, P>, turns: seq<nat>, k: string): (t: nat)
    requires k !in w.table
    ensures t <= |turns|
  {
    if turns == [] then 0
    else
      var t := RememberTurn(d, w, turns[..|turns| - 1], k);
      if t < |turns| - 1 || k in Interleaved(d, w, turns).table then t else t + 1
  }

  /** From that turn on the answer is there, and before it is not. */
  lemma {:induction false} RememberedFromThen<S, B, P>(d: Doors<S, B, P>, w: Overlap<S, B, P>, turns: seq<nat>, k: string, t: nat)
    requires k !in w.table && t <= |turns|
    ensures k in Interleaved(d, w, turns[..t]).table <==> RememberTurn(d, w, turns, k) < t
  {
    if turns != [] {
      var n := |turns| - 1;
      var front := turns[..n];
      if t <= n {
        RememberedFromThen(d, w, front, k, t);
        assert front[..t] == turns[..t];
      } else {
        assert turns[..t] == turns;
        RememberedFromThen(d, w, front, k, n);
        assert front[..n] == front;
      }
    }
  }

  /** Where a keyed call stands: not begun until its look; after it, on the way to its door if
      and only if nothing was stored when it looked. */
  lemma {:induction false} WhereACallStands<S, B, P>(d: Doors<S, B, P>, w: Overlap<S, B, P>, turns: seq<nat>, i: nat)
    requires i < |w.calls| && w.calls[i].phase == Arrived && Keyed(d, w.calls[i].request)
    ensures var after, t := Interleaved(d, w, turns), LookTurn(turns, i);
      && |after.calls| == |w.calls| && after.calls[i].request == w.calls[i].request
      && (after.calls[i].phase == Arrived <==> t == |turns|)
      && (t < |turns| ==>
            ((after.calls[i].phase == Missed || DidRun(after.calls[i])) <==>
              KeyOf(w.calls[i].request) !in Interleaved(d, w, turns[..t]).table))
  {
    if turns != [] {
      var n := |turns| - 1;
      WhereACallStands(d, w, turns[..n], i);
      var t := LookTurn(turns[..n], i);
      if t < n {
        assert turns[..n][..t] == turns[..t];
      } else if turns[n] == i {
        assert turns[..LookTurn(turns, i)] == turns[..n];
      }
    }
  }

  /** Over every interleaving of any number of calls: an answered call runs its door if and
      only if it looked before any answer was remembered under its key. */
  lemma {:induction false} RunsExactly<S, B, P>(d: Doors<S, B, P>, w: Overlap<S, B, P>, turns: seq<nat>, i: nat)
    requires i < |w.calls| && w.calls[i].phase == Arrived && Keyed(d, w.calls[i].request)
    requires KeyOf(w.calls[i].request) !in w.table
    requires |Interleaved(d, w, turns).calls| == |w.calls| && Interleaved(d, w, turns).calls[i].phase.Done?
    ensures DidRun(Interleaved(d, w, turns).calls[i]) <==>
      LookTurn(turns, i) < RememberTurn(d, w, turns, KeyOf(w.calls[i].request))
  {
    var k, t := KeyOf(w.calls[i].request), LookTurn(turns, i);
    WhereACallStands(d, w, turns, i);
    RememberedFromThen(d, w, turns, k, t);
    LooksDoNotRemember(d, w, turns, i);
  }

  /** The turn a call looks in is not the turn an answer is remembered in. */
  lemma {:induction false} LooksDoNotRemember<S, B, P>(d: Doors<S, B, P>, w: Overlap<S, B, P>, turns: seq<nat>, i: nat)
    requires i < |w.calls| && w.calls[i].phase == Arrived && Keyed(d, w.calls[i].request)
    requires KeyOf(w.calls[i].request) !in w.table && LookTurn(turns, i) < |turns|
    ensures LookTurn(turns, i) != RememberTurn(d, w, turns, KeyOf(w.calls[i].request))
  {
    var k, t := KeyOf(w.calls[i].request), LookTurn(turns, i);
    RememberedFromThen(d, w, turns, k, t);
    RememberedFromThen(d, w, turns, k, t + 1);
    NotYetLooked(turns, i, t);
    WhereACallStands(d, w, turns[..t], i);
    assert turns[..t + 1] == turns[..t] + [turns[t]];
    InterleavedSnoc(d, w, turns[..t], turns[t]);
  }

  lemma {:induction false} NotYetLooked(turns: seq<nat>, i: nat, t: nat)
    requires t == LookTurn(turns, i)
    ensures LookTurn(turns[..t], i) == t
  {
    forall j | 0 <= j < t ensures turns[..t][j] != i { }
  }

  /** So two answered calls of one key both run the door if and only if both looked before the
      first remember: exactly the calls the unique key cannot tell from each other in time. */
  lemma {:induction false} BothRunExactly<S, B, P>(d: Doors<S, B, P>, w: Overlap<S, B, P>, turns: seq<nat>, i: nat, j: nat, k: string)
    requires i < |w.calls| && j < |w.calls| && i != j && k !in w.table
    requires forall c :: c in {i, j} ==>
      && w.calls[c].phase == Arrived && Keyed(d, w.calls[c].request) && KeyOf(w.calls[c].request) == k
    requires var after := Interleaved(d, w, turns);
      |after.calls| == |w.calls| && after.calls[i].phase.Done? && after.calls[j].phase.Done?
    ensures var after, r := Interleaved(d, w, turns), RememberTurn(d, w, turns, k);
      DidRun(after.calls[i]) && DidRun(after.calls[j]) <==> LookTurn(turns, i) < r && LookTurn(turns, j) < r
  {
    RunsExactly(d, w, turns, i);
    RunsExactly(d, w, turns, j);
  }

  /** The stock door behind the table. */
  function StockDoors(known: set<nat>): Doors<Stock.Shop, StockRuns.Request, Stock.Answer> {
    Doors({"reserve"}, {"reserve"}, (door: string, s: Stock.Shop, b: StockRuns.Request) =>
      var (t, a) := StockRuns.Serve(s, known, b); Answers(t, if a == None then 200 else 409, a))
  }

  const OneUnit: Request<StockRuns.Request> :=
    Request("reserve", "o:1", true, StockRuns.ReserveR("o", [Stock.Line(7, 1)], None))

  /** Two copies of one request that both looked before either remembered run the door twice:
      two units leave the shelf for one. The unique key keeps the answers apart from the
      second write, not the second run. */
  lemma {:induction false} OverlappingRetriesRunTwice()
    ensures var shop := Stock.Shop(map[7 := 5], [], map[]);
      var both := Overlap(shop, map[], [Call(OneUnit, Arrived), Call(OneUnit, Arrived)]);
      && Interleaved(StockDoors({7}), both, [0, 1, 0, 1]).store.stock == map[7 := 3]
      && Run(StockDoors({7}), Machine(shop, map[]), [OneUnit, OneUnit]).store.stock == map[7 := 4]
  {
    var d := StockDoors({7});
    var shop := Stock.Shop(map[7 := 5], [], map[]);
    var row := Stock.HoldRow.Units("o", 7, 1, Stock.Held);
    OneMore(5, []);
    OneMore(4, [row]);
    var both: Overlap<Stock.Shop, StockRuns.Request, Stock.Answer> := Overlap(shop, map[], [Call(OneUnit, Arrived), Call(OneUnit, Arrived)]);
    assert [0, 1, 0, 1][..3] == [0, 1, 0] && [0, 1, 0][..2] == [0, 1] && [0, 1][..1] == [0] && [0][..0] == [];
    assert Interleaved(d, both, []) == both;
    var missed := both.(calls := [Call(OneUnit, Missed), Call(OneUnit, Missed)]);
    assert Interleaved(d, both, [0, 1]).calls == missed.calls;
    assert Interleaved(d, both, [0, 1]) == missed;
    assert Interleaved(d, both, [0, 1, 0]).store.stock == map[7 := 4];
    assert [OneUnit, OneUnit][..1] == [OneUnit] && [OneUnit][..0] == [];
    assert Run(d, Machine(shop, map[]), [OneUnit]).store.stock == map[7 := 4];
  }

  lemma {:induction false} OneMore(stock: int, holds: seq<Stock.HoldRow>)
    requires stock >= 1
    ensures StockRuns.Serve(Stock.Shop(map[7 := stock], holds, map[]), {7}, OneUnit.body)
      == (Stock.Shop(map[7 := stock - 1], holds + [Stock.HoldRow.Units("o", 7, 1, Stock.Held)], map[]), None)
  {
    var lines := [Stock.Line(7, 1)];
    assert lines[..0] == [] && Stock.Wanted([]) == [];
    assert Stock.Wanted(lines) == lines && lines[1..] == [];
    var m: map<nat, int> := map[7 := stock];
    assert m[7 := stock - 1] == map[7 := stock - 1];
    assert Stock.TakeAll(m, lines) == Stock.TakeAll(m[7 := stock - 1], lines[1..]);
    assert Sums.Map(lines, Stock.UnitsOf("o")) == [Stock.HoldRow.Units("o", 7, 1, Stock.Held)];
  }

  // ----- requests that are refused at the face -----

  /** A request the face lets through: a door there is, a genuine signature, and a key where the
      door changes something. */
  predicate LetThrough<S, B, P>(d: Doors<S, B, P>, r: Request<B>) {
    r.door in d.known && r.authentic && (r.door in d.mutating ==> r.key != "")
  }

  function Heard<S, B, P>(d: Doors<S, B, P>, rs: seq<Request<B>>): seq<Request<B>> {
    if rs == [] then []
    else if LetThrough(d, rs[|rs| - 1]) then Heard(d, rs[..|rs| - 1]) + [rs[|rs| - 1]]
    else Heard(d, rs[..|rs| - 1])
  }

  /** A request not let through is told why and leaves store and table alone, so a run is what the
      rest of it would have been without it. */
  lemma {:induction false} TheRefusedAreInert<S, B, P>(d: Doors<S, B, P>, m: Machine<S, P>, rs: seq<Request<B>>)
    ensures Run(d, m, rs) == Run(d, m, Heard(d, rs))
    ensures forall i :: 0 <= i < |rs| && !LetThrough(d, rs[i]) ==>
      && Run(d, m, rs[..i + 1]) == Run(d, m, rs[..i])
      && AnswerAt(d, m, rs, i) == (if rs[i].door !in d.known then NoSuchDoor else if !rs[i].authentic then NotAuthentic else KeyRequired)
  {
    if rs != [] {
      var before, r := rs[..|rs| - 1], rs[|rs| - 1];
      TheRefusedAreInert(d, m, before);
      if LetThrough(d, r) { assert (Heard(d, before) + [r])[..|Heard(d, before)|] == Heard(d, before); }
      forall i | 0 <= i < |rs| && !LetThrough(d, rs[i])
        ensures Run(d, m, rs[..i + 1]) == Run(d, m, rs[..i])
        ensures AnswerAt(d, m, rs, i) == (if rs[i].door !in d.known then NoSuchDoor else if !rs[i].authentic then NotAuthentic else KeyRequired)
      {
        assert rs[..i + 1][..i] == rs[..i];
      }
    }
  }

  /** A request let through runs its door exactly when the door only reads or nothing is stored
      under its door and key; what the door answers is stored then, if the door changes things and
      did not throw, and answered as it is. */
  lemma {:induction false} TheHeardAreServed<S, B, P>(d: Doors<S, B, P>, m: Machine<S, P>, r: Request<B>)
    requires LetThrough(d, r)
    ensures var k := Compose(r.door, r.key);
      var (after, response) := Handle(d, m, r);
      var out := d.run(r.door, m.store, r.body);
      && (r.door in d.mutating && k in m.table ==> after == m && response == Answered(m.table[k]))
      && (!(r.door in d.mutating && k in m.table) ==>
            && after.store == out.store
            && response == (if out.Throws? then CouldNotAnswer else Answered(Reply(out.status, out.payload)))
            && after.table == if out.Answers? && r.door in d.mutating then m.table[k := Reply(out.status, out.payload)] else m.table)
  {
  }
}
