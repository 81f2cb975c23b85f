/** Door 3 under concurrency: any number of transactions, each taking its products one at a
    time in key order and keeping the row lock of everything it took until it commits or
    rolls back. */
module ReserveInterleaving {
  import opened Wrappers
  import opened Sums
  import opened Stock

  /** Open: still taking. Refused: a product fell short (`why` is what will be answered), or
      anything else threw; the ROLLBACK is yet to run. */
  datatype Phase = Open | Refused(why: Answer) | Kept | Undone(answer: Answer)

  /** A basket in key order, and how much of it has been taken. */
  datatype Tx = Tx(wanted: seq<Line>, next: nat, phase: Phase)

  datatype World = World(stock: map<nat, int>, txs: seq<Tx>)

  predicate Live(t: Tx) { t.phase == Open || t.phase.Refused? }

  function Took(t: Tx): seq<Line> {
    if t.next <= |t.wanted| then t.wanted[..t.next] else t.wanted
  }

  predicate Holds(t: Tx, product: nat) {
    Live(t) && exists l :: l in Took(t) && l.product == product
  }

  predicate Free(w: World, i: nat, product: nat) {
    forall j :: 0 <= j < |w.txs| && j != i ==> !Holds(w.txs[j], product)
  }

  // ----- steps -----

  datatype Step = Take(i: nat) | GiveUp(i: nat) | Commits(i: nat) | RollBack(i: nat)

  /** Whether a step can happen now; a take waits for the row's lock. */
  predicate Enabled(w: World, step: Step) {
    && step.i < |w.txs|
    && var t := w.txs[step.i];
      match step
      case Take(i) => t.phase == Open && t.next < |t.wanted| && Free(w, i, t.wanted[t.next].product)
      case GiveUp(i) => t.phase == Open
      case Commits(i) => t.phase == Open && t.next == |t.wanted|
      case RollBack(i) => t.phase.Refused?
  }

  /** What a rollback restores. */
  function Restored(stock: map<nat, int>, took: seq<Line>): map<nat, int> {
    if took == [] then stock
    else
      var last := took[|took| - 1];
      var rest := Restored(stock, took[..|took| - 1]);
      if last.product in rest then rest[last.product := rest[last.product] + last.qty] else rest
  }

  function Next(w: World, step: Step): World
    requires Enabled(w, step)
  {
    var i := step.i;
    var t := w.txs[i];
    match step
    case Take(_) =>
      var l := t.wanted[t.next];
      if CanTake(w.stock, l) then
        World(w.stock[l.product := w.stock[l.product] - l.qty], w.txs[i := t.(next := t.next + 1)])
      else w.(txs := w.txs[i := t.(phase := Refused(Some(TakeAll(w.stock, [l]).error)))])
    case GiveUp(_) => w.(txs := w.txs[i := t.(phase := Refused(None))])
    case Commits(_) => w.(txs := w.txs[i := t.(phase := Kept)])
    case RollBack(_) => World(Restored(w.stock, Took(t)), w.txs[i := t.(phase := Undone(t.phase.why))])
  }

  // ----- the committed view -----

  function TakenBy(product: nat): Tx -> int {
    (t: Tx) => if Live(t) then SumBy(Took(t), QtyOf(product)) else 0
  }

  /** The stock with every unfinished take given back: what a reader outside the open
      transactions sees. */
  function View(w: World): (v: map<nat, int>)
    ensures v.Keys == w.stock.Keys
  {
    map p | p in w.stock :: w.stock[p] + SumBy(w.txs, TakenBy(p))
  }

  ghost predicate Apart(w: World) {
    forall i, j, p :: 0 <= i < |w.txs| && 0 <= j < |w.txs| && i != j && Holds(w.txs[i], p) ==> !Holds(w.txs[j], p)
  }

  predicate Good(t: Tx, stock: map<nat, int>) {
    && Increasing(t.wanted) && t.next <= |t.wanted|
    && forall l :: l in Took(t) ==> l.product in stock
  }

  ghost predicate Sound(w: World) {
    && (forall p :: p in w.stock ==> w.stock[p] >= 0)
    && (forall t :: t in w.txs ==> Good(t, w.stock))
    && Apart(w)
  }

  // ----- sums over lines and transactions -----

  lemma {:induction false} QtyOfAbsent(ls: seq<Line>, product: nat)
    requires forall l :: l in ls ==> l.product != product
    ensures SumBy(ls, QtyOf(product)) == 0
  {
    if ls != [] {
      assert ls[0] in ls;
      QtyOfAbsent(ls[1..], product);
    }
  }

  lemma {:induction false} QtyOfPresent(ls: seq<Line>, k: nat)
    requires Increasing(ls) && k < |ls|
    ensures SumBy(ls, QtyOf(ls[k].product)) == ls[k].qty
  {
    var p := ls[k].product;
    if k == 0 {
      forall l | l in ls[1..] ensures l.product != p {
        var j :| 0 <= j < |ls[1..]| && ls[1..][j] == l;
        assert ls[j + 1] == l;
      }
      QtyOfAbsent(ls[1..], p);
    } else {
      assert ls[1..][k - 1] == ls[k];
      QtyOfPresent(ls[1..], k - 1);
    }
  }

  lemma {:induction false} OnlyOne(txs: seq<Tx>, i: nat, f: Tx -> int)
    requires i < |txs| && forall j :: 0 <= j < |txs| && j != i ==> f(txs[j]) == 0
    ensures SumBy(txs, f) == f(txs[i])
  {
    if i == 0 {
      NoneAtAll(txs[1..], f);
    } else {
      assert f(txs[0]) == 0;
      OnlyOne(txs[1..], i - 1, f);
    }
  }

  lemma {:induction false} NoneAtAll(txs: seq<Tx>, f: Tx -> int)
    requires forall j :: 0 <= j < |txs| ==> f(txs[j]) == 0
    ensures SumBy(txs, f) == 0
  {
    if txs != [] { NoneAtAll(txs[1..], f); }
  }

  /** While nobody else holds a product, the view of it is the stock and one's own take. */
  lemma {:induction false} ViewOfFree(w: World, i: nat, product: nat)
    requires i < |w.txs| && product in w.stock && Free(w, i, product)
    ensures View(w)[product] == w.stock[product] + TakenBy(product)(w.txs[i])
  {
    forall j | 0 <= j < |w.txs| && j != i ensures TakenBy(product)(w.txs[j]) == 0 {
      if Live(w.txs[j]) { QtyOfAbsent(Took(w.txs[j]), product); }
    }
    OnlyOne(w.txs, i, TakenBy(product));
  }

  lemma {:induction false} FreeOfTaken(w: World, i: nat, k: nat)
    requires Sound(w) && i < |w.txs| && Live(w.txs[i]) && k < w.txs[i].next <= |w.txs[i].wanted|
    ensures Free(w, i, w.txs[i].wanted[k].product)
    ensures w.txs[i].wanted[k].product in w.stock
    ensures View(w)[w.txs[i].wanted[k].product] == w.stock[w.txs[i].wanted[k].product] + w.txs[i].wanted[k].qty
  {
    var t := w.txs[i];
    assert Took(t)[k] == t.wanted[k] && Took(t)[k] in Took(t);
    assert t in w.txs;
    assert Holds(t, t.wanted[k].product);
    ViewOfFree(w, i, t.wanted[k].product);
    QtyOfPresent(Took(t), k);
  }

  // ----- one step -----

  lemma {:induction false} RestoredAdds(stock: map<nat, int>, took: seq<Line>, product: nat)
    requires product in stock
    ensures Restored(stock, took).Keys == stock.Keys
    ensures Restored(stock, took)[product] == stock[product] + SumBy(took, QtyOf(product))
  {
    if took != [] {
      var n := |took| - 1;
      RestoredAdds(stock, took[..n], product);
      assert took == took[..n] + [took[n]];
      SumSnoc(took[..n], took[n], QtyOf(product));
    }
  }

  lemma {:induction false} QtyNonNegative(ls: seq<Line>, product: nat)
    ensures SumBy(ls, QtyOf(product)) >= 0
  {
    SumNonNegative(ls, QtyOf(product));
  }

  /** Every step leaves the stock at or above zero and the locks apart. */
  lemma {:induction false} StepKeepsSound(w: World, step: Step)
    requires Sound(w) && Enabled(w, step)
    ensures Sound(Next(w, step))
  {
    var i, t, after := step.i, w.txs[step.i], Next(w, step);
    assert t in w.txs;
    var t' := after.txs[i];
    assert after.stock.Keys == w.stock.Keys && forall p :: p in after.stock ==> after.stock[p] >= 0 by {
      if step.RollBack? {
        forall p | p in w.stock ensures Restored(w.stock, Took(t)).Keys == w.stock.Keys && Restored(w.stock, Took(t))[p] >= 0 {
          RestoredAdds(w.stock, Took(t), p);
          QtyNonNegative(Took(t), p);
        }
        if w.stock.Keys == {} { RestoredEmpty(w.stock, Took(t)); }
      }
    }
    if step.Take? && CanTake(w.stock, t.wanted[t.next]) {
      assert Took(t') == Took(t) + [t.wanted[t.next]];
    }
    HoldsAfter(w, step);
    forall u | u in after.txs ensures Good(u, after.stock) {
      var j :| 0 <= j < |after.txs| && after.txs[j] == u;
      assert j != i ==> u == w.txs[j] && w.txs[j] in w.txs;
    }
  }

  lemma {:induction false} RestoredEmpty(stock: map<nat, int>, took: seq<Line>)
    requires stock.Keys == {}
    ensures Restored(stock, took) == stock
  {
    if took != [] { RestoredEmpty(stock, took[..|took| - 1]); }
  }

  /** A step adds at most the one lock it waited for. */
  lemma {:induction false} HoldsAfter(w: World, step: Step)
    requires Sound(w) && Enabled(w, step)
    ensures Apart(Next(w, step))
  {
    var i, t, after := step.i, w.txs[step.i], Next(w, step);
    assert t in w.txs;
    var t' := after.txs[i];
    forall p | Holds(t', p) ensures Holds(t, p) || (step.Take? && p == t.wanted[t.next].product) {
      if step.Take? && CanTake(w.stock, t.wanted[t.next]) {
        assert Took(t') == Took(t) + [t.wanted[t.next]];
      } else {
        assert Took(t') == Took(t);
      }
    }
  }

  /** What the view changes by: what the stock changes by, and what the stepping transaction
      has taken. */
  lemma {:induction false} ViewAfter(w: World, after: World, i: nat, p: nat)
    requires i < |w.txs| && |after.txs| == |w.txs| && after.txs == w.txs[i := after.txs[i]]
    requires p in w.stock && after.stock.Keys == w.stock.Keys
    ensures View(after)[p] - View(w)[p]
      == after.stock[p] - w.stock[p] + TakenBy(p)(after.txs[i]) - TakenBy(p)(w.txs[i])
  {
    SumUpdate(w.txs, i, after.txs[i], TakenBy(p));
  }

  /** A take, a refusal and a rollback are invisible from outside. */
  lemma {:induction false} StepIsInvisible(w: World, step: Step)
    requires Sound(w) && Enabled(w, step) && !step.Commits?
    ensures View(Next(w, step)) == View(w)
  {
    var i, t, after := step.i, w.txs[step.i], Next(w, step);
    StepKeepsSound(w, step);
    assert t in w.txs;
    forall p | p in w.stock ensures p in after.stock && View(after)[p] == View(w)[p] {
      if step.RollBack? { RestoredAdds(w.stock, Took(t), p); }
      if step.Take? && CanTake(w.stock, t.wanted[t.next]) {
        var l := t.wanted[t.next];
        assert Took(after.txs[i]) == Took(t) + [l];
        SumSnoc(Took(t), l, QtyOf(p));
      }
      ViewAfter(w, after, i, p);
    }
    SameKeys(w, step);
  }

  lemma {:induction false} SameKeys(w: World, step: Step)
    requires Sound(w) && Enabled(w, step)
    ensures Next(w, step).stock.Keys == w.stock.Keys
  {
    var t := w.txs[step.i];
    assert t in w.txs;
    if step.RollBack? {
      if p :| p in w.stock { RestoredAdds(w.stock, Took(t), p); } else { RestoredEmpty(w.stock, Took(t)); }
    }
  }

  /** A commit is the whole basket taken at once, from what every other finished basket left. */
  lemma {:induction false} CommitIsAtomic(w: World, step: Step)
    requires Sound(w) && Enabled(w, step) && step.Commits?
    ensures TakeAll(View(w), w.txs[step.i].wanted) == Ok(View(Next(w, step)))
  {
    var i, t, after := step.i, w.txs[step.i], Next(w, step);
    assert t in w.txs && Took(t) == t.wanted;
    forall l | l in t.wanted ensures CanTake(View(w), l) {
      var k :| 0 <= k < |t.wanted| && t.wanted[k] == l;
      FreeOfTaken(w, i, k);
    }
    TakeAllExactly(View(w), t.wanted);
    var left := TakeAll(View(w), t.wanted).value;
    forall p | p in w.stock ensures p in left && left[p] == View(after)[p] {
      TakeAllLeaves(View(w), t.wanted, p);
      ViewAfter(w, after, i, p);
    }
    if p :| p in w.stock { TakeAllLeaves(View(w), t.wanted, p); } else { EmptyTakesNothing(View(w), t.wanted); }
    assert left == View(after);
  }

  lemma {:induction false} EmptyTakesNothing(stock: map<nat, int>, wanted: seq<Line>)
    requires stock.Keys == {} && TakeAll(stock, wanted).Ok?
    ensures TakeAll(stock, wanted).value == stock
  {
  }

  /** A basket that falls short is refused with what the whole basket, taken at once at that
      moment, would be refused with. */
  lemma {:induction false} RefusalIsAtomic(w: World, step: Step)
    requires Sound(w) && Enabled(w, step) && step.Take?
    requires !CanTake(w.stock, w.txs[step.i].wanted[w.txs[step.i].next])
    ensures Next(w, step).txs[step.i].phase.Refused? && Next(w, step).txs[step.i].phase.why.Some?
    ensures TakeAll(View(w), w.txs[step.i].wanted) == Err(Next(w, step).txs[step.i].phase.why.value)
  {
    var i, t := step.i, w.txs[step.i];
    var l := t.wanted[t.next];
    assert t in w.txs;
    forall k | 0 <= k < t.next ensures CanTake(View(w), t.wanted[k]) { FreeOfTaken(w, i, k); }
    if l.product in w.stock {
      ViewOfFree(w, i, l.product);
      forall m | m in Took(t) ensures m.product != l.product {
        var k :| 0 <= k < |Took(t)| && Took(t)[k] == m;
        assert t.wanted[k] == m;
      }
      QtyOfAbsent(Took(t), l.product);
    }
    TakeAllStopsAt(View(w), t.wanted, t.next);
  }

  // ----- runs -----

  /** Steps that can each happen where they stand. */
  ghost predicate Runs(w: World, steps: seq<Step>)
    decreases |steps|
  {
    steps == [] || (Enabled(w, steps[0]) && Runs(Next(w, steps[0]), steps[1..]))
  }

  function After(w: World, steps: seq<Step>): World
    requires Runs(w, steps)
    decreases |steps|
  {
    if steps == [] then w else After(Next(w, steps[0]), steps[1..])
  }

  /** The baskets that committed, in the order they did. */
  function Granted(w: World, steps: seq<Step>): seq<seq<Line>>
    requires Runs(w, steps)
    decreases |steps|
  {
    if steps == [] then []
    else (if steps[0].Commits? then [w.txs[steps[0].i].wanted] else []) + Granted(Next(w, steps[0]), steps[1..])
  }

  /** The same baskets taken whole, one after another. */
  function TakeInTurn(stock: map<nat, int>, baskets: seq<seq<Line>>): Result<map<nat, int>, Stock.Refusal>
    decreases |baskets|
  {
    if baskets == [] then Ok(stock)
    else match TakeAll(stock, baskets[0])
      case Ok(rest) => TakeInTurn(rest, baskets[1..])
      case Err(e) => Err(e)
  }

  /** Serialisable over every run: what is visible is what the granted baskets leave, taken
      whole one after another in the order they committed, and no count is below zero. */
  lemma {:induction false} EveryRunIsSerial(w: World, steps: seq<Step>)
    requires Sound(w) && Runs(w, steps)
    ensures Sound(After(w, steps))
    ensures TakeInTurn(View(w), Granted(w, steps)) == Ok(View(After(w, steps)))
    decreases |steps|
  {
    if steps != [] {
      StepKeepsSound(w, steps[0]);
      var next := Next(w, steps[0]);
      EveryRunIsSerial(next, steps[1..]);
      if steps[0].Commits? {
        CommitIsAtomic(w, steps[0]);
        assert Granted(w, steps)[1..] == Granted(next, steps[1..]);
      } else {
        StepIsInvisible(w, steps[0]);
        assert Granted(w, steps) == Granted(next, steps[1..]);
      }
    }
  }

  /** Nothing taken yet. */
  predicate Fresh(w: World) { forall t :: t in w.txs ==> t.phase == Open && t.next == 0 }

  function OpenedFor(): seq<Line> -> Tx { (lines: seq<Line>) => Tx(Wanted(lines), 0, Open) }

  /** The baskets that arrive at once, each about to take what its lines want. */
  function Opening(stock: map<nat, int>, requests: seq<seq<Line>>): World {
    World(stock, Map(requests, OpenedFor()))
  }

  lemma {:induction false} OpeningIsSound(stock: map<nat, int>, requests: seq<seq<Line>>)
    requires forall p :: p in stock ==> stock[p] >= 0
    ensures Sound(Opening(stock, requests)) && Fresh(Opening(stock, requests))
  {
    var w := Opening(stock, requests);
    forall t | t in w.txs ensures Good(t, stock) && t.phase == Open && t.next == 0 {
      var j :| 0 <= j < |w.txs| && w.txs[j] == t;
      WantedIsTheSum(requests[j], 0);
    }
  }

  predicate AllAnswered(w: World) { forall t :: t in w.txs ==> !Live(t) }

  lemma {:induction false} NothingTaken(w: World)
    requires Fresh(w) || AllAnswered(w)
    ensures View(w) == w.stock
  {
    forall p | p in w.stock ensures View(w)[p] == w.stock[p] {
      forall j | 0 <= j < |w.txs| ensures TakenBy(p)(w.txs[j]) == 0 { assert w.txs[j] in w.txs; }
      NoneAtAll(w.txs, TakenBy(p));
    }
  }

  function BasketQty(product: nat): seq<Line> -> int { (b: seq<Line>) => SumBy(b, QtyOf(product)) }

  lemma {:induction false} TakeInTurnTakes(stock: map<nat, int>, baskets: seq<seq<Line>>, product: nat)
    requires product in stock && TakeInTurn(stock, baskets).Ok?
    ensures product in TakeInTurn(stock, baskets).value
    ensures TakeInTurn(stock, baskets).value[product] == stock[product] - SumBy(baskets, BasketQty(product))
    decreases |baskets|
  {
    if baskets != [] {
      TakeAllLeaves(stock, baskets[0], product);
      TakeInTurnTakes(TakeAll(stock, baskets[0]).value, baskets[1..], product);
    }
  }

  /** Once every basket is answered, the stock is what the granted ones took, whole, from
      what there was: a refused basket leaves nothing taken and nothing is sold twice. */
  lemma {:induction false} EveryBasketWholeOrNothing(w: World, steps: seq<Step>, product: nat)
    requires Sound(w) && Fresh(w) && Runs(w, steps) && product in w.stock
    ensures SumBy(Granted(w, steps), BasketQty(product)) <= w.stock[product]
    ensures AllAnswered(After(w, steps)) ==>
      && TakeInTurn(w.stock, Granted(w, steps)) == Ok(After(w, steps).stock)
      && product in After(w, steps).stock
      && After(w, steps).stock[product] == w.stock[product] - SumBy(Granted(w, steps), BasketQty(product))
  {
    EveryRunIsSerial(w, steps);
    NothingTaken(w);
    var end := After(w, steps);
    TakeInTurnTakes(w.stock, Granted(w, steps), product);
    forall t | t in end.txs ensures TakenBy(product)(t) >= 0 { QtyNonNegative(Took(t), product); }
    SumNonNegative(end.txs, TakenBy(product));
    if AllAnswered(end) { NothingTaken(end); }
  }

  // ----- no circular wait -----

  /** i is held up by the row j keeps. */
  predicate WaitsFor(w: World, i: nat, j: nat) {
    && i < |w.txs| && j < |w.txs| && i != j
    && w.txs[i].phase == Open && w.txs[i].next < |w.txs[i].wanted|
    && Holds(w.txs[j], w.txs[i].wanted[w.txs[i].next].product)
  }

  function NextKey(t: Tx): int { if t.next < |t.wanted| then t.wanted[t.next].product else -1 }

  /** Along a wait the key waited for grows, because every basket is taken in key order. */
  lemma {:induction false} WaitsGrow(w: World, i: nat, j: nat)
    requires Sound(w) && WaitsFor(w, i, j)
    ensures w.txs[j].next < |w.txs[j].wanted| ==> NextKey(w.txs[i]) < NextKey(w.txs[j])
  {
    var t, p := w.txs[j], w.txs[i].wanted[w.txs[i].next].product;
    assert t in w.txs;
    var l :| l in Took(t) && l.product == p;
    var k :| 0 <= k < |Took(t)| && Took(t)[k] == l;
    assert t.wanted[k] == l;
  }

  predicate WaitChain(w: World, chain: seq<nat>) {
    forall k :: 0 <= k < |chain| - 1 ==> WaitsFor(w, chain[k], chain[k + 1])
  }

  lemma {:induction false} ChainGrows(w: World, chain: seq<nat>)
    requires Sound(w) && |chain| >= 2 && WaitChain(w, chain)
    requires forall k :: 0 <= k < |chain| ==> chain[k] < |w.txs| && w.txs[chain[k]].next < |w.txs[chain[k]].wanted|
    ensures NextKey(w.txs[chain[0]]) < NextKey(w.txs[chain[|chain| - 1]])
  {
    assert WaitsFor(w, chain[0], chain[0 + 1]);
    WaitsGrow(w, chain[0], chain[1]);
    if |chain| > 2 {
      var rest := chain[1..];
      forall k | 0 <= k < |rest| - 1 ensures WaitsFor(w, rest[k], rest[k + 1]) {
        assert WaitsFor(w, chain[k + 1], chain[(k + 1) + 1]);
      }
      ChainGrows(w, rest);
    }
  }

  /** No transactions wait for each other in a circle. */
  lemma {:induction false} NoCircularWait(w: World, chain: seq<nat>)
    requires Sound(w) && |chain| >= 2
    ensures !(WaitChain(w, chain) && WaitsFor(w, chain[|chain| - 1], chain[0]))
  {
    if WaitChain(w, chain) && WaitsFor(w, chain[|chain| - 1], chain[0]) {
      forall k | 0 <= k < |chain| ensures chain[k] < |w.txs| && w.txs[chain[k]].next < |w.txs[chain[k]].wanted| {
        if k < |chain| - 1 { assert WaitsFor(w, chain[k], chain[k + 1]); }
      }
      ChainGrows(w, chain);
      WaitsGrow(w, chain[|chain| - 1], chain[0]);
      assert false;
    }
  }

  // ----- every basket is answered -----

  /** The open transaction that is furthest along the keys. */
  lemma {:induction false} Furthest(txs: seq<Tx>, n: nat) returns (best: Option<nat>)
    requires n <= |txs|
    ensures best.None? ==> forall j :: 0 <= j < n ==> txs[j].phase != Open
    ensures best.Some? ==> best.value < n && txs[best.value].phase == Open
    ensures best.Some? ==> forall j :: 0 <= j < n && txs[j].phase == Open ==> NextKey(txs[j]) <= NextKey(txs[best.value])
  {
    if n == 0 {
      best := None;
    } else {
      best := Furthest(txs, n - 1);
      if txs[n - 1].phase == Open && (best.None? || NextKey(txs[best.value]) < NextKey(txs[n - 1])) {
        best := Some(n - 1);
      }
    }
  }

  /** While any basket is unanswered, some transaction can go on without giving up. */
  lemma {:induction false} SomebodyCanStep(w: World) returns (step: Step)
    requires Sound(w) && !AllAnswered(w)
    ensures Enabled(w, step) && !step.GiveUp?
  {
    var t :| t in w.txs && Live(t);
    var n :| 0 <= n < |w.txs| && w.txs[n] == t;
    if t.phase.Refused? { return RollBack(n); }
    if i :| 0 <= i < |w.txs| && w.txs[i].phase == Open && w.txs[i].next == |w.txs[i].wanted| { return Commits(i); }
    if i :| 0 <= i < |w.txs| && w.txs[i].phase.Refused? { return RollBack(i); }
    var best := Furthest(w.txs, |w.txs|);
    var i := best.value;
    assert w.txs[i] in w.txs;
    forall j | 0 <= j < |w.txs| && j != i ensures !Holds(w.txs[j], w.txs[i].wanted[w.txs[i].next].product) {
      assert w.txs[j] in w.txs;
      if w.txs[j].phase == Open { NothingHeldAhead(w.txs[j], w.stock, w.txs[i].wanted[w.txs[i].next].product); }
    }
    return Take(i);
  }

  /** A basket holds nothing from the key it waits for on. */
  lemma {:induction false} NothingHeldAhead(t: Tx, stock: map<nat, int>, product: nat)
    requires Good(t, stock) && t.next < |t.wanted| && NextKey(t) <= product
    ensures !Holds(t, product)
  {
    forall l | l in Took(t) ensures l.product < product {
      var k :| 0 <= k < |Took(t)| && Took(t)[k] == l;
      assert t.wanted[k] == l;
    }
  }

  /** Steps a transaction has left at most. */
  function Left(): Tx -> int {
    (t: Tx) =>
      match t.phase
      case Open => if t.next <= |t.wanted| then |t.wanted| - t.next + 2 else 2
      case Refused(_) => 1
      case _ => 0
  }

  /** No run is longer than the work its baskets hold, so, going on while somebody can,
      every basket is answered. */
  lemma {:induction false} RunsAreBounded(w: World, steps: seq<Step>)
    requires Sound(w) && Runs(w, steps)
    ensures |steps| <= SumBy(w.txs, Left())
    decreases |steps|
  {
    if steps == [] {
      SumNonNegative(w.txs, Left());
    } else {
      var i, next := steps[0].i, Next(w, steps[0]);
      assert w.txs[i] in w.txs;
      StepKeepsSound(w, steps[0]);
      RunsAreBounded(next, steps[1..]);
      SumUpdate(w.txs, i, next.txs[i], Left());
    }
  }
}
