/** The sliding-window limiter: a deque of admitted moments for each bucket and subject. */
module RateLimiter {
  import opened Sums

  datatype Tier = SelfRegistered | Allowlisted

  datatype Bucket =
    | Agent | Ip | ProfileRegistration | TapIssuance | ApproveAttempt | CodeAttempt | QuantityOracle

  datatype Limit = Limit(limit: nat, window: nat)

  /** `LIMITS` (src/openstore/sidecar/admission/ratelimit.py:29-42): how many, and in how many seconds. */
  function LimitOf(bucket: Bucket, tier: Tier): Limit {
    match bucket
    case Agent => if tier == Allowlisted then Limit(300, 60) else Limit(30, 60)
    case Ip => Limit(120, 60)
    case ProfileRegistration => Limit(5, 3600)
    case TapIssuance => Limit(5, 60)
    case ApproveAttempt => Limit(10, 3600)
    case CodeAttempt => Limit(5, 3600)
    case QuantityOracle => Limit(20, 3600)
  }

  /** The tiers differ in how many, never in how long. */
  function WindowOf(bucket: Bucket): (window: nat)
    ensures forall tier :: LimitOf(bucket, tier).window == window
  {
    LimitOf(bucket, SelfRegistered).window
  }

  datatype Key = Key(bucket: Bucket, subject: string)

  // ----- one deque -----

  /** What is left once the hits older than the window have been popped from the front. */
  function Pruned(hits: seq<real>, window: nat, now: real): seq<real> {
    if hits != [] && now - hits[0] > window as real then Pruned(hits[1..], window, now) else hits
  }

  /** The deque after a call, and whether the call was admitted. */
  function Checked(hits: seq<real>, l: Limit, now: real): (seq<real>, bool) {
    var kept := Pruned(hits, l.window, now);
    if |kept| >= l.limit then (kept, false) else (kept + [now], true)
  }

  class Limiter {
    var hits: map<Key, seq<real>>

    function HitsOf(key: Key): seq<real>
      reads this
    {
      if key in hits then hits[key] else []
    }

    constructor ()
      ensures hits == map[]
    {
      hits := map[];
    }

    /** `check`: pop what is too old, refuse at the limit, or record the hit. */
    method Check(bucket: Bucket, subject: string, tier: Tier, now: real) returns (admitted: bool)
      modifies this
      ensures (HitsOf(Key(bucket, subject)), admitted)
           == Checked(old(HitsOf(Key(bucket, subject))), LimitOf(bucket, tier), now)
      ensures hits == old(hits)[Key(bucket, subject) := HitsOf(Key(bucket, subject))]
    {
      var l, key := LimitOf(bucket, tier), Key(bucket, subject);
      var deque := if key in hits then hits[key] else [];
      while deque != [] && now - deque[0] > l.window as real
        invariant Pruned(deque, l.window, now) == Pruned(old(HitsOf(key)), l.window, now)
        decreases |deque|
      {
        deque := deque[1..];
      }
      if |deque| >= l.limit {
        hits := hits[key := deque];
        return false;
      }
      hits := hits[key := deque + [now]];
      return true;
    }
  }

  // ----- runs of calls for one bucket and subject -----

  datatype Call = Call(now: real, tier: Tier)

  /** The deque after so many calls. */
  function Deque(bucket: Bucket, calls: seq<Call>): seq<real>
    decreases |calls|, 0
  {
    if calls == [] then [] else Answer(bucket, calls[..|calls| - 1], calls[|calls| - 1]).0
  }

  function Answer(bucket: Bucket, before: seq<Call>, c: Call): (seq<real>, bool)
    decreases |before|, 1
  {
    Checked(Deque(bucket, before), LimitOf(bucket, c.tier), c.now)
  }

  /** The full history: every admitted moment, in order. */
  function History(bucket: Bucket, calls: seq<Call>): seq<real> {
    if calls == [] then []
    else
      var before, c := calls[..|calls| - 1], calls[|calls| - 1];
      History(bucket, before) + if Answer(bucket, before, c).1 then [c.now] else []
  }

  /** A clock that never goes back. */
  ghost predicate Ticking(calls: seq<Call>) {
    forall i, j :: 0 <= i < j < |calls| ==> calls[i].now <= calls[j].now
  }

  ghost predicate Ordered(hits: seq<real>) {
    forall i, j :: 0 <= i < j < |hits| ==> hits[i] <= hits[j]
  }

  function Recent(now: real, window: nat): real -> bool { (h: real) => now - h <= window as real }

  /** The closed interval that starts at `from` and is as long as the window. */
  function Inside(from: real, window: nat): real -> bool { (h: real) => from <= h <= from + window as real }

  lemma {:induction false} FilterAll(xs: seq<real>, p: real -> bool)
    requires forall x :: x in xs ==> p(x)
    ensures Filter(xs, p) == xs
  {
    if xs != [] {
      var front, last := xs[..|xs| - 1], xs[|xs| - 1];
      assert last in xs && p(last);
      FilterAll(front, p);
      assert xs == front + [last];
    }
  }

  lemma {:induction false} FilterHead(x: real, xs: seq<real>, p: real -> bool)
    requires !p(x)
    ensures Filter([x] + xs, p) == Filter(xs, p)
  {
    if xs != [] {
      var all, front := [x] + xs, xs[..|xs| - 1];
      FilterHead(x, front, p);
      assert all[..|all| - 1] == [x] + front && all[|all| - 1] == xs[|xs| - 1];
    } else {
      assert [x] + xs == [x] && [x][..0] == [];
    }
  }

  lemma {:induction false} FilterTwice(xs: seq<real>, p: real -> bool, q: real -> bool)
    requires forall x :: q(x) ==> p(x)
    ensures Filter(Filter(xs, p), q) == Filter(xs, q)
  {
    if xs != [] {
      var front, last := xs[..|xs| - 1], xs[|xs| - 1];
      FilterTwice(front, p, q);
      if p(last) { assert (Filter(front, p) + [last])[..|Filter(front, p)|] == Filter(front, p); }
    }
  }

  lemma {:induction false} FilterSnoc(xs: seq<real>, x: real, p: real -> bool)
    ensures Filter(xs + [x], p) == Filter(xs, p) + if p(x) then [x] else []
  {
    assert (xs + [x])[..|xs|] == xs;
  }

  lemma {:induction false} FilterGrows(xs: seq<real>, p: real -> bool, q: real -> bool)
    requires forall x :: x in xs && p(x) ==> q(x)
    ensures |Filter(xs, p)| <= |Filter(xs, q)|
  {
    if xs != [] {
      var front, last := xs[..|xs| - 1], xs[|xs| - 1];
      assert last in xs && (p(last) ==> q(last));
      FilterGrows(front, p, q);
    }
  }

  /** Popping from the front of an ordered deque keeps exactly what is recent. */
  lemma {:induction false} PrunedIsRecent(hits: seq<real>, window: nat, now: real)
    requires Ordered(hits)
    ensures Pruned(hits, window, now) == Filter(hits, Recent(now, window))
  {
    if hits != [] && now - hits[0] > window as real {
      PrunedIsRecent(hits[1..], window, now);
      assert hits == [hits[0]] + hits[1..];
      FilterHead(hits[0], hits[1..], Recent(now, window));
    } else {
      FilterAll(hits, Recent(now, window));
    }
  }

  lemma {:induction false} OrderedSnoc(hits: seq<real>, last: real)
    requires Ordered(hits) && forall h :: h in hits ==> h <= last
    ensures Ordered(hits + [last])
  {
    var all := hits + [last];
    forall i, j | 0 <= i < j < |all| ensures all[i] <= all[j] {
      assert hits[i] in hits;
    }
  }

  lemma {:induction false} FilterOrdered(xs: seq<real>, p: real -> bool)
    requires Ordered(xs)
    ensures Ordered(Filter(xs, p))
  {
    if xs != [] {
      var front, last := xs[..|xs| - 1], xs[|xs| - 1];
      FilterOrdered(front, p);
      forall x | x in Filter(front, p) ensures x <= last {
        var i :| 0 <= i < |front| && front[i] == x;
        assert xs[i] == x;
      }
      OrderedSnoc(Filter(front, p), last);
    }
  }

  lemma {:induction false} HistoryOrdered(bucket: Bucket, calls: seq<Call>)
    requires Ticking(calls)
    ensures Ordered(History(bucket, calls))
    ensures forall h :: h in History(bucket, calls) ==> calls != [] && h <= calls[|calls| - 1].now
  {
    if calls != [] {
      HistoryOrdered(bucket, calls[..|calls| - 1]);
      var before, c := calls[..|calls| - 1], calls[|calls| - 1];
      if before != [] { assert before[|before| - 1].now <= c.now; }
      OrderedSnoc(History(bucket, before), c.now);
    }
  }

  lemma {:induction false} RecentOfRecent(h: seq<real>, window: nat, last: real, now: real)
    requires Ordered(h) && last <= now
    ensures Pruned(Filter(h, Recent(last, window)), window, now) == Filter(h, Recent(now, window))
  {
    FilterOrdered(h, Recent(last, window));
    PrunedIsRecent(Filter(h, Recent(last, window)), window, now);
    FilterTwice(h, Recent(last, window), Recent(now, window));
  }

  /** One call, on a deque whose recent part is the recent part of the history. */
  lemma {:induction false} OneCall(deque: seq<real>, h: seq<real>, l: Limit, now: real)
    requires Pruned(deque, l.window, now) == Filter(h, Recent(now, l.window))
    ensures var (after, admitted) := Checked(deque, l, now);
      after == Filter(if admitted then h + [now] else h, Recent(now, l.window))
  {
    FilterSnoc(h, now, Recent(now, l.window));
  }

  lemma {:induction false} DequeSnoc(bucket: Bucket, calls: seq<Call>, c: Call)
    ensures Deque(bucket, calls + [c]) == Answer(bucket, calls, c).0
    ensures History(bucket, calls + [c]) == History(bucket, calls) + if Answer(bucket, calls, c).1 then [c.now] else []
  {
    assert (calls + [c])[..|calls|] == calls;
  }

  lemma {:induction false} CallRefines(bucket: Bucket, before: seq<Call>, c: Call)
    requires Pruned(Deque(bucket, before), WindowOf(bucket), c.now) == Filter(History(bucket, before), Recent(c.now, WindowOf(bucket)))
    ensures Deque(bucket, before + [c]) == Filter(History(bucket, before + [c]), Recent(c.now, WindowOf(bucket)))
  {
    DequeSnoc(bucket, before, c);
    OneCall(Deque(bucket, before), History(bucket, before), LimitOf(bucket, c.tier), c.now);
    if !Answer(bucket, before, c).1 { assert History(bucket, before) + [] == History(bucket, before); }
  }

  lemma {:induction false} PrunedDeque(bucket: Bucket, calls: seq<Call>, now: real)
    requires Ticking(calls) && (calls != [] ==> calls[|calls| - 1].now <= now)
    ensures Pruned(Deque(bucket, calls), WindowOf(bucket), now) == Filter(History(bucket, calls), Recent(now, WindowOf(bucket)))
    decreases |calls|, 1
  {
    if calls != [] {
      DequeIsTheWindow(bucket, calls);
      HistoryOrdered(bucket, calls);
      RecentOfRecent(History(bucket, calls), WindowOf(bucket), calls[|calls| - 1].now, now);
    }
  }

  /** The deque refines the full history: after every call it holds exactly the admitted
      moments of the last window, whatever the tiers of the calls. */
  lemma {:induction false} DequeIsTheWindow(bucket: Bucket, calls: seq<Call>)
    requires Ticking(calls) && calls != []
    ensures Deque(bucket, calls) == Filter(History(bucket, calls), Recent(calls[|calls| - 1].now, WindowOf(bucket)))
    decreases |calls|, 0
  {
    var before, c := calls[..|calls| - 1], calls[|calls| - 1];
    assert calls == before + [c];
    if before != [] { assert before[|before| - 1].now <= c.now; }
    PrunedDeque(bucket, before, c.now);
    CallRefines(bucket, before, c);
  }

  /** The limit over every run: no closed interval of the window's length holds more admitted
      calls than the largest limit that applied. */
  lemma {:induction false} NoIntervalExceeds(bucket: Bucket, calls: seq<Call>, most: nat, from: real)
    requires Ticking(calls) && calls != []
    requires forall c :: c in calls ==> LimitOf(bucket, c.tier).limit <= most
    ensures |Filter(History(bucket, calls), Inside(from, WindowOf(bucket)))| <= most
  {
    var window := WindowOf(bucket);
    var before, c := calls[..|calls| - 1], calls[|calls| - 1];
    var h := History(bucket, calls);
    assert c in calls;
    if before != [] { NoIntervalExceeds(bucket, before, most, from); }
    if Answer(bucket, before, c).1 {
      if Inside(from, window)(c.now) {
        HistoryOrdered(bucket, calls);
        FilterGrows(h, Inside(from, window), Recent(c.now, window));
        DequeIsTheWindow(bucket, calls);
      } else {
        FilterSnoc(History(bucket, before), c.now, Inside(from, window));
      }
    } else {
      assert h == History(bucket, before);
    }
  }

  lemma {:induction false} PrunedTwice(hits: seq<real>, window: nat, earlier: real, now: real)
    requires earlier <= now
    ensures Pruned(Pruned(hits, window, earlier), window, now) == Pruned(hits, window, now)
  {
    if hits != [] && earlier - hits[0] > window as real { PrunedTwice(hits[1..], window, earlier, now); }
  }

  /** A refused call changes no later verdict: with it or without it the history is the same,
      and whatever is asked next, no earlier than it, is answered alike. */
  lemma {:induction false} RefusalsLeaveNoTrace(bucket: Bucket, before: seq<Call>, c: Call, after: seq<Call>, next: Call)
    requires !Answer(bucket, before, c).1
    requires c.now <= next.now && forall d :: d in after ==> c.now <= d.now
    ensures Answer(bucket, before + [c] + after, next) == Answer(bucket, before + after, next)
    ensures History(bucket, before + [c] + after) == History(bucket, before + after)
    decreases |after|
  {
    if after == [] {
      assert before + [c] + after == before + [c] && before + after == before;
      DequeSnoc(bucket, before, c);
      PrunedTwice(Deque(bucket, before), LimitOf(bucket, c.tier).window, c.now, next.now);
    } else {
      var front, d := after[..|after| - 1], after[|after| - 1];
      assert before + [c] + after == before + [c] + front + [d] && before + after == before + front + [d];
      assert d in after;
      RefusalsLeaveNoTrace(bucket, before, c, front, d);
      DequeSnoc(bucket, before + [c] + front, d);
      DequeSnoc(bucket, before + front, d);
    }
  }

  // ----- when a call has to be admitted -----

  /** A call of any bucket and subject. */
  datatype Asked = Asked(key: Key, tier: Tier, now: real)

  function HitsIn(table: map<Key, seq<real>>, key: Key): seq<real> { if key in table then table[key] else [] }

  /** The limiter's table after so many calls of all keys, from an empty one. */
  function Table(asked: seq<Asked>): map<Key, seq<real>> {
    if asked == [] then map[]
    else
      var t, a := Table(asked[..|asked| - 1]), asked[|asked| - 1];
      t[a.key := Checked(HitsIn(t, a.key), LimitOf(a.key.bucket, a.tier), a.now).0]
  }

  /** What each of the calls was answered. */
  function Answers(asked: seq<Asked>): (admitted: seq<bool>)
    ensures |admitted| == |asked|
  {
    if asked == [] then []
    else
      var front, a := asked[..|asked| - 1], asked[|asked| - 1];
      Answers(front) + [Checked(HitsIn(Table(front), a.key), LimitOf(a.key.bucket, a.tier), a.now).1]
  }

  /** How many calls of a key were admitted and are no older than the window. */
  function StillCounted(asked: seq<Asked>, admitted: seq<bool>, key: Key, now: real, window: nat): nat
    requires |asked| == |admitted|
  {
    if asked == [] then 0
    else
      var n := |asked| - 1;
      StillCounted(asked[..n], admitted[..n], key, now, window)
        + if asked[n].key == key && admitted[n] && now - asked[n].now <= window as real then 1 else 0
  }

  function CallsOf(asked: seq<Asked>, key: Key): seq<Call> {
    if asked == [] then []
    else
      var front, a := CallsOf(asked[..|asked| - 1], key), asked[|asked| - 1];
      if a.key == key then front + [Call(a.now, a.tier)] else front
  }

  ghost predicate Forward(asked: seq<Asked>) {
    forall i, j :: 0 <= i < j < |asked| ==> asked[i].now <= asked[j].now
  }

  lemma {:induction false} CallsTick(asked: seq<Asked>, key: Key)
    requires Forward(asked)
    ensures Ticking(CallsOf(asked, key))
    ensures forall c :: c in CallsOf(asked, key) ==> asked != [] && c.now <= asked[|asked| - 1].now
  {
    if asked != [] {
      var front, a := asked[..|asked| - 1], asked[|asked| - 1];
      CallsTick(front, key);
      var calls := CallsOf(front, key);
      forall c | c in calls ensures c.now <= a.now { assert front[|front| - 1].now <= a.now; }
      forall i, j | 0 <= i < j < |CallsOf(asked, key)| ensures CallsOf(asked, key)[i].now <= CallsOf(asked, key)[j].now {
        assert calls[i] in calls;
      }
    }
  }

  /** Each key's deque is the one its own calls leave. */
  lemma {:induction false} KeysAreSeparate(asked: seq<Asked>, key: Key)
    ensures HitsIn(Table(asked), key) == Deque(key.bucket, CallsOf(asked, key))
  {
    if asked != [] {
      var front, a := asked[..|asked| - 1], asked[|asked| - 1];
      KeysAreSeparate(front, key);
      if a.key == key { DequeSnoc(key.bucket, CallsOf(front, key), Call(a.now, a.tier)); }
    }
  }

  lemma {:induction false} CountedInHistory(asked: seq<Asked>, key: Key, now: real, window: nat)
    ensures |Filter(History(key.bucket, CallsOf(asked, key)), Recent(now, window))| == StillCounted(asked, Answers(asked), key, now, window)
  {
    if asked != [] {
      var front, a := asked[..|asked| - 1], asked[|asked| - 1];
      CountedInHistory(front, key, now, window);
      assert Answers(asked)[..|front|] == Answers(front);
      if a.key == key {
        var calls, c := CallsOf(front, key), Call(a.now, a.tier);
        KeysAreSeparate(front, key);
        DequeSnoc(key.bucket, calls, c);
        FilterSnoc(History(key.bucket, calls), a.now, Recent(now, window));
        if !Answer(key.bucket, calls, c).1 { assert History(key.bucket, calls) + [] == History(key.bucket, calls); }
      }
    }
  }

  lemma {:induction false} LastAnswer(front: seq<Asked>, a: Asked)
    requires Forward(front + [a])
    ensures var l := LimitOf(a.key.bucket, a.tier);
      Checked(HitsIn(Table(front), a.key), l, a.now).1 <==> StillCounted(front, Answers(front), a.key, a.now, l.window) < l.limit
  {
    var bucket, calls, all := a.key.bucket, CallsOf(front, a.key), front + [a];
    assert forall i :: 0 <= i < |front| ==> all[i] == front[i];
    assert all[|front|] == a;
    CallsTick(front, a.key);
    KeysAreSeparate(front, a.key);
    if calls != [] { assert calls[|calls| - 1] in calls; }
    PrunedDeque(bucket, calls, a.now);
    CountedInHistory(front, a.key, a.now, WindowOf(bucket));
  }

  lemma {:induction false} AnswersPrefix(asked: seq<Asked>, i: nat)
    requires i <= |asked|
    ensures Answers(asked)[..i] == Answers(asked[..i])
  {
    if i < |asked| {
      var front := asked[..|asked| - 1];
      AnswersPrefix(front, i);
      assert front[..i] == asked[..i];
      assert Answers(asked)[..|front|] == Answers(front);
    } else {
      assert asked[..i] == asked;
    }
  }

  /** The limiter from outside, over every run of calls of any keys whose clock never goes back: a
      call is admitted if and only if fewer than its limit of its key's admitted calls are no
      older than the window. */
  lemma {:induction false} AdmittedExactly(asked: seq<Asked>, i: nat)
    requires Forward(asked) && i < |asked|
    ensures var a, l := asked[i], LimitOf(asked[i].key.bucket, asked[i].tier);
      Answers(asked)[i] <==> StillCounted(asked[..i], Answers(asked)[..i], a.key, a.now, l.window) < l.limit
  {
    var front, upTo := asked[..i], asked[..i + 1];
    assert upTo == front + [asked[i]] && upTo[..i] == front;
    AnswersPrefix(asked, i);
    AnswersPrefix(asked, i + 1);
    assert Answers(asked)[i] == Answers(asked)[..i + 1][i] == Answers(upTo)[i];
    LastAnswer(front, asked[i]);
  }
}
