/** Sums over sequences, and the insertion-ordered `Map` of JavaScript (the string-keyed
    array of PHP) as a sequence of entries. */
module Sums {
  import opened Ordering

  function SumBy<T>(xs: seq<T>, f: T -> int): int {
    if xs == [] then 0 else f(xs[0]) + SumBy(xs[1..], f)
  }

  lemma {:induction false} SumConcat<T>(xs: seq<T>, ys: seq<T>, f: T -> int)
    ensures SumBy(xs + ys, f) == SumBy(xs, f) + SumBy(ys, f)
  {
    if xs == [] {
      assert xs + ys == ys;
    } else {
      assert (xs + ys)[1..] == xs[1..] + ys;
      SumConcat(xs[1..], ys, f);
    }
  }

  lemma {:induction false} SumSnoc<T>(xs: seq<T>, x: T, f: T -> int)
    ensures SumBy(xs + [x], f) == SumBy(xs, f) + f(x)
  {
    SumConcat(xs, [x], f);
  }

  /** The next prefix adds the next element: the step of every summing loop. */
  lemma {:induction false} SumPrefix<T>(xs: seq<T>, i: nat, f: T -> int)
    requires i < |xs|
    ensures SumBy(xs[..i + 1], f) == SumBy(xs[..i], f) + f(xs[i])
  {
    assert xs[..i + 1] == xs[..i] + [xs[i]];
    SumSnoc(xs[..i], xs[i], f);
  }

  lemma {:induction false} SumUpdate<T>(xs: seq<T>, i: nat, x: T, f: T -> int)
    requires i < |xs|
    ensures SumBy(xs[i := x], f) == SumBy(xs, f) - f(xs[i]) + f(x)
  {
    assert xs == xs[..i] + ([xs[i]] + xs[i + 1..]);
    assert xs[i := x] == xs[..i] + ([x] + xs[i + 1..]);
    SumConcat(xs[..i], [xs[i]] + xs[i + 1..], f);
    SumConcat(xs[..i], [x] + xs[i + 1..], f);
  }

  lemma {:induction false} SumNonNegative<T>(xs: seq<T>, f: T -> int)
    requires forall x :: x in xs ==> f(x) >= 0
    ensures SumBy(xs, f) >= 0
  {
    if xs != [] { SumNonNegative(xs[1..], f); }
  }

  lemma {:induction false} SumInsert<T>(x: T, ys: seq<T>, key: T -> Key, f: T -> int)
    ensures SumBy(Insert(x, ys, key), f) == f(x) + SumBy(ys, f)
  {
    if ys == [] || !Before(key(ys[0]), key(x)) {
      assert ([x] + ys)[1..] == ys;
    } else {
      SumInsert(x, ys[1..], key, f);
      assert ([ys[0]] + Insert(x, ys[1..], key))[1..] == Insert(x, ys[1..], key);
    }
  }

  lemma {:induction false} SumSort<T>(xs: seq<T>, key: T -> Key, f: T -> int)
    ensures SumBy(Sort(xs, key), f) == SumBy(xs, f)
  {
    if xs != [] {
      SumSort(xs[1..], key, f);
      SumInsert(xs[0], Sort(xs[1..], key), key, f);
    }
  }

  function Map<T, U>(xs: seq<T>, f: T -> U): (ys: seq<U>)
    ensures |ys| == |xs|
    ensures forall i :: 0 <= i < |xs| ==> ys[i] == f(xs[i])
  {
    if xs == [] then [] else [f(xs[0])] + Map(xs[1..], f)
  }

  function Filter<T(!new)>(xs: seq<T>, p: T -> bool): (ys: seq<T>)
    ensures forall y :: y in ys <==> y in xs && p(y)
  {
    if xs == [] then []
    else
      var front, last := xs[..|xs| - 1], xs[|xs| - 1];
      assert xs == front + [last];
      if p(last) then Filter(front, p) + [last] else Filter(front, p)
  }

  lemma {:induction false} FilterCounts<T(!new)>(xs: seq<T>, p: T -> bool, x: T)
    ensures multiset(Filter(xs, p))[x] == if p(x) then multiset(xs)[x] else 0
  {
    if xs != [] {
      var front, last := xs[..|xs| - 1], xs[|xs| - 1];
      assert xs == front + [last];
      FilterCounts(front, p, x);
    }
  }

  lemma {:induction false} FilterPermutes<T(!new)>(xs: seq<T>, ys: seq<T>, p: T -> bool)
    requires multiset(xs) == multiset(ys)
    ensures multiset(Filter(xs, p)) == multiset(Filter(ys, p))
  {
    forall x ensures multiset(Filter(xs, p))[x] == multiset(Filter(ys, p))[x] {
      FilterCounts(xs, p, x);
      FilterCounts(ys, p, x);
    }
  }

  /** Filtering keeps distinct keys distinct. */
  lemma {:induction false} FilterDistinct<T(!new)>(xs: seq<T>, p: T -> bool, key: T -> Key)
    requires forall i, j :: 0 <= i < j < |xs| && p(xs[i]) && p(xs[j]) ==> key(xs[i]) != key(xs[j])
    ensures DistinctKeys(Filter(xs, p), key)
  {
    if xs != [] {
      var front, last := xs[..|xs| - 1], xs[|xs| - 1];
      FilterDistinct(front, p, key);
      forall y | y in Filter(front, p) && p(last) ensures key(y) != key(last) {
        var i :| 0 <= i < |front| && front[i] == y;
        assert xs[i] == y && xs[|xs| - 1] == last;
      }
    }
  }

  /** Selecting and sorting forget the order of a list whose selected keys are distinct. */
  lemma {:induction false} SelectAndSort<T(!new)>(xs: seq<T>, ys: seq<T>, p: T -> bool, key: T -> Key)
    requires multiset(xs) == multiset(ys)
    requires forall i, j :: 0 <= i < j < |xs| && p(xs[i]) && p(xs[j]) ==> key(xs[i]) != key(xs[j])
    ensures Sort(Filter(xs, p), key) == Sort(Filter(ys, p), key)
  {
    FilterPermutes(xs, ys, p);
    FilterDistinct(xs, p, key);
    DistinctKeysIdentify(Filter(xs, p), key);
    SortCanonical(Filter(xs, p), Filter(ys, p), key);
  }

  /** Sorting and mapping commute when the map keeps the key. */
  lemma {:induction false} MapInsert<T, U>(x: T, ys: seq<T>, f: T -> U, k: T -> Key, l: U -> Key)
    requires forall t: T {:trigger f(t)} :: l(f(t)) == k(t)
    ensures Map(Insert(x, ys, k), f) == Insert(f(x), Map(ys, f), l)
  {
    if ys == [] || !Before(k(ys[0]), k(x)) {
      assert ([x] + ys)[1..] == ys;
    } else {
      MapInsert(x, ys[1..], f, k, l);
      assert ([ys[0]] + Insert(x, ys[1..], k))[1..] == Insert(x, ys[1..], k);
      assert Map(ys, f)[1..] == Map(ys[1..], f);
    }
  }

  lemma {:induction false} MapSort<T, U>(xs: seq<T>, f: T -> U, k: T -> Key, l: U -> Key)
    requires forall t: T {:trigger f(t)} :: l(f(t)) == k(t)
    ensures Map(Sort(xs, k), f) == Sort(Map(xs, f), l)
  {
    if xs != [] {
      MapSort(xs[1..], f, k, l);
      MapInsert(xs[0], Sort(xs[1..], k), f, k, l);
      assert Map(xs, f)[1..] == Map(xs[1..], f);
    }
  }

  /** A sum is a sum of the mapped values. */
  lemma {:induction false} SumMap<T, U>(xs: seq<T>, f: T -> U, g: U -> int, h: T -> int)
    requires forall x :: x in xs ==> g(f(x)) == h(x)
    ensures SumBy(Map(xs, f), g) == SumBy(xs, h)
  {
    if xs != [] {
      SumMap(xs[1..], f, g, h);
      assert Map(xs, f)[1..] == Map(xs[1..], f);
    }
  }

  datatype Entry<K, V> = Entry(key: K, value: V)

  /** The position of `k`, or the length when it is absent. */
  function IndexOf<K(==), V>(m: seq<Entry<K, V>>, k: K): (i: nat)
    ensures i <= |m|
    ensures i < |m| ==> m[i].key == k
    ensures forall j :: 0 <= j < i ==> m[j].key != k
  {
    if m == [] then 0
    else if m[0].key == k then 0
    else
      var i := IndexOf(m[1..], k);
      assert forall j :: 1 <= j < i + 1 ==> m[j] == m[1..][j - 1];
      i + 1
  }

  predicate Has<K(==), V>(m: seq<Entry<K, V>>, k: K) { IndexOf(m, k) < |m| }

  function GetOr<K(==), V>(m: seq<Entry<K, V>>, k: K, default: V): V {
    if Has(m, k) then m[IndexOf(m, k)].value else default
  }

  /** `Map.set`: overwrite in place, or append. */
  function Put<K(==), V>(m: seq<Entry<K, V>>, k: K, v: V): seq<Entry<K, V>> {
    if Has(m, k) then m[IndexOf(m, k) := Entry(k, v)] else m + [Entry(k, v)]
  }

  ghost predicate Functional<K, V>(m: seq<Entry<K, V>>) {
    forall i, j :: 0 <= i < j < |m| ==> m[i].key != m[j].key
  }

  lemma {:induction false} PutKeeps<K, V>(m: seq<Entry<K, V>>, k: K, v: V)
    requires Functional(m)
    ensures Functional(Put(m, k, v))
    ensures forall k' :: Has(Put(m, k, v), k') <==> k' == k || Has(m, k')
  {
    var p := Put(m, k, v);
    var i := IndexOf(m, k);
    assert p[i] == Entry(k, v);
    forall k' ensures Has(p, k') <==> k' == k || Has(m, k') {
      var a, b := IndexOf(m, k'), IndexOf(p, k');
      if a < |m| && k' != k { assert p[a].key == k'; }
    }
  }

  function ValueOf<K>(): Entry<K, int> -> int { (e: Entry<K, int>) => e.value }

  lemma {:induction false} PutSum<K>(m: seq<Entry<K, int>>, k: K, v: int)
    ensures SumBy(Put(m, k, v), ValueOf()) == SumBy(m, ValueOf()) - GetOr(m, k, 0) + v
  {
    if Has(m, k) {
      SumUpdate(m, IndexOf(m, k), Entry(k, v), ValueOf());
    } else {
      SumSnoc(m, Entry(k, v), ValueOf());
    }
  }

  /** In a map without repeated keys an entry is found where it stands. */
  lemma {:induction false} IndexOfEntry<K, V>(m: seq<Entry<K, V>>, i: nat)
    requires Functional(m) && i < |m|
    ensures IndexOf(m, m[i].key) == i
  {
  }

  lemma {:induction false} GetAfterPut<K, V>(m: seq<Entry<K, V>>, k: K, v: V, k': K, default: V)
    requires Functional(m)
    ensures GetOr(Put(m, k, v), k', default) == if k' == k then v else GetOr(m, k', default)
  {
    PutKeeps(m, k, v);
    var p := Put(m, k, v);
    assert p[IndexOf(m, k)] == Entry(k, v);
    if k' == k {
      IndexOfEntry(p, IndexOf(m, k));
    } else if Has(m, k') {
      assert p[IndexOf(m, k')] == m[IndexOf(m, k')];
      IndexOfEntry(p, IndexOf(m, k'));
    }
  }
}
