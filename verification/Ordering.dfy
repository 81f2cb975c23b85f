/** One total order and one stable sort, shared by every place the source sorts:
    SKUs, largest remainders, tax groups and the breakdown lists of a Quote.

    Every comparator in the source is lexicographic over at most one leading number,
    two strings and one trailing number, so a sort key is that quadruple. */
module Ordering {

  /** Strings by character code, shorter prefix first: the `<` of JavaScript and
      Python strings and PHP's `strcmp`, on the characters SKUs are made of. */
  predicate TextLess(a: string, b: string) {
    if b == [] then false
    else if a == [] then true
    else a[0] < b[0] || (a[0] == b[0] && TextLess(a[1..], b[1..]))
  }

  lemma {:induction false} TextTotal(a: string, b: string)
    ensures !TextLess(a, a)
    ensures TextLess(a, b) || a == b || TextLess(b, a)
    ensures !(TextLess(a, b) && TextLess(b, a))
    decreases |a|
  {
    if a != [] {
      TextTotal(a[1..], if b == [] then [] else b[1..]);
      if b != [] && a[0] == b[0] && a[1..] == b[1..] {
        assert a == [a[0]] + a[1..] == b;
      }
    }
  }

  lemma {:induction false} TextTransitive(a: string, b: string, c: string)
    requires TextLess(a, b) && TextLess(b, c)
    ensures TextLess(a, c)
    decreases |a|
  {
    if a != [] && a[0] == b[0] == c[0] {
      TextTransitive(a[1..], b[1..], c[1..]);
    }
  }

  datatype Key = Key(major: int, first: string, second: string, minor: int)

  function TextKey(s: string): Key { Key(0, s, "", 0) }

  predicate Before(a: Key, b: Key) {
    || a.major < b.major
    || (a.major == b.major &&
        (|| TextLess(a.first, b.first)
         || (a.first == b.first &&
             (TextLess(a.second, b.second) || (a.second == b.second && a.minor < b.minor)))))
  }

  lemma {:induction false} BeforeTotal(a: Key, b: Key)
    ensures !Before(a, a)
    ensures Before(a, b) || a == b || Before(b, a)
    ensures !(Before(a, b) && Before(b, a))
  {
    TextTotal(a.first, b.first);
    TextTotal(a.second, b.second);
    TextTotal(b.first, a.first);
  }

  lemma {:induction false} BeforeTransitive(a: Key, b: Key, c: Key)
    requires Before(a, b) && Before(b, c)
    ensures Before(a, c)
  {
    if a.major == b.major == c.major {
      if TextLess(a.first, b.first) && TextLess(b.first, c.first) {
        TextTransitive(a.first, b.first, c.first);
      }
      if a.first == b.first == c.first && TextLess(a.second, b.second) && TextLess(b.second, c.second) {
        TextTransitive(a.second, b.second, c.second);
      }
    }
  }

  /** Stable: `x` goes in front of the elements that are not before it. */
  function Insert<T>(x: T, ys: seq<T>, key: T -> Key): seq<T> {
    if ys == [] || !Before(key(ys[0]), key(x)) then [x] + ys
    else [ys[0]] + Insert(x, ys[1..], key)
  }

  function Sort<T>(xs: seq<T>, key: T -> Key): seq<T> {
    if xs == [] then [] else Insert(xs[0], Sort(xs[1..], key), key)
  }

  ghost predicate Sorted<T>(xs: seq<T>, key: T -> Key) {
    forall i, j :: 0 <= i < j < |xs| ==> !Before(key(xs[j]), key(xs[i]))
  }

  ghost predicate DistinctKeys<T>(xs: seq<T>, key: T -> Key) {
    forall i, j :: 0 <= i < j < |xs| ==> key(xs[i]) != key(xs[j])
  }

  lemma {:induction false} InsertSorts<T>(x: T, ys: seq<T>, key: T -> Key)
    requires Sorted(ys, key)
    ensures multiset(Insert(x, ys, key)) == multiset{x} + multiset(ys)
    ensures Sorted(Insert(x, ys, key), key)
  {
    if ys == [] {
    } else if !Before(key(ys[0]), key(x)) {
      forall j | 0 <= j < |ys| ensures !Before(key(ys[j]), key(x)) {
        if Before(key(ys[j]), key(x)) {
          BeforeTotal(key(ys[0]), key(ys[j]));
          if Before(key(ys[0]), key(ys[j])) { BeforeTransitive(key(ys[0]), key(ys[j]), key(x)); }
        }
      }
    } else {
      InsertSorts(x, ys[1..], key);
      var r := Insert(x, ys[1..], key);
      assert ys == [ys[0]] + ys[1..];
      BeforeTotal(key(ys[0]), key(x));
      forall j | 0 <= j < |r| ensures !Before(key(r[j]), key(ys[0])) {
        assert r[j] in multiset(r);
        if r[j] != x {
          assert r[j] in ys[1..];
        }
      }
    }
  }

  /** Sorting permutes and orders. */
  lemma {:induction false} SortSorts<T>(xs: seq<T>, key: T -> Key)
    ensures multiset(Sort(xs, key)) == multiset(xs)
    ensures |Sort(xs, key)| == |xs|
    ensures Sorted(Sort(xs, key), key)
  {
    if xs != [] {
      SortSorts(xs[1..], key);
      InsertSorts(xs[0], Sort(xs[1..], key), key);
      assert xs == [xs[0]] + xs[1..];
    }
    assert |multiset(Sort(xs, key))| == |multiset(xs)|;
  }

  lemma {:induction false} TwiceInMultiset<T>(xs: seq<T>, i: nat, j: nat)
    requires i < j < |xs| && xs[i] == xs[j]
    ensures multiset(xs)[xs[i]] >= 2
  {
    assert xs == xs[..j] + xs[j..];
    assert xs[i] in xs[..j] && xs[j] in xs[j..];
  }

  lemma {:induction false} OnceInMultiset<T>(xs: seq<T>, key: T -> Key, x: T)
    requires DistinctKeys(xs, key)
    ensures multiset(xs)[x] <= 1
  {
    if xs != [] {
      assert xs == [xs[0]] + xs[1..];
      OnceInMultiset(xs[1..], key, x);
      assert forall j :: 0 <= j < |xs[1..]| ==> xs[1..][j] == xs[j + 1];
    }
  }

  /** A permutation keeps distinct keys distinct. */
  lemma {:induction false} DistinctKeysPermute<T>(xs: seq<T>, ys: seq<T>, key: T -> Key)
    requires multiset(xs) == multiset(ys)
    requires DistinctKeys(xs, key)
    ensures DistinctKeys(ys, key)
  {
    forall i, j | 0 <= i < j < |ys| ensures key(ys[i]) != key(ys[j]) {
      assert ys[i] in multiset(xs) && ys[j] in multiset(xs);
      var a :| 0 <= a < |xs| && xs[a] == ys[i];
      var b :| 0 <= b < |xs| && xs[b] == ys[j];
      if a == b {
        TwiceInMultiset(ys, i, j);
        OnceInMultiset(xs, key, xs[a]);
      }
    }
  }

  /** Entries a sort cannot tell apart are the same entry. */
  ghost predicate KeysIdentify<T>(xs: seq<T>, key: T -> Key) {
    forall x, y :: x in xs && y in xs && key(x) == key(y) ==> x == y
  }

  lemma {:induction false} DistinctKeysIdentify<T>(xs: seq<T>, key: T -> Key)
    requires DistinctKeys(xs, key)
    ensures KeysIdentify(xs, key)
  {
  }

  lemma {:induction false} SameFirst<T>(xs: seq<T>, ys: seq<T>, key: T -> Key)
    requires multiset(xs) == multiset(ys) && xs != [] && ys != []
    requires Sorted(xs, key) && Sorted(ys, key)
    requires KeysIdentify(xs, key)
    ensures xs[0] == ys[0]
  {
    assert xs[0] in multiset(ys) && ys[0] in multiset(xs);
    var j :| 0 <= j < |ys| && ys[j] == xs[0];
    var i :| 0 <= i < |xs| && xs[i] == ys[0];
    BeforeTotal(key(xs[0]), key(ys[0]));
    assert !Before(key(xs[i]), key(xs[0])) && !Before(key(ys[j]), key(ys[0]));
  }

  lemma {:induction false} SameRest<T>(xs: seq<T>, ys: seq<T>)
    requires multiset(xs) == multiset(ys) && xs != [] && ys != [] && xs[0] == ys[0]
    ensures multiset(xs[1..]) == multiset(ys[1..])
  {
    assert xs == [xs[0]] + xs[1..] && ys == [ys[0]] + ys[1..];
    assert multiset(xs[1..]) == multiset(xs) - multiset{xs[0]};
    assert multiset(ys[1..]) == multiset(ys) - multiset{ys[0]};
  }

  lemma {:induction false} SortedUnique<T>(xs: seq<T>, ys: seq<T>, key: T -> Key)
    requires multiset(xs) == multiset(ys)
    requires Sorted(xs, key) && Sorted(ys, key)
    requires KeysIdentify(xs, key)
    ensures xs == ys
  {
    assert |multiset(xs)| == |multiset(ys)|;
    if xs != [] {
      SameFirst(xs, ys, key);
      SameRest(xs, ys);
      assert xs == [xs[0]] + xs[1..] && ys == [ys[0]] + ys[1..];
      SortedUnique(xs[1..], ys[1..], key);
    }
  }

  /** When keys identify the entries the sorted list depends on the contents alone:
      sorting any two orderings of them gives one list, and equal sorted lists had equal
      contents. */
  lemma {:induction false} SortCanonical<T>(xs: seq<T>, ys: seq<T>, key: T -> Key)
    requires KeysIdentify(xs, key)
    ensures multiset(xs) == multiset(ys) <==> Sort(xs, key) == Sort(ys, key)
  {
    SortSorts(xs, key);
    SortSorts(ys, key);
    if multiset(xs) == multiset(ys) {
      forall x | x in Sort(xs, key) ensures x in xs {
        assert x in multiset(Sort(xs, key));
      }
      SortedUnique(Sort(xs, key), Sort(ys, key), key);
    }
  }

  /** A list already in order is left alone. */
  lemma {:induction false} SortOfSorted<T>(xs: seq<T>, key: T -> Key)
    requires Sorted(xs, key) && DistinctKeys(xs, key)
    ensures Sort(xs, key) == xs
  {
    SortSorts(xs, key);
    SortedUnique(xs, Sort(xs, key), key);
  }

  /** The entries with one key, in order. */
  function WithKey<T>(xs: seq<T>, key: T -> Key, k: Key): seq<T> {
    if xs == [] then []
    else if key(xs[0]) == k then [xs[0]] + WithKey(xs[1..], key, k)
    else WithKey(xs[1..], key, k)
  }

  lemma {:induction false} WithKeyConcat<T>(xs: seq<T>, ys: seq<T>, key: T -> Key, k: Key)
    ensures WithKey(xs + ys, key, k) == WithKey(xs, key, k) + WithKey(ys, key, k)
  {
    if xs == [] {
      assert xs + ys == ys;
    } else {
      assert (xs + ys)[1..] == xs[1..] + ys;
      WithKeyConcat(xs[1..], ys, key, k);
    }
  }

  lemma {:induction false} InsertIsStable<T>(x: T, ys: seq<T>, key: T -> Key, k: Key)
    ensures WithKey(Insert(x, ys, key), key, k) == WithKey([x] + ys, key, k)
  {
    if ys != [] && Before(key(ys[0]), key(x)) {
      InsertIsStable(x, ys[1..], key, k);
      BeforeTotal(key(ys[0]), key(x));
      assert Insert(x, ys, key)[1..] == Insert(x, ys[1..], key);
      assert ([x] + ys)[1..] == ys && ([x] + ys[1..])[1..] == ys[1..];
    }
  }

  /** Entries with equal keys keep their order. */
  lemma {:induction false} SortIsStable<T>(xs: seq<T>, key: T -> Key, k: Key)
    ensures WithKey(Sort(xs, key), key, k) == WithKey(xs, key, k)
  {
    if xs != [] {
      SortIsStable(xs[1..], key, k);
      InsertIsStable(xs[0], Sort(xs[1..], key), key, k);
      assert ([xs[0]] + Sort(xs[1..], key))[1..] == Sort(xs[1..], key);
    }
  }

  /** The other half: where two different entries share a key, some reordering changes the
      sorted list. */
  lemma {:induction false} TiesShow<T>(xs: seq<T>, key: T -> Key, i: nat, j: nat)
    requires i < j < |xs| && key(xs[i]) == key(xs[j]) && xs[i] != xs[j]
    ensures multiset(xs[i := xs[j]][j := xs[i]]) == multiset(xs)
    ensures Sort(xs[i := xs[j]][j := xs[i]], key) != Sort(xs, key)
  {
    var ys, k := xs[i := xs[j]][j := xs[i]], key(xs[i]);
    SortIsStable(xs, key, k);
    SortIsStable(ys, key, k);
    assert xs == xs[..i] + xs[i..] && ys == xs[..i] + ys[i..];
    WithKeyConcat(xs[..i], xs[i..], key, k);
    WithKeyConcat(xs[..i], ys[i..], key, k);
    var n := |WithKey(xs[..i], key, k)|;
    assert WithKey(xs, key, k)[n] == xs[i] && WithKey(ys, key, k)[n] == xs[j];
  }

  /** Order-independence, exactly: no reordering shows in the sorted list if and only if
      keys identify the entries. */
  lemma {:induction false} OrderIndependence<T(!new)>(xs: seq<T>, key: T -> Key)
    ensures (forall ys: seq<T> :: multiset(ys) == multiset(xs) ==> Sort(ys, key) == Sort(xs, key))
       <==> KeysIdentify(xs, key)
  {
    if KeysIdentify(xs, key) {
      forall ys: seq<T> | multiset(ys) == multiset(xs) ensures Sort(ys, key) == Sort(xs, key) {
        SortCanonical(xs, ys, key);
      }
    } else {
      var x, y :| x in xs && y in xs && key(x) == key(y) && x != y;
      var a :| 0 <= a < |xs| && xs[a] == x;
      var b :| 0 <= b < |xs| && xs[b] == y;
      TiesShow(xs, key, if a < b then a else b, if a < b then b else a);
    }
  }
}
