/** Largest remainder: how an amount of paise is spread over lines in proportion to
    their totals, losing none. */
module Apportion {
  import opened Wrappers
  import opened Ordering
  import opened Sums

  datatype Weighted = Weighted(sku: string, weight: int)

  /** A line's fractional part, `amount * weight % total`, kept with its SKU. */
  datatype Remainder = Remainder(sku: string, value: int)

  function WeightOf(): Weighted -> int { (w: Weighted) => w.weight }

  function Total(weights: seq<Weighted>): int { SumBy(weights, WeightOf()) }

  /** Largest fraction first, ties by SKU ascending. */
  function RemainderKey(r: Remainder): Key { Key(-r.value, r.sku, "", 0) }

  function FloorOf(amount: int, total: int): Weighted -> int
    requires total > 0
  {
    (w: Weighted) => amount * w.weight / total
  }

  function RemainderOf(amount: int, total: int): Weighted -> int
    requires total > 0
  {
    (w: Weighted) => amount * w.weight % total
  }

  function Remainders(amount: int, weights: seq<Weighted>, total: int): seq<Remainder>
    requires total > 0
  {
    seq(|weights|, i requires 0 <= i < |weights| =>
      Remainder(weights[i].sku, RemainderOf(amount, total)(weights[i])))
  }

  function Assigned(amount: int, weights: seq<Weighted>, total: int): int
    requires total > 0
  {
    SumBy(weights, FloorOf(amount, total))
  }

  function Ranked(amount: int, weights: seq<Weighted>, total: int): seq<Remainder>
    requires total > 0
  {
    Sort(Remainders(amount, weights, total), RemainderKey)
  }

  predicate NonNegativeWeights(weights: seq<Weighted>) {
    forall w :: w in weights ==> w.weight >= 0
  }

  predicate DistinctSkus(weights: seq<Weighted>) {
    forall i, j :: 0 <= i < j < |weights| ==> weights[i].sku != weights[j].sku
  }

  function Indicator(): Remainder -> int { (r: Remainder) => if r.value > 0 then 1 else 0 }

  function RemainderValue(): Remainder -> int { (r: Remainder) => r.value }

  // ----- the spare paise are fewer than the lines with a fraction -----

  function RemainderSum(amount: int, weights: seq<Weighted>, total: int): int
    requires total > 0
  {
    SumBy(Remainders(amount, weights, total), RemainderValue())
  }

  function Positives(amount: int, weights: seq<Weighted>, total: int): int
    requires total > 0
  {
    SumBy(Remainders(amount, weights, total), Indicator())
  }

  lemma {:induction false} FloorsAndRemainders(amount: int, weights: seq<Weighted>, total: int)
    requires total > 0
    ensures amount * Total(weights)
         == total * Assigned(amount, weights, total) + RemainderSum(amount, weights, total)
  {
    if weights != [] {
      var w := weights[0];
      FloorsAndRemainders(amount, weights[1..], total);
      assert Remainders(amount, weights, total)[1..] == Remainders(amount, weights[1..], total);
      Distribute(amount, w.weight, Total(weights[1..]));
      Distribute(total, FloorOf(amount, total)(w), Assigned(amount, weights[1..], total));
      assert amount * w.weight == total * FloorOf(amount, total)(w) + RemainderOf(amount, total)(w);
    }
  }

  lemma {:induction false} Distribute(a: int, b: int, c: int)
    ensures a * (b + c) == a * b + a * c
    ensures a * (b - c) == a * b - a * c
  {
  }

  lemma {:induction false} Divide(n: int, d: int)
    requires d > 0
    ensures n == d * (n / d) + n % d && 0 <= n % d < d
    ensures n >= 0 ==> n / d >= 0
  {
  }

  lemma {:induction false} RemaindersAreBounded(amount: int, weights: seq<Weighted>, total: int)
    requires total > 0
    ensures 0 <= Positives(amount, weights, total) <= |weights|
    ensures 0 <= RemainderSum(amount, weights, total) <= (total - 1) * Positives(amount, weights, total)
  {
    if weights != [] {
      RemaindersAreBounded(amount, weights[1..], total);
      assert Remainders(amount, weights, total)[1..] == Remainders(amount, weights[1..], total);
      var first := Remainders(amount, weights, total)[0];
      assert first.value == RemainderOf(amount, total)(weights[0]);
      Divide(amount * weights[0].weight, total);
      Distribute(total - 1, Indicator()(first), Positives(amount, weights[1..], total));
    }
  }

  function Spare(amount: int, weights: seq<Weighted>): int
    requires Total(weights) > 0
  {
    amount - Assigned(amount, weights, Total(weights))
  }

  /** Fewer paise are left over than there are lines with a fraction to round up, so
      the source's loop never runs past the end of its list. */
  lemma {:induction false} SpareBelowPositives(amount: int, weights: seq<Weighted>)
    requires Total(weights) > 0
    ensures 0 <= Spare(amount, weights)
    ensures Spare(amount, weights) == 0 || Spare(amount, weights) < Positives(amount, weights, Total(weights))
    ensures Positives(amount, weights, Total(weights)) <= |weights|
  {
    var total := Total(weights);
    FloorsAndRemainders(amount, weights, total);
    RemaindersAreBounded(amount, weights, total);
    Distribute(total, amount, Assigned(amount, weights, total));
    SqueezeSpare(total, Spare(amount, weights), Positives(amount, weights, total));
  }

  lemma {:induction false} SqueezeSpare(total: int, spare: int, positives: int)
    requires total > 0 && positives >= 0
    requires 0 <= total * spare <= (total - 1) * positives
    ensures 0 <= spare && (spare == 0 || spare < positives)
  {
    if spare >= positives {
      assert total * (spare - positives) >= 0;
      Distribute(total, spare, positives);
      Distribute(positives, total, 1);
    }
  }

  /** In a list ordered by remainder, descending, everything within the count of the
      positive ones is positive. */
  lemma {:induction false} PositivesComeFirst(rs: seq<Remainder>, k: nat)
    requires Sorted(rs, RemainderKey)
    requires forall r :: r in rs ==> r.value >= 0
    requires k < SumBy(rs, Indicator())
    ensures k < |rs| && rs[k].value > 0
  {
    if rs != [] {
      if rs[0].value == 0 {
        AllZero(rs);
      } else if k > 0 {
        PositivesComeFirst(rs[1..], k - 1);
      }
    }
  }

  lemma {:induction false} AllZero(rs: seq<Remainder>)
    requires rs != [] && rs[0].value == 0
    requires Sorted(rs, RemainderKey)
    requires forall r :: r in rs ==> r.value >= 0
    ensures SumBy(rs, Indicator()) == 0
  {
    if |rs| > 1 {
      assert !Before(RemainderKey(rs[1]), RemainderKey(rs[0]));
      AllZero(rs[1..]);
    }
  }

  // ----- what an apportionment is, and that there is only one -----

  function ShareSum(shares: seq<int>): int { SumBy(shares, (s: int) => s) }

  /** Line `i` is served before line `j`: a larger fraction, or the same and a
      smaller SKU. */
  predicate ServedBefore(amount: int, total: int, a: Weighted, b: Weighted)
    requires total > 0
  {
    var x, y := RemainderOf(amount, total)(a), RemainderOf(amount, total)(b);
    x > y || (x == y && TextLess(a.sku, b.sku))
  }

  /** The rule as section 16.11 step 4 words it, with no algorithm in it: whole shares,
      one more paisa only where there is a fraction, the exact amount in all, and nobody
      rounded up before a line that should have been served first. */
  ghost predicate LargestRemainder(amount: int, weights: seq<Weighted>, shares: seq<int>)
    requires Total(weights) > 0
  {
    var total := Total(weights);
    && |shares| == |weights|
    && (forall i :: 0 <= i < |weights| ==>
         || shares[i] == FloorOf(amount, total)(weights[i])
         || (shares[i] == FloorOf(amount, total)(weights[i]) + 1 && RemainderOf(amount, total)(weights[i]) > 0))
    && ShareSum(shares) == amount
    && (forall i, j :: 0 <= i < |weights| && 0 <= j < |weights|
          && shares[i] == FloorOf(amount, total)(weights[i]) + 1
          && shares[j] == FloorOf(amount, total)(weights[j])
          ==> ServedBefore(amount, total, weights[i], weights[j]))
  }

  /** Shares no smaller anywhere and equal in sum are equal. */
  lemma {:induction false} NoSmallerSameSum(s: seq<int>, t: seq<int>)
    requires |s| == |t|
    requires forall i :: 0 <= i < |s| ==> s[i] >= t[i]
    ensures ShareSum(s) >= ShareSum(t)
    ensures ShareSum(s) == ShareSum(t) ==> s == t
  {
    if s != [] {
      NoSmallerSameSum(s[1..], t[1..]);
      assert s == [s[0]] + s[1..] && t == [t[0]] + t[1..];
    }
  }

  /** The rule leaves no choice. */
  lemma {:induction false} LargestRemainderUnique(amount: int, weights: seq<Weighted>, s: seq<int>, t: seq<int>)
    requires Total(weights) > 0
    requires LargestRemainder(amount, weights, s) && LargestRemainder(amount, weights, t)
    ensures s == t
  {
    if forall i :: 0 <= i < |s| ==> s[i] >= t[i] {
      NoSmallerSameSum(s, t);
    } else if forall i :: 0 <= i < |s| ==> t[i] >= s[i] {
      NoSmallerSameSum(t, s);
    } else {
      var i :| 0 <= i < |s| && s[i] < t[i];
      var j :| 0 <= j < |s| && t[j] < s[j];
      var total := Total(weights);
      assert ServedBefore(amount, total, weights[i], weights[j]);
      assert ServedBefore(amount, total, weights[j], weights[i]);
      TextTotal(weights[i].sku, weights[j].sku);
      assert false;
    }
  }

  // ----- the shares the source computes -----

  predicate Named(rs: seq<Remainder>, sku: string) {
    exists r :: r in rs && r.sku == sku
  }

  /** The floor, and the spare paisa when the line is among the first `served` of the
      ranking. */
  function ShareAfter(amount: int, total: int, served: seq<Remainder>): Weighted -> int
    requires total > 0
  {
    (w: Weighted) => FloorOf(amount, total)(w) + (if Named(served, w.sku) then 1 else 0)
  }

  function Served(amount: int, weights: seq<Weighted>): seq<Remainder>
    requires Total(weights) > 0
  {
    SpareBelowPositives(amount, weights);
    SortSorts(Remainders(amount, weights, Total(weights)), RemainderKey);
    Ranked(amount, weights, Total(weights))[..Spare(amount, weights)]
  }

  function Share(amount: int, weights: seq<Weighted>, w: Weighted): int {
    if Total(weights) <= 0 then 0 else ShareAfter(amount, Total(weights), Served(amount, weights))(w)
  }

  function ShareOf(amount: int, weights: seq<Weighted>): Weighted -> int {
    (w: Weighted) => Share(amount, weights, w)
  }

  function Shares(amount: int, weights: seq<Weighted>): (s: seq<int>)
    ensures |s| == |weights|
  {
    seq(|weights|, i requires 0 <= i < |weights| => Share(amount, weights, weights[i]))
  }

  function Entries(amount: int, weights: seq<Weighted>): seq<Entry<string, int>> {
    seq(|weights|, i requires 0 <= i < |weights| =>
      Entry(weights[i].sku, Share(amount, weights, weights[i])))
  }

  /** The ranking carries each line's own remainder, once. */
  lemma {:induction false} RankedEntry(amount: int, weights: seq<Weighted>, total: int, i: nat)
    requires total > 0 && i < |weights|
    requires DistinctSkus(weights)
    ensures Remainder(weights[i].sku, RemainderOf(amount, total)(weights[i])) in Ranked(amount, weights, total)
    ensures forall r :: r in Ranked(amount, weights, total) && r.sku == weights[i].sku
              ==> r.value == RemainderOf(amount, total)(weights[i])
  {
    var rs := Remainders(amount, weights, total);
    SortSorts(rs, RemainderKey);
    assert rs[i] in multiset(rs);
    forall r | r in Ranked(amount, weights, total) && r.sku == weights[i].sku
      ensures r.value == RemainderOf(amount, total)(weights[i])
    {
      assert r in multiset(rs);
    }
  }

  lemma {:induction false} RankedSkusDistinct(amount: int, weights: seq<Weighted>, total: int)
    requires total > 0 && DistinctSkus(weights)
    ensures DistinctKeys(Ranked(amount, weights, total), SkuKey)
    ensures DistinctKeys(Ranked(amount, weights, total), RemainderKey)
  {
    var rs := Remainders(amount, weights, total);
    SortSorts(rs, RemainderKey);
    DistinctKeysPermute(rs, Ranked(amount, weights, total), SkuKey);
    DistinctKeysPermute(rs, Ranked(amount, weights, total), RemainderKey);
  }

  function SkuKey(r: Remainder): Key { TextKey(r.sku) }

  function ServedFlag(served: seq<Remainder>): Weighted -> int {
    (w: Weighted) => if Named(served, w.sku) then 1 else 0
  }

  function IsSku(sku: string): Weighted -> int {
    (w: Weighted) => if w.sku == sku then 1 else 0
  }

  lemma {:induction false} OneLineHasTheSku(weights: seq<Weighted>, sku: string)
    requires DistinctSkus(weights)
    ensures SumBy(weights, IsSku(sku)) == if exists w :: w in weights && w.sku == sku then 1 else 0
  {
    if weights != [] {
      OneLineHasTheSku(weights[1..], sku);
      assert weights == [weights[0]] + weights[1..];
      if weights[0].sku == sku {
        assert forall w :: w in weights[1..] ==> w.sku != sku;
      }
    }
  }

  /** The lines rounded up are as many as the prefix of the ranking they are read from. */
  lemma {:induction false} ServedCount(weights: seq<Weighted>, served: seq<Remainder>)
    requires DistinctSkus(weights)
    requires DistinctKeys(served, SkuKey)
    requires forall r :: r in served ==> exists w :: w in weights && w.sku == r.sku
    ensures SumBy(weights, ServedFlag(served)) == |served|
  {
    if served == [] {
      SumZero(weights, ServedFlag(served));
    } else {
      var front, last := served[..|served| - 1], served[|served| - 1];
      assert served == front + [last];
      ServedCount(weights, front);
      forall r | r in front ensures r.sku != last.sku {
        assert SkuKey(r) != SkuKey(last);
      }
      assert forall w :: w in weights ==>
        ServedFlag(served)(w) == ServedFlag(front)(w) + IsSku(last.sku)(w);
      SumAdd(weights, ServedFlag(served), ServedFlag(front), IsSku(last.sku));
      OneLineHasTheSku(weights, last.sku);
    }
  }

  lemma {:induction false} SumZero<T>(xs: seq<T>, f: T -> int)
    requires forall x :: x in xs ==> f(x) == 0
    ensures SumBy(xs, f) == 0
  {
    if xs != [] { SumZero(xs[1..], f); }
  }

  lemma {:induction false} SumAdd<T>(xs: seq<T>, h: T -> int, f: T -> int, g: T -> int)
    requires forall x :: x in xs ==> h(x) == f(x) + g(x)
    ensures SumBy(xs, h) == SumBy(xs, f) + SumBy(xs, g)
  {
    if xs != [] { SumAdd(xs[1..], h, f, g); }
  }

  /** A line rounded up is served before one that is not. */
  lemma {:induction false} ServedInOrder(amount: int, weights: seq<Weighted>, i: nat, j: nat)
    requires DistinctSkus(weights) && Total(weights) > 0
    requires i < |weights| && j < |weights|
    requires Named(Served(amount, weights), weights[i].sku)
    requires !Named(Served(amount, weights), weights[j].sku)
    ensures ServedBefore(amount, Total(weights), weights[i], weights[j])
  {
    var total, served := Total(weights), Served(amount, weights);
    var ranked := Ranked(amount, weights, total);
    SpareBelowPositives(amount, weights);
    SortSorts(Remainders(amount, weights, total), RemainderKey);
    RankedEntry(amount, weights, total, i);
    RankedEntry(amount, weights, total, j);
    var r :| r in served && r.sku == weights[i].sku;
    var a :| 0 <= a < |served| && served[a] == r;
    var q := Remainder(weights[j].sku, RemainderOf(amount, total)(weights[j]));
    var b :| 0 <= b < |ranked| && ranked[b] == q;
    assert forall x :: 0 <= x < |served| ==> served[x] == ranked[x];
    assert q !in served;
    assert ranked[a] in ranked;
    assert !Before(RemainderKey(ranked[b]), RemainderKey(ranked[a]));
    BeforeTotal(RemainderKey(ranked[a]), RemainderKey(ranked[b]));
  }

  /** Largest remainder is exact and within quota: the shares computed satisfy the rule. */
  lemma {:induction false} SharesFollowTheRule(amount: int, weights: seq<Weighted>)
    requires DistinctSkus(weights) && Total(weights) > 0
    ensures LargestRemainder(amount, weights, Shares(amount, weights))
  {
    var total, served, shares := Total(weights), Served(amount, weights), Shares(amount, weights);
    SharesSum(amount, weights);
    forall i | 0 <= i < |weights|
      ensures shares[i] == FloorOf(amount, total)(weights[i]) + (if Named(served, weights[i].sku) then 1 else 0)
      ensures Named(served, weights[i].sku) ==> RemainderOf(amount, total)(weights[i]) > 0
    {
      if Named(served, weights[i].sku) { ServedIsPositive(amount, weights, i); }
    }
    forall i, j | 0 <= i < |weights| && 0 <= j < |weights|
        && shares[i] == FloorOf(amount, total)(weights[i]) + 1 && shares[j] == FloorOf(amount, total)(weights[j])
      ensures ServedBefore(amount, total, weights[i], weights[j])
    {
      ServedInOrder(amount, weights, i, j);
    }
  }

  lemma {:induction false} ServedIsPositive(amount: int, weights: seq<Weighted>, i: nat)
    requires DistinctSkus(weights) && Total(weights) > 0
    requires i < |weights| && Named(Served(amount, weights), weights[i].sku)
    ensures RemainderOf(amount, Total(weights))(weights[i]) > 0
  {
    var total, served := Total(weights), Served(amount, weights);
    var rs, ranked := Remainders(amount, weights, total), Ranked(amount, weights, total);
    SpareBelowPositives(amount, weights);
    SortSorts(rs, RemainderKey);
    SumSort(rs, RemainderKey, Indicator());
    RankedEntry(amount, weights, total, i);
    var r :| r in served && r.sku == weights[i].sku;
    var k :| 0 <= k < |served| && served[k] == r;
    assert ranked[k] == r;
    forall x | x in ranked ensures x.value >= 0 {
      assert x in multiset(rs);
    }
    PositivesComeFirst(ranked, k);
  }

  lemma {:induction false} SharesSum(amount: int, weights: seq<Weighted>)
    requires DistinctSkus(weights) && Total(weights) > 0
    ensures ShareSum(Shares(amount, weights)) == amount
    ensures SumBy(weights, ShareOf(amount, weights)) == amount
  {
    var total, served := Total(weights), Served(amount, weights);
    var rs, ranked := Remainders(amount, weights, total), Ranked(amount, weights, total);
    SpareBelowPositives(amount, weights);
    SortSorts(rs, RemainderKey);
    RankedSkusDistinct(amount, weights, total);
    forall r | r in served ensures exists w :: w in weights && w.sku == r.sku {
      assert r in multiset(rs);
      var i :| 0 <= i < |rs| && rs[i] == r;
      assert weights[i] in weights;
    }
    ServedCount(weights, served);
    SumAdd(weights, ShareOf(amount, weights), FloorOf(amount, total), ServedFlag(served));
    MappedSum(weights, ShareOf(amount, weights), Shares(amount, weights));
  }

  lemma {:induction false} MappedSum(weights: seq<Weighted>, f: Weighted -> int, shares: seq<int>)
    requires |shares| == |weights|
    requires forall i :: 0 <= i < |weights| ==> shares[i] == f(weights[i])
    ensures ShareSum(shares) == SumBy(weights, f)
  {
    if weights != [] { MappedSum(weights[1..], f, shares[1..]); }
  }

  /** Nobody pays for more than their own line: a share of an amount no larger than the
      total lies between zero and the line's weight. */
  lemma {:induction false} ShareWithinWeight(amount: int, weights: seq<Weighted>, i: nat)
    requires DistinctSkus(weights) && NonNegativeWeights(weights)
    requires amount >= 0 && i < |weights|
    ensures 0 <= Shares(amount, weights)[i]
    ensures amount <= Total(weights) ==> Shares(amount, weights)[i] <= weights[i].weight
  {
    SumNonNegative(weights, WeightOf());
    var total := Total(weights);
    assert weights[i] in weights;
    if total > 0 {
      SharesFollowTheRule(amount, weights);
      RoundedQuotient(amount, weights[i].weight, total);
    }
  }

  lemma {:induction false} SignOfFactor(a: int, b: int)
    requires a > 0
    ensures a * b >= 0 ==> b >= 0
    ensures a * b > 0 ==> b > 0
  {
  }

  lemma {:induction false} RoundedQuotient(amount: int, w: int, total: int)
    requires total > 0 && amount >= 0 && w >= 0
    ensures 0 <= amount * w / total
    ensures amount <= total ==> amount * w / total + (if amount * w % total > 0 then 1 else 0) <= w
  {
    var n := amount * w;
    assert n >= 0;
    Divide(n, total);
    if amount <= total {
      assert (total - amount) * w >= 0;
      Distribute(w, total, amount);
      Distribute(total, w, n / total);
      SignOfFactor(total, w - n / total);
    }
  }

  // ----- the algorithm -----

  /** `Map.set` of every floor in order: a repeated SKU keeps only its last floor. */
  function FloorMap(amount: int, weights: seq<Weighted>, total: int): seq<Entry<string, int>>
    requires total > 0
  {
    if weights == [] then []
    else
      var w := weights[|weights| - 1];
      Put(FloorMap(amount, weights[..|weights| - 1], total), w.sku, FloorOf(amount, total)(w))
  }

  /** What repeated SKUs lose: the floors that a later entry overwrites. */
  function Overwritten(amount: int, weights: seq<Weighted>, total: int): int
    requires total > 0
  {
    if weights == [] then 0
    else
      var front := weights[..|weights| - 1];
      Overwritten(amount, front, total)
      + GetOr(FloorMap(amount, front, total), weights[|weights| - 1].sku, 0)
  }

  /** Two entries of one SKU lose the first one's floor: all of it, whatever the amount. */
  lemma {:induction false} RepeatedSkuLoses(amount: int, sku: string, first: int, second: int)
    requires first + second > 0
    ensures Overwritten(amount, [Weighted(sku, first), Weighted(sku, second)], first + second)
      == FloorOf(amount, first + second)(Weighted(sku, first))
    ensures Overwritten(2, [Weighted(sku, 1), Weighted(sku, 1)], 2) == 1
  {
    LosesTheFirst(amount, sku, first, second);
    LosesTheFirst(2, sku, 1, 1);
  }

  lemma {:induction false} LosesTheFirst(amount: int, sku: string, first: int, second: int)
    requires first + second > 0
    ensures Overwritten(amount, [Weighted(sku, first), Weighted(sku, second)], first + second)
      == FloorOf(amount, first + second)(Weighted(sku, first))
  {
    var a, b := Weighted(sku, first), Weighted(sku, second);
    assert [a, b][..1] == [a] && [a][..0] == [];
    var floor := FloorOf(amount, first + second)(a);
    assert FloorMap(amount, [a], first + second) == [Entry(sku, floor)];
    assert Overwritten(amount, [a], first + second) == 0;
  }

  function ZeroMap(weights: seq<Weighted>): seq<Entry<string, int>> {
    if weights == [] then []
    else Put(ZeroMap(weights[..|weights| - 1]), weights[|weights| - 1].sku, 0)
  }

  lemma {:induction false} ZeroMapIsZero(weights: seq<Weighted>)
    ensures SumBy(ZeroMap(weights), ValueOf()) == 0
    ensures forall e :: e in ZeroMap(weights) ==> e.value == 0
  {
    if weights != [] {
      var front, w := weights[..|weights| - 1], weights[|weights| - 1];
      ZeroMapIsZero(front);
      PutSum(ZeroMap(front), w.sku, 0);
    }
  }

  lemma {:induction false} ZeroMapOfDistinct(weights: seq<Weighted>)
    requires DistinctSkus(weights)
    ensures ZeroMap(weights) == seq(|weights|, i requires 0 <= i < |weights| => Entry(weights[i].sku, 0))
  {
    if weights != [] { ZeroMapOfDistinct(weights[..|weights| - 1]); }
  }

  lemma {:induction false} FloorMapOfDistinct(amount: int, weights: seq<Weighted>, total: int)
    requires total > 0 && DistinctSkus(weights)
    ensures FloorMap(amount, weights, total)
         == seq(|weights|, i requires 0 <= i < |weights| => Entry(weights[i].sku, FloorOf(amount, total)(weights[i])))
    ensures Overwritten(amount, weights, total) == 0
  {
    if weights != [] { FloorMapOfDistinct(amount, weights[..|weights| - 1], total); }
  }

  lemma {:induction false} FloorStep(amount: int, weights: seq<Weighted>, i: nat, total: int)
    requires total > 0 && i < |weights|
    ensures var w := weights[i];
      && FloorMap(amount, weights[..i + 1], total)
           == Put(FloorMap(amount, weights[..i], total), w.sku, FloorOf(amount, total)(w))
      && Assigned(amount, weights[..i + 1], total) == Assigned(amount, weights[..i], total) + FloorOf(amount, total)(w)
      && Remainders(amount, weights[..i + 1], total)
           == Remainders(amount, weights[..i], total) + [Remainder(w.sku, RemainderOf(amount, total)(w))]
  {
    assert weights[..i + 1][..i] == weights[..i];
    SumPrefix(weights, i, FloorOf(amount, total));
  }

  lemma {:induction false} FloorMapSum(amount: int, weights: seq<Weighted>, total: int)
    requires total > 0
    ensures SumBy(FloorMap(amount, weights, total), ValueOf()) + Overwritten(amount, weights, total)
         == Assigned(amount, weights, total)
  {
    if weights != [] {
      var n := |weights| - 1;
      FloorMapSum(amount, weights[..n], total);
      FloorStep(amount, weights, n, total);
      assert weights[..n + 1] == weights;
      PutSum(FloorMap(amount, weights[..n], total), weights[n].sku, FloorOf(amount, total)(weights[n]));
    }
  }

  /** The first loop: whole shares, their sum, and the remainders still to be ranked. */
  method TakeFloors(amount: int, weights: seq<Weighted>, total: int)
    returns (shares: seq<Entry<string, int>>, floors: int, remainders: seq<Remainder>)
    requires total > 0
    ensures shares == FloorMap(amount, weights, total)
    ensures floors == Assigned(amount, weights, total)
    ensures remainders == Remainders(amount, weights, total)
  {
    shares, floors, remainders := [], 0, [];
    for i := 0 to |weights|
      invariant shares == FloorMap(amount, weights[..i], total)
      invariant floors == Assigned(amount, weights[..i], total)
      invariant remainders == Remainders(amount, weights[..i], total)
    {
      var exact := amount * weights[i].weight;
      var floor := exact / total;
      FloorStep(amount, weights, i, total);
      shares := Put(shares, weights[i].sku, floor);
      floors := floors + floor;
      remainders := remainders + [Remainder(weights[i].sku, exact % total)];
    }
    assert weights[..|weights|] == weights;
  }

  /** The second loop: one paisa each down the ranking. */
  method ServeSpare(spare: nat, ranked: seq<Remainder>, floors: seq<Entry<string, int>>)
    returns (shares: seq<Entry<string, int>>)
    requires spare <= |ranked|
    ensures shares == AfterServing(floors, ranked[..spare])
    ensures SumBy(shares, ValueOf()) == SumBy(floors, ValueOf()) + spare
  {
    shares := floors;
    var i := 0;
    while i < spare
      invariant 0 <= i <= spare
      invariant shares == AfterServing(floors, ranked[..i])
      invariant SumBy(shares, ValueOf()) == SumBy(floors, ValueOf()) + i
    {
      // The source's `break` on a missing entry is never taken: `i` is in range.
      var sku := ranked[i].sku;
      var share := GetOr(shares, sku, 0);
      PutSum(shares, sku, share + 1);
      assert ranked[..i + 1][..i] == ranked[..i];
      shares := Put(shares, sku, share + 1);
      i := i + 1;
    }
  }

  function AfterServing(floors: seq<Entry<string, int>>, served: seq<Remainder>): seq<Entry<string, int>> {
    if served == [] then floors
    else
      var shares := AfterServing(floors, served[..|served| - 1]);
      var sku := served[|served| - 1].sku;
      Put(shares, sku, GetOr(shares, sku, 0) + 1)
  }

  /** Section 16.11 step 4 as the storefront runs it, for any weights: with distinct
      SKUs the shares are those of the rule, and it throws exactly when a repeated SKU
      overwrote a share that was not zero. */
  method Run(amount: int, weights: seq<Weighted>) returns (r: Result<seq<Entry<string, int>>, int>)
    requires amount >= 0 && NonNegativeWeights(weights)
    ensures DistinctSkus(weights) ==> r == Ok(Entries(amount, weights))
    ensures r.Err? <==> Total(weights) > 0 && Overwritten(amount, weights, Total(weights)) != 0
    ensures r.Ok? ==> SumBy(r.value, ValueOf()) == if Total(weights) == 0 then 0 else amount
    ensures r.Err? ==> Total(weights) > 0 && r.error == Overwritten(amount, weights, Total(weights))
  {
    var total := Total(weights);
    SumNonNegative(weights, WeightOf());
    if total == 0 {
      var zeros: seq<Entry<string, int>> := [];
      for i := 0 to |weights|
        invariant zeros == ZeroMap(weights[..i])
      {
        assert weights[..i + 1][..i] == weights[..i];
        zeros := Put(zeros, weights[i].sku, 0);
      }
      assert weights[..|weights|] == weights;
      ZeroMapIsZero(weights);
      if DistinctSkus(weights) { ZeroMapOfDistinct(weights); }
      assert DistinctSkus(weights) ==> zeros == Entries(amount, weights);
      return Ok(zeros);
    }
    var floorMap, floors, remainders := TakeFloors(amount, weights, total);
    var ranked := Sort(remainders, RemainderKey);
    SpareBelowPositives(amount, weights);
    SortSorts(remainders, RemainderKey);
    FloorMapSum(amount, weights, total);
    var shares := ServeSpare(amount - floors, ranked, floorMap);
    if DistinctSkus(weights) { ServingIsTheRule(amount, weights); }
    var sum := SumBy(shares, ValueOf());
    if sum != amount {
      return Err(amount - sum);
    }
    return Ok(shares);
  }

  function ServedEntries(amount: int, weights: seq<Weighted>, total: int, served: seq<Remainder>): seq<Entry<string, int>>
    requires total > 0
  {
    seq(|weights|, i requires 0 <= i < |weights| =>
      Entry(weights[i].sku, ShareAfter(amount, total, served)(weights[i])))
  }

  lemma {:induction false} NamedNext(rs: seq<Remainder>, k: nat)
    requires k < |rs| && DistinctKeys(rs, SkuKey)
    ensures !Named(rs[..k], rs[k].sku)
    ensures forall s :: Named(rs[..k + 1], s) <==> Named(rs[..k], s) || s == rs[k].sku
  {
    assert rs[..k + 1] == rs[..k] + [rs[k]];
    forall r | r in rs[..k] ensures r.sku != rs[k].sku {
      var a :| 0 <= a < k && rs[a] == r;
      assert SkuKey(rs[a]) != SkuKey(rs[k]);
    }
  }

  lemma {:induction false} RankedSkuIsAWeight(amount: int, weights: seq<Weighted>, total: int, k: nat) returns (p: nat)
    requires total > 0 && k < |Ranked(amount, weights, total)|
    ensures p < |weights| && weights[p].sku == Ranked(amount, weights, total)[k].sku
  {
    SortSorts(Remainders(amount, weights, total), RemainderKey);
    assert Ranked(amount, weights, total)[k] in multiset(Remainders(amount, weights, total));
    p :| 0 <= p < |weights| && weights[p].sku == Ranked(amount, weights, total)[k].sku;
  }

  /** Handing out one more spare paisa is one more line of the ranking served. */
  lemma {:induction false} ServeNext(amount: int, weights: seq<Weighted>, total: int, k: nat)
    requires total > 0 && DistinctSkus(weights)
    requires k < |Ranked(amount, weights, total)|
    ensures var ranked := Ranked(amount, weights, total);
            var shares := ServedEntries(amount, weights, total, ranked[..k]);
            Put(shares, ranked[k].sku, GetOr(shares, ranked[k].sku, 0) + 1)
            == ServedEntries(amount, weights, total, ranked[..k + 1])
  {
    var ranked := Ranked(amount, weights, total);
    RankedSkusDistinct(amount, weights, total);
    var p := RankedSkuIsAWeight(amount, weights, total, k);
    NamedNext(ranked, k);
    PutServed(amount, weights, total, ranked[..k], ranked[..k + 1], p);
  }

  lemma {:induction false} PutServed(amount: int, weights: seq<Weighted>, total: int,
      served: seq<Remainder>, served': seq<Remainder>, p: nat)
    requires total > 0 && DistinctSkus(weights) && p < |weights|
    requires !Named(served, weights[p].sku)
    requires forall s :: Named(served', s) <==> Named(served, s) || s == weights[p].sku
    ensures var shares := ServedEntries(amount, weights, total, served);
            Put(shares, weights[p].sku, GetOr(shares, weights[p].sku, 0) + 1)
            == ServedEntries(amount, weights, total, served')
  {
    var shares := ServedEntries(amount, weights, total, served);
    assert Functional(shares);
    assert shares[p].key == weights[p].sku;
    IndexOfEntry(shares, p);
    var shares' := ServedEntries(amount, weights, total, served');
    forall j | 0 <= j < |weights|
      ensures shares'[j] == if j == p then Entry(weights[p].sku, shares[p].value + 1) else shares[j]
    {
      assert shares[j] == Entry(weights[j].sku, ShareAfter(amount, total, served)(weights[j]));
      assert shares'[j] == Entry(weights[j].sku, ShareAfter(amount, total, served')(weights[j]));
      assert j != p ==> weights[j].sku != weights[p].sku;
    }
  }

  lemma {:induction false} ServingPrefix(amount: int, weights: seq<Weighted>, total: int, k: nat)
    requires total > 0 && DistinctSkus(weights)
    requires k <= |Ranked(amount, weights, total)|
    ensures AfterServing(FloorMap(amount, weights, total), Ranked(amount, weights, total)[..k])
         == ServedEntries(amount, weights, total, Ranked(amount, weights, total)[..k])
  {
    var ranked := Ranked(amount, weights, total);
    if k == 0 {
      FloorMapOfDistinct(amount, weights, total);
      var none := ServedEntries(amount, weights, total, []);
      assert forall i :: 0 <= i < |weights| ==>
        none[i] == Entry(weights[i].sku, ShareAfter(amount, total, [])(weights[i]));
      assert ranked[..0] == [];
    } else {
      ServingPrefix(amount, weights, total, k - 1);
      assert ranked[..k] != [];
      ServeNext(amount, weights, total, k - 1);
      assert ranked[..k][..k - 1] == ranked[..k - 1];
    }
  }

  lemma {:induction false} ServingIsTheRule(amount: int, weights: seq<Weighted>)
    requires Total(weights) > 0 && DistinctSkus(weights)
    ensures Overwritten(amount, weights, Total(weights)) == 0
    ensures AfterServing(FloorMap(amount, weights, Total(weights)), Served(amount, weights)) == Entries(amount, weights)
  {
    SpareBelowPositives(amount, weights);
    SortSorts(Remainders(amount, weights, Total(weights)), RemainderKey);
    FloorMapOfDistinct(amount, weights, Total(weights));
    ServingPrefix(amount, weights, Total(weights), Spare(amount, weights));
    var last := ServedEntries(amount, weights, Total(weights), Served(amount, weights));
    assert forall i :: 0 <= i < |weights| ==>
      last[i] == Entry(weights[i].sku, ShareAfter(amount, Total(weights), Served(amount, weights))(weights[i]));
    assert last == Entries(amount, weights);
  }
}
