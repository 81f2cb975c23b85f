/** Section 16.11 steps 5 and 6: the tax already inside an inclusive amount, rounded half
    up without a float, and its split into central and state halves. */
module Tax {
  import opened Sums
  import A = Apportion

  /** BigInt and `intdiv` division: towards zero. */
  function TruncDiv(n: int, d: int): int
    requires d > 0
  {
    if n >= 0 then n / d else -((-n) / d)
  }

  function Divisor(rateBp: nat): int { 10000 + rateBp }

  function ExtractTax(inclusive: int, rateBp: nat): int {
    if rateBp == 0 then 0
    else TruncDiv(inclusive * rateBp * 2 + Divisor(rateBp), Divisor(rateBp) * 2)
  }

  /** CGST, then SGST, which takes the odd paisa. */
  function SplitCgstSgst(tax: int): (int, int) {
    var cgst := tax / 2;
    (cgst, tax - cgst)
  }

  /** Twice the divisor times the tax, less twice the exact product: the rounding error in
      units of `1 / (2 * divisor)` of a paisa. */
  function RoundingError(inclusive: int, rateBp: nat): int {
    2 * (Divisor(rateBp) * ExtractTax(inclusive, rateBp)) - 2 * (inclusive * rateBp)
  }

  /** Half up, in integers: the error is above minus one half and at most one half. */
  lemma {:induction false} ErrorIsHalfUp(inclusive: nat, rateBp: nat)
    ensures -Divisor(rateBp) < RoundingError(inclusive, rateBp) <= Divisor(rateBp)
  {
    if rateBp > 0 {
      var d := Divisor(rateBp);
      var n := inclusive * rateBp * 2 + d;
      assert inclusive * rateBp >= 0;
      A.Divide(n, d * 2);
      assert d * 2 * (n / (d * 2)) == 2 * d * (n / (d * 2));
    }
  }

  /** The integer formula is the exact decimal quotient rounded half up. */
  lemma {:induction false} ExtractTaxIsHalfUp(inclusive: nat, rateBp: nat)
    ensures ExtractTax(inclusive, rateBp)
         == ((inclusive * rateBp) as real / Divisor(rateBp) as real + 0.5).Floor
  {
    ErrorIsHalfUp(inclusive, rateBp);
    HalfUpReal(inclusive * rateBp, Divisor(rateBp), ExtractTax(inclusive, rateBp));
  }

  lemma {:induction false} HalfUpReal(p: int, d: int, t: int)
    requires d > 0
    requires -d < 2 * (d * t) - 2 * p <= d
    ensures (p as real / d as real + 0.5).Floor == t
  {
    var q, y := p as real / d as real, t as real;
    assert q * d as real == p as real;
    assert (d * t) as real == d as real * y;
    RealCancel(d as real, y - 0.5, q, y + 0.5);
  }

  lemma {:induction false} RealCancel(d: real, low: real, q: real, high: real)
    requires d > 0.0
    requires d * low <= q * d < d * high
    ensures low <= q < high
  {
    assert d * (q - low) >= 0.0 && d * (high - q) > 0.0;
    RealSign(d, q - low);
    RealSign(d, high - q);
  }

  lemma {:induction false} RealSign(k: real, x: real)
    requires k > 0.0
    ensures k * x >= 0.0 ==> x >= 0.0
    ensures k * x > 0.0 ==> x > 0.0
  {
  }

  lemma {:induction false} MulAtMost(k: int, a: int, b: int)
    requires k >= 0 && a <= b
    ensures k * a <= k * b
  {
    A.Distribute(k, b, a);
    assert k * (b - a) >= 0;
  }

  lemma {:induction false} CancelAtMost(k: int, a: int, b: int)
    requires k > 0 && k * a < k * (b + 1)
    ensures a <= b
  {
    if a > b { MulAtMost(k, b + 1, a); }
  }

  /** The tax inside an amount is part of it. */
  lemma {:induction false} TaxWithinInclusive(inclusive: nat, rateBp: nat)
    ensures 0 <= ExtractTax(inclusive, rateBp) <= inclusive
  {
    ErrorIsHalfUp(inclusive, rateBp);
    var d, t := Divisor(rateBp), ExtractTax(inclusive, rateBp);
    MulAtMost(inclusive, 0, rateBp);
    MulAtMost(inclusive, rateBp, d);
    A.Distribute(d, t, 1);
    A.Distribute(d, inclusive, 1);
    CancelAtMost(d, t, inclusive);
    CancelAtMost(d, -1, t - 1);
    if t < 0 { MulAtMost(d, t, -1); }
  }

  /** A larger amount or a larger rate never holds less tax. */
  lemma {:induction false} TaxIsMonotone(small: nat, large: nat, low: nat, high: nat)
    requires small <= large && low <= high
    ensures ExtractTax(small, low) <= ExtractTax(large, high)
  {
    ErrorIsHalfUp(small, low);
    ErrorIsHalfUp(large, high);
    CrossRates(small, large, low, high);
    Compare(Divisor(low), Divisor(high), ExtractTax(small, low), ExtractTax(large, high), small * low, large * high);
  }

  lemma {:induction false} CrossRates(small: nat, large: nat, low: nat, high: nat)
    requires small <= large && low <= high
    ensures Divisor(high) * (small * low) <= Divisor(low) * (large * high)
  {
    MulAtMost(low, small, large);
    MulAtMost(Divisor(high), low * small, low * large);
    MulAtMost(large, low * Divisor(high), high * Divisor(low)) by {
      A.Distribute(low, 10000, high);
      A.Distribute(high, 10000, low);
    }
    assert Divisor(high) * (low * large) == large * (low * Divisor(high));
    assert Divisor(low) * (large * high) == large * (high * Divisor(low));
  }

  /** Two half-up quotients compare as their fractions do. */
  lemma {:induction false} Compare(d: int, e: int, s: int, t: int, p: int, q: int)
    requires d > 0 && e > 0
    requires e * p <= d * q
    requires 2 * (e * t) - 2 * q > -e && 2 * (d * s) - 2 * p <= d
    ensures s <= t
  {
    // Scale both bounds to the common denominator d * e.
    MulAtMost(d, 2 * q - 2 * (e * t) + 1, e);
    MulAtMost(e, 2 * (d * s) - 2 * p, d);
    var de := d * e;
    assert d * (2 * q - 2 * (e * t) + 1) == 2 * (d * q) - 2 * (de * t) + d;
    assert e * (2 * (d * s) - 2 * p) == 2 * (de * s) - 2 * (e * p);
    assert e * d == de;
    A.Distribute(de, t, 1);
    assert de > 0;
    CancelAtMost(de, s, t);
  }

  function TaxSum(amounts: seq<nat>, rateBp: nat): int { SumBy(amounts, (a: nat) => ExtractTax(a, rateBp)) }

  function AmountSum(amounts: seq<nat>): int { SumBy(amounts, (a: nat) => a) }

  function BasketError(amounts: seq<nat>, rateBp: nat): int {
    2 * (Divisor(rateBp) * TaxSum(amounts, rateBp)) - 2 * (AmountSum(amounts) * rateBp)
  }

  lemma {:induction false} ErrorsAddUp(amounts: seq<nat>, rateBp: nat)
    ensures AmountSum(amounts) >= 0
    ensures -(|amounts| * Divisor(rateBp)) <= BasketError(amounts, rateBp) <= |amounts| * Divisor(rateBp)
    ensures amounts != [] ==> BasketError(amounts, rateBp) > -(|amounts| * Divisor(rateBp))
  {
    if amounts != [] {
      ErrorsAddUp(amounts[1..], rateBp);
      ErrorIsHalfUp(amounts[0], rateBp);
      ErrorOfMore(amounts, rateBp);
      A.Distribute(Divisor(rateBp), |amounts[1..]|, 1);
    }
  }

  lemma {:induction false} ErrorOfMore(amounts: seq<nat>, rateBp: nat)
    requires amounts != []
    ensures BasketError(amounts, rateBp) == RoundingError(amounts[0], rateBp) + BasketError(amounts[1..], rateBp)
  {
    A.Distribute(Divisor(rateBp), ExtractTax(amounts[0], rateBp), TaxSum(amounts[1..], rateBp));
    A.Distribute(rateBp, amounts[0], AmountSum(amounts[1..]));
  }

  /** Rounding line by line moves the tax of a basket at one rate by at most half a paisa
      a line. */
  lemma {:induction false} BasketTaxBound(amounts: seq<nat>, rateBp: nat)
    ensures AmountSum(amounts) >= 0
    ensures var difference := TaxSum(amounts, rateBp) - ExtractTax(AmountSum(amounts), rateBp);
            -|amounts| <= 2 * difference <= |amounts|
  {
    ErrorsAddUp(amounts, rateBp);
    if amounts != [] {
      var total := AmountSum(amounts);
      ErrorIsHalfUp(total, rateBp);
      CancelErrors(Divisor(rateBp), TaxSum(amounts, rateBp), ExtractTax(total, rateBp), total * rateBp, |amounts|);
    }
  }

  lemma {:induction false} CancelErrors(d: int, s: int, t: int, p: int, n: int)
    requires d > 0 && n >= 0
    requires -(n * d) < 2 * (d * s) - 2 * p <= n * d
    requires -d < 2 * (d * t) - 2 * p <= d
    ensures -n <= 2 * (s - t) <= n
  {
    A.Distribute(d, n, 1);
    CancelDifference(d, s, t, n, 2 * (d * s), 2 * (d * t));
  }

  lemma {:induction false} CancelDifference(d: int, s: int, t: int, n: int, ds: int, dt: int)
    requires n >= 0 && d > 0 && ds == 2 * (d * s) && dt == 2 * (d * t)
    requires -((n + 1) * d) < ds - dt < (n + 1) * d
    ensures -n <= 2 * (s - t) <= n
  {
    A.Distribute(d, s, t);
    assert d * (2 * (s - t)) == ds - dt;
    assert d * (-(2 * (s - t))) == dt - ds;
    CancelAtMost(d, 2 * (s - t), n);
    CancelAtMost(d, -(2 * (s - t)), n);
  }

  /** The bound is met: two lines of one paisa at a rate of 100% are each rounded up. */
  lemma {:induction false} BasketTaxBoundIsTight()
    ensures TaxSum([1, 1], 10000) - ExtractTax(AmountSum([1, 1]), 10000) == 1
  {
    assert ExtractTax(1, 10000) == 1 && ExtractTax(2, 10000) == 1;
    assert TaxSum([1, 1], 10000) == 1 + TaxSum([1], 10000);
    assert AmountSum([1, 1]) == 1 + AmountSum([1]);
  }
}
