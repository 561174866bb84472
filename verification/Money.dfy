/**
 * Money: rounded amounts are whole cents (`int`), unrounded ones are exact (`real`) cents.
 * `Round` is `Math.round(x * 100) / 100` read in cents: halves go up.
 */
module Money {

  function Round(cents: real): (r: int)
    ensures r as real - 0.5 <= cents < r as real + 0.5
  {
    (cents + 0.5).Floor
  }

  /** Rounding a fraction without leaving the integers. */
  function RoundQuotient(a: int, b: int): int
    requires b > 0
  {
    (2 * a + b) / (2 * b)
  }

  lemma RoundIs(cents: real, r: int)
    requires r as real - 0.5 <= cents < r as real + 0.5
    ensures Round(cents) == r
  {}

  lemma RoundWhole(n: int)
    ensures Round(n as real) == n
  {}

  lemma QuotientBounds(a: int, b: int)
    requires b > 0
    ensures 2 * b * RoundQuotient(a, b) <= 2 * a + b < 2 * b * (RoundQuotient(a, b) + 1)
  {}

  lemma Cancel(x: real, y: real, b: real)
    requires b > 0.0
    ensures b * x <= b * y ==> x <= y
    ensures b * x < b * y ==> x < y
  {}

  lemma ProductAsReal(x: int, y: int)
    ensures (x * y) as real == x as real * y as real
  {}

  lemma FractionAbove(c: real, q: real, n: real, lo: real)
    requires c > 0.0 && c * q == n && 2.0 * (c * lo) <= 2.0 * n + c
    ensures lo - 0.5 <= q
  {
    assert c * (lo - 0.5) == c * lo - c * 0.5;
    Cancel(lo - 0.5, q, c);
  }

  lemma FractionBelow(c: real, q: real, n: real, hi: real)
    requires c > 0.0 && c * q == n && 2.0 * n + c < 2.0 * (c * hi)
    ensures q < hi - 0.5
  {
    assert c * (hi - 0.5) == c * hi - c * 0.5;
    Cancel(q, hi - 0.5, c);
  }

  lemma FractionBetween(a: int, b: int, lo: int, hi: int)
    requires b > 0 && 2 * b * lo <= 2 * a + b < 2 * b * hi
    ensures lo as real - 0.5 <= a as real / b as real < hi as real - 0.5
  {
    ProductAsReal(b, lo);
    ProductAsReal(b, hi);
    assert 2 * b * lo == 2 * (b * lo) && 2 * b * hi == 2 * (b * hi);
    FractionAbove(b as real, a as real / b as real, a as real, lo as real);
    FractionBelow(b as real, a as real / b as real, a as real, hi as real);
  }

  /** Rounding an exact fraction of cents is integer arithmetic. */
  lemma RoundOfQuotient(a: int, b: int)
    requires b > 0
    ensures Round(a as real / b as real) == RoundQuotient(a, b)
  {
    QuotientBounds(a, b);
    FractionBetween(a, b, RoundQuotient(a, b), RoundQuotient(a, b) + 1);
    RoundIs(a as real / b as real, RoundQuotient(a, b));
  }

  const PERCENT_BASE := 100.0

  /** A gross amount without the IVA it contains; the rate is in tenths of a percent. */
  function WithoutIva(gross: real, rate: nat): real {
    gross / (1.0 + rate as real / 10.0 / PERCENT_BASE)
  }

  lemma WithoutIvaIs(gross: real, rate: nat)
    ensures WithoutIva(gross, rate) == gross * 1000.0 / (1000 + rate) as real
  {}

  function Total(xs: seq<int>): int {
    if xs == [] then 0 else Total(xs[..|xs| - 1]) + xs[|xs| - 1]
  }

  lemma {:induction false} TotalConcat(xs: seq<int>, ys: seq<int>)
    ensures Total(xs + ys) == Total(xs) + Total(ys)
  {
    if ys == [] {
      assert xs + ys == xs;
    } else {
      var n := |ys| - 1;
      assert (xs + ys)[..|xs + ys| - 1] == xs + ys[..n];
      TotalConcat(xs, ys[..n]);
    }
  }
}
