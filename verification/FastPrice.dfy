/** Options, machine words, and the fixed-point price type: an i64 mantissa at nine decimals,
    with the saturating, checked and truncating operations the engines use on it. */
module Options {
  datatype Option<+T> = None | Some(value: T)
}

module Words {
  const I64_MIN: int := -0x8000_0000_0000_0000
  const I64_MAX: int := 0x7fff_ffff_ffff_ffff
  const U64_MAX: int := 0xffff_ffff_ffff_ffff

  type I64 = x: int | I64_MIN <= x <= I64_MAX
  type U64 = x: int | 0 <= x <= U64_MAX
  type U16 = x: int | 0 <= x <= 0xffff
}

module FastPrices {
  import opened Options
  import opened Words

  /** 1.0 at nine decimals. */
  const FACTOR: int := 1_000_000_000

  /** Decimals are counted in units of 1e-28, the finest scale a `Decimal` has; one
      unit of price mantissa is this many of them. */
  const QUANTA_PER_RAW: int := 10_000_000_000_000_000_000

  function Max(a: int, b: int): int { if a >= b then a else b }
  function Min(a: int, b: int): int { if a <= b then a else b }

  /** Division rounding toward zero, as the i128 `/` does. */
  function TruncDiv(a: int, b: int): int
    requires b > 0
  {
    if a >= 0 then a / b else -((-a) / b)
  }

  function Clamp(x: int): I64 {
    if x > I64_MAX then I64_MAX else if x < I64_MIN then I64_MIN else x
  }

  function SaturatingAdd(a: I64, b: I64): I64 { Clamp(a + b) }

  function SaturatingSub(a: I64, b: I64): I64 { Clamp(a - b) }

  /** `i64::try_from(x).unwrap_or(i64::MAX)`: both overflow directions give the maximum. */
  function NarrowOrMax(x: int): I64 {
    if I64_MIN <= x <= I64_MAX then x else I64_MAX
  }

  function CheckedMul(a: I64, b: I64): Option<I64> {
    var result := TruncDiv(a * b, FACTOR);
    if I64_MIN <= result <= I64_MAX then Some(result) else None
  }

  /** `i64::midpoint`: the exact average, rounded toward zero. */
  function Midpoint(a: I64, b: I64): I64 { TruncDiv(a + b, 2) }

  /** Nearest integer to d/q, ties to the even neighbour (`round_dp`'s strategy). */
  function RoundHalfEven(d: int, q: int): int
    requires q > 0
  {
    var low := d / q;
    var twice := 2 * (d % q);
    if twice < q || (twice == q && low % 2 == 0) then low else low + 1
  }

  function FromDecimal(d: int): I64 { Clamp(RoundHalfEven(d, QUANTA_PER_RAW)) }

  function ToDecimal(p: I64): int { p * QUANTA_PER_RAW }

  /** A nine-decimal price survives the round trip through `Decimal`. */
  lemma DecimalRoundTrip(p: I64)
    ensures FromDecimal(ToDecimal(p)) == p
  {
    assert ToDecimal(p) / QUANTA_PER_RAW == p && ToDecimal(p) % QUANTA_PER_RAW == 0;
  }

  /** `q` is the quotient of `n` by `d`, rounded toward zero. */
  predicate Truncates(q: int, n: int, d: int) {
    if n >= 0 then 0 <= n - q * d < d else 0 <= q * d - n < d
  }

  lemma TruncDivTruncates(n: int, d: int)
    requires d > 0
    ensures Truncates(TruncDiv(n, d), n, d)
  {
    var m := if n >= 0 then n else -n;
    assert m == d * (m / d) + m % d;
  }

  /** A decimal in range becomes the nearest mantissa, and of two equally near ones the even. */
  lemma FromDecimalRounds(d: int)
    requires ToDecimal(I64_MIN) <= d <= ToDecimal(I64_MAX)
    ensures var gap := d - ToDecimal(FromDecimal(d));
      && -QUANTA_PER_RAW <= 2 * gap <= QUANTA_PER_RAW
      && (2 * gap == QUANTA_PER_RAW || 2 * gap == -QUANTA_PER_RAW ==> FromDecimal(d) % 2 == 0)
  {
  }

  /** Beyond the range it becomes the nearer end. */
  lemma FromDecimalSaturates(d: int)
    ensures d > ToDecimal(I64_MAX) ==> FromDecimal(d) == I64_MAX
    ensures d < ToDecimal(I64_MIN) ==> FromDecimal(d) == I64_MIN
  {
    DecimalRoundTrip(I64_MAX);
    DecimalRoundTrip(I64_MIN);
    if d > ToDecimal(I64_MAX) { FromDecimalMonotone(ToDecimal(I64_MAX), d); }
    if d < ToDecimal(I64_MIN) { FromDecimalMonotone(d, ToDecimal(I64_MIN)); }
  }

  /** Conversion never reorders two decimals, and moves a price by at most half a unit
      unless it saturates. */
  lemma FromDecimalMonotone(d1: int, d2: int)
    requires d1 <= d2
    ensures FromDecimal(d1) <= FromDecimal(d2)
  {
    var l1, l2 := d1 / QUANTA_PER_RAW, d2 / QUANTA_PER_RAW;
    assert l1 <= l2;
    if l1 == l2 {
      assert d1 % QUANTA_PER_RAW <= d2 % QUANTA_PER_RAW;
    }
  }

  /** `p` is the average of the two prices, rounded toward zero. */
  predicate Averages(p: int, a: int, b: int) {
    if a + b >= 0 then 0 <= a + b - 2 * p <= 1 else -1 <= a + b - 2 * p <= 0
  }

  /** The midpoint of a crossing pair is its average rounded toward zero, and so lies between
      its ends, negative prices included. */
  lemma MidpointBetween(low: I64, high: I64)
    requires low <= high
    ensures Averages(Midpoint(low, high), low, high)
    ensures low <= Midpoint(low, high) <= high
  {
  }

  /** Scaling by a non-negative factor keeps the order of non-negative prices, truncation
      included. */
  lemma MulDivMonotone(a: int, b: int, k: int)
    requires 0 <= a <= b && 0 <= k
    ensures 0 <= TruncDiv(a * k, FACTOR) <= TruncDiv(b * k, FACTOR)
  {
    assert 0 <= a * k;
    assert a * k <= b * k by { assert (b - a) * k >= 0; }
  }
}
