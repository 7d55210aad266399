/** 18-digit fixed-point decimals over 128-bit integers, as the contracts use them.
    A decimal is represented by its numerator over `ONE`; a 128-bit amount by a natural number, with every
    operation that can overflow written out as one that can fail. */
module Decimals {
  import opened Results

  const ONE: nat := 1_000_000_000_000_000_000
  const U128_LIMIT: nat := 0x1_0000_0000_0000_0000_0000_0000_0000_0000

  function Fits(n: nat): Result<nat> {
    if n < U128_LIMIT then Ok(n) else Err(Panic)
  }

  function AddU128(a: nat, b: nat): Result<nat> {
    Fits(a + b)
  }

  function SaturatingSub(a: nat, b: nat): nat {
    if a < b then 0 else a - b
  }

  function Min(a: nat, b: nat): nat {
    if a <= b then a else b
  }

  /** `Decimal::from_ratio`, and `Decimal / Decimal` on numerators: wide intermediate, 128-bit result. */
  function FromRatio(a: nat, b: nat): Result<nat> {
    if b == 0 then Err(Panic) else Fits(a * ONE / b)
  }

  function DecimalDivision(a: nat, b: nat): Result<nat> {
    FromRatio(a, b)
  }

  function DecimalMultiplication(a: nat, b: nat): Result<nat> {
    Fits(b * a / ONE)
  }

  function DecimalFromUint128(a: nat): Result<nat> {
    FromRatio(a, 1)
  }

  function Uint128FromDecimal(d: nat): nat {
    d / ONE
  }

  /** `floor(n * d / ONE)`: what multiplying an amount by a decimal means. */
  function MulFloor(n: nat, d: nat): nat {
    n * d / ONE
  }

  /** `Decimal * Uint128`: wide intermediate. */
  function ScaleUint128(d: nat, n: nat): Result<nat> {
    Fits(MulFloor(n, d))
  }

  /** `multiply_u128_with_decimal`: the product itself must fit in 128 bits. */
  function MultiplyU128WithDecimal(n: nat, d: nat): Result<nat> {
    if n * d < U128_LIMIT then Ok(MulFloor(n, d)) else Err(Panic)
  }

  // ---- Floors ----

  lemma FloorBounds(x: nat, d: nat)
    requires d > 0
    ensures d * (x / d) <= x < d * (x / d) + d
  {
  }

  /** Multiplication is monotone in both factors. */
  lemma MulMonotone(a: nat, b: nat, c: nat, d: nat)
    requires a <= b && c <= d
    ensures a * c <= b * d
  {
    assert a * c <= b * c <= b * d;
  }

  /** A quotient is pinned down by its two bounds. */
  lemma QuotientIs(x: nat, d: nat, q: nat)
    requires d > 0 && d * q <= x < d * q + d
    ensures x / d == q
  {
    FloorBounds(x, d);
    if x / d < q {
      MulMonotone(x / d + 1, q, d, d);
    } else if x / d > q {
      MulMonotone(q + 1, x / d, d, d);
    }
  }

  /** The greatest natural number whose `d`-fold stays below `x` is the quotient. */
  lemma QuotientAtLeast(x: nat, d: nat, q: nat)
    requires d > 0 && d * q <= x
    ensures q <= x / d
  {
    FloorBounds(x, d);
    if x / d < q {
      MulMonotone(x / d + 1, q, d, d);
    }
  }

  lemma DivMonotone(x: nat, y: nat, d: nat)
    requires d > 0 && x <= y
    ensures x / d <= y / d
  {
    FloorBounds(x, d);
    QuotientAtLeast(y, d, x / d);
  }

  lemma MulFloorMonotone(m: nat, n: nat, c: nat, d: nat)
    requires m <= n && c <= d
    ensures MulFloor(m, c) <= MulFloor(n, d)
  {
    MulMonotone(m, n, c, d);
    DivMonotone(m * c, n * d, ONE);
  }

  lemma MulFloorOne(n: nat)
    ensures MulFloor(n, ONE) == n
  {
  }

  lemma MulFloorAtMost(n: nat, d: nat)
    requires d <= ONE
    ensures MulFloor(n, d) <= n
  {
    MulFloorMonotone(n, n, d, ONE);
  }

  /** Splitting an amount loses at most one unit to rounding and never gains one. */
  lemma MulFloorSplit(m: nat, n: nat, d: nat)
    ensures MulFloor(m, d) + MulFloor(n, d) <= MulFloor(m + n, d) <= MulFloor(m, d) + MulFloor(n, d) + 1
  {
    assert (m + n) * d == m * d + n * d;
  }

  /** Dividing two floors in a row is dividing once. */
  lemma NestedFloor(x: nat, b: nat, c: nat)
    requires b > 0 && c > 0
    ensures b * c > 0 && x / b / c == x / (b * c)
  {
    var q := x / b;
    var p := q / c;
    FloorBounds(x, b);
    FloorBounds(q, c);
    MulMonotone(1, b, 1, c);
    assert (b * c) * p <= x by {
      MulMonotone(b, b, c * p, q);
      assert b * (c * p) == (b * c) * p;
    }
    assert x < (b * c) * p + b * c by {
      MulMonotone(b, b, q + 1, c * p + c);
      assert b * (c * p + c) == (b * c) * p + b * c;
      assert b * (q + 1) == b * q + b;
    }
    QuotientIs(x, b * c, p);
  }
}
