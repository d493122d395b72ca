/** The platform's 128-bit unsigned amounts and 18-digit fixed-point `Decimal`.
    Every amount of the pool is a `Uint128`; subtraction and addition are checked,
    so leaving the range is an `Overflow` failure and never a wrap-around. */
module Numeric {
  import opened Errors

  const U128_LIMIT: nat := 0x1_0000_0000_0000_0000_0000_0000_0000_0000

  type Uint128 = x: nat | x < U128_LIMIT

  /** `Uint128::checked_sub` */
  function CheckedSub(a: Uint128, b: Uint128): (r: Result<Uint128>)
    ensures r.Success? <==> b <= a
    ensures r.Success? ==> r.value + b == a
    ensures r.Failure? ==> r.error == Overflow
  {
    if b <= a then Success(a - b) else Failure(Overflow)
  }

  /** `Uint128` addition, which aborts on overflow. */
  function CheckedAdd(a: Uint128, b: Uint128): (r: Result<Uint128>)
    ensures r.Success? <==> a + b < U128_LIMIT
    ensures r.Success? ==> r.value - b == a
    ensures r.Failure? ==> r.error == Overflow
  {
    if a + b < U128_LIMIT then Success(a + b) else Failure(Overflow)
  }

  /** The number of atomics that make one whole `Decimal`. */
  const DECIMAL_FRACTIONAL: nat := 1_000_000_000_000_000_000

  /** A fixed-point ratio: the value is `atomics / DECIMAL_FRACTIONAL`. */
  datatype Decimal = Decimal(atomics: Uint128)

  const DECIMAL_ONE: Decimal := Decimal(DECIMAL_FRACTIONAL)

  /** `Decimal::from_ratio(numerator, denominator)`: `floor(numerator * 10^18 / denominator)`
      atomics; the source panics on a zero denominator and on a result that does
      not fit, modelled as `DivideByZero` and `Overflow`. */
  function FromRatio(numerator: Uint128, denominator: Uint128): (r: Result<Decimal>)
    ensures denominator == 0 <==> r == Failure(DivideByZero)
    ensures r.Success? ==> r.value.atomics == numerator * DECIMAL_FRACTIONAL / denominator
    ensures r.Success? <==> 0 < denominator && numerator * DECIMAL_FRACTIONAL / denominator < U128_LIMIT
    ensures 0 < denominator && numerator <= denominator ==>
              r.Success? && r.value.atomics <= DECIMAL_FRACTIONAL
    ensures 0 < denominator && numerator == denominator ==> r == Success(DECIMAL_ONE)
  {
    if denominator == 0 then Failure(DivideByZero)
    else
      var q := numerator * DECIMAL_FRACTIONAL / denominator;
      assert numerator <= denominator ==> q <= DECIMAL_FRACTIONAL by {
        if numerator <= denominator {
          MulMonotone(DECIMAL_FRACTIONAL, numerator, denominator);
          DivAtMost(numerator * DECIMAL_FRACTIONAL, DECIMAL_FRACTIONAL, denominator);
        }
      }
      assert numerator == denominator ==> q == DECIMAL_FRACTIONAL by {
        if numerator == denominator {
          ExactDiv(DECIMAL_FRACTIONAL, denominator);
        }
      }
      if q < U128_LIMIT then Success(Decimal(q)) else Failure(Overflow)
  }

  /** `Uint128 * Decimal`: `floor(u * atomics / 10^18)` through `multiply_ratio`,
      which panics (here: `Overflow`) when the product does not fit. */
  function MulDecimal(u: Uint128, d: Decimal): (r: Result<Uint128>)
    ensures r.Success? ==> r.value == u * d.atomics / DECIMAL_FRACTIONAL
    ensures d.atomics <= DECIMAL_FRACTIONAL ==> r.Success? && r.value <= u
    ensures d == DECIMAL_ONE ==> r == Success(u)
    ensures d.atomics < DECIMAL_FRACTIONAL && 0 < u ==> r.Success? && r.value < u
  {
    var q := u * d.atomics / DECIMAL_FRACTIONAL;
    assert d.atomics <= DECIMAL_FRACTIONAL ==> q <= u by {
      if d.atomics <= DECIMAL_FRACTIONAL {
        MulMonotone(u, d.atomics, DECIMAL_FRACTIONAL);
        DivAtMost(u * d.atomics, u, DECIMAL_FRACTIONAL);
      }
    }
    assert d.atomics < DECIMAL_FRACTIONAL && 0 < u ==> q < u by {
      if d.atomics < DECIMAL_FRACTIONAL && 0 < u {
        MulMonotone(u, d.atomics + 1, DECIMAL_FRACTIONAL);
        DivAtMost(u * d.atomics + u, u, DECIMAL_FRACTIONAL);
        FloorDivBounds(u * d.atomics, DECIMAL_FRACTIONAL);
        FloorDivBounds(u * d.atomics + u, DECIMAL_FRACTIONAL);
      }
    }
    assert d == DECIMAL_ONE ==> q == u by {
      if d == DECIMAL_ONE {
        ExactDiv(u, DECIMAL_FRACTIONAL);
      }
    }
    if q < U128_LIMIT then Success(q) else Failure(Overflow)
  }

  /** Taking the share `d` of a positive amount `u` leaves part of it behind. */
  predicate TakesLessThan(u: Uint128, d: Decimal) {
    MulDecimal(u, d).Success? && MulDecimal(u, d).value < u
  }

  lemma FloorDivBounds(x: nat, d: nat)
    requires 0 < d
    ensures (x / d) * d <= x < (x / d + 1) * d
  {
  }

  lemma MulMonotone(u: nat, a: nat, b: nat)
    requires a <= b
    ensures u * a <= u * b
  {
  }

  /** `x <= y * d` bounds the quotient `x / d` by `y`. */
  lemma DivAtMost(x: nat, y: nat, d: nat)
    requires 0 < d && x <= y * d
    ensures x / d <= y
  {
    FloorDivBounds(x, d);
    if x / d > y {
      MulMonotone(d, y + 1, x / d);
    }
  }

  lemma ExactDiv(u: nat, d: nat)
    requires 0 < d
    ensures u * d / d == u
  {
    FloorDivBounds(u * d, d);
    var q := u * d / d;
    if q < u {
      MulMonotone(d, q + 1, u);
    } else {
      MulMonotone(d, u + 1, q + 1);
    }
  }
}
