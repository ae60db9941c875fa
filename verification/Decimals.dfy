/** `Decimal`: an integer count of 10^-18 with floor division, held in a `u128`. */
module Decimals {
  import opened Prelude

  const ONE: nat := 1_000_000_000_000_000_000

  /** `Decimal::from_atomics(x, 0).unwrap()` */
  function FromInt(x: nat): Result<nat> {
    if x * ONE < U128 then Ok(x * ONE) else Err
  }

  /** `checked_mul` */
  function Mul(a: nat, b: nat): Result<nat> {
    if a * b / ONE < U128 then Ok(a * b / ONE) else Err
  }

  /** `checked_div` and `Decimal::checked_from_ratio` of the two numerators. */
  function Div(a: nat, b: nat): Result<nat> {
    if b == 0 then Err
    else if a * ONE / b < U128 then Ok(a * ONE / b)
    else Err
  }

  /** `to_uint_floor` */
  function Floor(a: nat): nat {
    a / ONE
  }

  /** `Uint128::multiply_ratio`; `Uint128 * Decimal` is the case with denominator `ONE`. */
  function MulRatio(x: nat, num: nat, den: nat): Result<nat> {
    if den == 0 then Err
    else if x * num / den < U128 then Ok(x * num / den)
    else Err
  }

  lemma DivBounds(a: nat, b: nat)
    requires 0 < b
    ensures a / b * b <= a < a / b * b + b
  {
    assert a == b * (a / b) + a % b;
  }

  /** The quotient is the only integer inside its bounds. */
  lemma DivUnique(a: nat, b: nat, q: nat)
    requires 0 < b && q * b <= a < q * b + b
    ensures a / b == q
  {
    DivBounds(a, b);
    var p := a / b;
    MulMono(p + 1, q, b);
    MulMono(q + 1, p, b);
  }

  lemma MulMono(a: int, b: int, c: nat)
    ensures a <= b ==> a * c <= b * c
  {
  }

  /** Scaling both sides of a quotient leaves it unchanged. */
  lemma DivCancel(a: nat, b: nat, c: nat)
    requires 0 < b && 0 < c
    ensures 0 < b * c && a * c / (b * c) == a / b
  {
    DivBounds(a, b);
    var q := a / b;
    assert q * (b * c) == q * b * c;
    assert (q * b + b) * c == q * (b * c) + b * c;
    assert q * b * c <= a * c < (q * b + b) * c;
    DivUnique(a * c, b * c, q);
  }

  lemma DivMono(a: nat, a': nat, b: nat)
    requires 0 < b && a <= a'
    ensures a / b <= a' / b
  {
    DivBounds(a, b);
    DivBounds(a', b);
    MulMono(a' / b + 1, a / b, b);
  }

  /** Multiplying by a whole number is exact. */
  lemma MulByInt(a: nat, x: nat)
    ensures a * (x * ONE) / ONE == a * x
  {
    assert a * (x * ONE) == a * x * ONE;
    DivUnique(a * x * ONE, ONE, a * x);
  }

  /** Dividing two whole numbers is the ratio of the numbers. */
  lemma DivOfInts(n: nat, d: nat)
    requires 0 < d
    ensures n * ONE * ONE / (d * ONE) == n * ONE / d
  {
    DivCancel(n * ONE, d, ONE);
  }
}
