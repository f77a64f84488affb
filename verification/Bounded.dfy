/** Machine integers of the contract: i128 amounts and u64 timestamps, with the
    checked, saturating and truncating operations the contract mixes. */
module Bounded {
  const I128_MAX: int := 0x7FFF_FFFF_FFFF_FFFF_FFFF_FFFF_FFFF_FFFF
  const I128_MIN: int := -0x8000_0000_0000_0000_0000_0000_0000_0000
  const U64_MAX: int := 0xFFFF_FFFF_FFFF_FFFF
  const TWO_POW_64: int := 0x1_0000_0000_0000_0000

  type i128 = x: int | I128_MIN <= x <= I128_MAX
  type u64 = x: int | 0 <= x <= U64_MAX

  function Min(a: int, b: int): int {
    if a <= b then a else b
  }

  function Max(a: int, b: int): int {
    if a >= b then a else b
  }

  predicate FitsI128(x: int) {
    I128_MIN <= x <= I128_MAX
  }

  predicate FitsU64(x: int) {
    0 <= x <= U64_MAX
  }

  /** Nearest i128 to an exact result. */
  function ClampI128(x: int): i128 {
    if x > I128_MAX then I128_MAX else if x < I128_MIN then I128_MIN else x
  }

  function SaturatingAdd(a: i128, b: i128): i128 {
    ClampI128(a + b)
  }

  function SaturatingSub(a: i128, b: i128): i128 {
    ClampI128(a - b)
  }

  /** u64 subtraction that stops at zero. */
  function SaturatingSubU64(a: u64, b: u64): u64 {
    if a >= b then a - b else 0
  }

  function SaturatingAddU64(a: u64, b: u64): u64 {
    if a + b <= U64_MAX then a + b else U64_MAX
  }

  /** Division rounding toward zero; Dafny's own `/` is Euclidean. */
  function TruncDiv(a: int, b: int): int
    requires b != 0
  {
    if a >= 0 then (if b > 0 then a / b else -(a / -b))
    else (if b > 0 then -(-a / b) else -a / -b)
  }

  /** Signs as in exact division, and the largest quotient whose multiple of b does not
      reach beyond a. */
  lemma TruncDivTowardZero(a: int, b: int)
    requires b != 0
    ensures var q := TruncDiv(a, b);
            var size := if b > 0 then b else -b;
            && (a >= 0 ==> 0 <= b * q <= a < b * q + size)
            && (a <= 0 ==> b * q - size < a <= b * q <= 0)
  {
    var size := if b > 0 then b else -b;
    QuotientBound(if a >= 0 then a else -a, size);
  }

  /** A cast to u64, which drops the high bits of a two's complement value. */
  function TruncateU64(x: int): u64 {
    x % TWO_POW_64
  }

  lemma TruncDivFits(a: int, b: int)
    requires b > 0 && FitsI128(a)
    ensures FitsI128(TruncDiv(a, b))
    ensures a >= 0 ==> 0 <= TruncDiv(a, b) <= a
  {
    if a >= 0 {
      QuotientBound(a, b);
    } else {
      QuotientBound(-a, b);
    }
  }

  lemma QuotientBound(a: nat, b: nat)
    requires b > 0
    ensures 0 <= a / b <= a
    ensures b * (a / b) <= a < b * (a / b) + b
  {
    assert a == b * (a / b) + a % b;
    if a / b > a {
      ProductMonotone(1, b, a / b);
    }
  }

  lemma ProductMonotone(a: int, b: int, c: int)
    requires a <= b && 0 <= c
    ensures a * c <= b * c
  {
  }

  /** The quotient is the only integer q with b*q <= a < b*q + b. */
  lemma QuotientUnique(a: int, b: int, q: int)
    requires b > 0 && b * q <= a < b * q + b
    ensures a / b == q
  {
    var p := a / b;
    assert b * p <= a < b * p + b;
    if p < q {
      ProductMonotone(p + 1, q, b);
    } else if q < p {
      ProductMonotone(q + 1, p, b);
    }
  }

  lemma Distribute(r: int, a: int, b: int)
    ensures r * (a + b) == r * a + r * b
    ensures r * (a - b) == r * a - r * b
  {
  }
}
