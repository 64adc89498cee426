/** The machine integers of the program, and results that carry its error codes. */
module Integers {

  const U8_MAX: int := 0xFF
  const U32_MAX: int := 0xFFFF_FFFF
  const U64_MAX: int := 0xFFFF_FFFF_FFFF_FFFF
  const U128_MAX: int := 0xFFFF_FFFF_FFFF_FFFF_FFFF_FFFF_FFFF_FFFF
  const I64_MAX: int := 0x7FFF_FFFF_FFFF_FFFF
  const I64_MIN: int := -0x8000_0000_0000_0000

  type U8 = x: int | 0 <= x <= U8_MAX
  type U32 = x: int | 0 <= x <= U32_MAX
  type U64 = x: int | 0 <= x <= U64_MAX
  type I64 = x: int | I64_MIN <= x <= I64_MAX

  function Min(a: int, b: int): (m: int)
    ensures m <= a && m <= b && (m == a || m == b)
  {
    if a <= b then a else b
  }

  datatype Option<+T> = None | Some(value: T)

  /** u128 `checked_mul` followed by `checked_div`, as every stream formula of the program writes it. */
  function CheckedMulDiv(a: nat, b: nat, c: nat): Option<nat> {
    if a * b > U128_MAX || c == 0 then None else Some(a * b / c)
  }

  /** A u64 by a non-negative i64 always fits u128: the checked product of the stream formulas never fails. */
  lemma ProductFits(a: int, b: int)
    requires 0 <= a <= I64_MAX && 0 <= b <= U64_MAX
    ensures 0 <= a * b <= U128_MAX
  {
    MulMonotone(a, I64_MAX, b);
    MulMonotone(b, U64_MAX, I64_MAX);
  }

  lemma MulMonotone(a: int, a': int, b: int)
    requires a <= a' && 0 <= b
    ensures a * b <= a' * b
  {
  }
}
