/** Rust's fixed-width unsigned integers and the overflow-aware `u64`
    primitives the metering shim is written with: `overflowing_sub`,
    `overflowing_add`, `checked_mul`, `checked_add`, `saturating_add`, and the
    wrap-around that a release build gives a plain `+`.

    `u64` and `u32` are newtypes, so every intermediate result of `+`, `-` and
    `*` on them must be shown to stay in range: this is the "must not itself
    overflow" obligation of each unchecked expression in the source. Each
    primitive states its result against unbounded integers. */
module Word {

  const U64_MAX: int := 0xFFFF_FFFF_FFFF_FFFF
  const U32_MAX: int := 0xFFFF_FFFF
  /** 2^64, the modulus of `u64` arithmetic. */
  const MODULUS: int := U64_MAX + 1

  newtype u64 = x: int | 0 <= x <= 0xFFFF_FFFF_FFFF_FFFF
  newtype u32 = x: int | 0 <= x <= 0xFFFF_FFFF

  /** `u64::MAX` */
  const MAX: u64 := 0xFFFF_FFFF_FFFF_FFFF

  datatype Option<T> = None | Some(value: T)

  /** `a.overflowing_sub(b)`: the difference modulo 2^64 and whether it borrowed. */
  function OverflowingSub(a: u64, b: u64): (r: (u64, bool))
    ensures r.1 <==> a < b
    ensures r.0 as int == a as int - b as int + (if r.1 then MODULUS else 0)
  {
    if b <= a then (a - b, false)
    else ((a as int - b as int + MODULUS) as u64, true)
  }

  /** `a.overflowing_add(b)`: the sum modulo 2^64 and whether it carried. */
  function OverflowingAdd(a: u64, b: u64): (r: (u64, bool))
    ensures r.1 <==> a as int + b as int > U64_MAX
    ensures r.0 as int + (if r.1 then MODULUS else 0) == a as int + b as int
  {
    if a as int + b as int <= U64_MAX then ((a as int + b as int) as u64, false)
    else ((a as int + b as int - MODULUS) as u64, true)
  }

  /** `a.checked_mul(b)`: the product, or `None` when it does not fit. */
  function CheckedMul(a: u64, b: u64): (r: Option<u64>)
    ensures r.None? <==> a as int * b as int > U64_MAX
    ensures r.Some? ==> r.value as int == a as int * b as int
  {
    if a as int * b as int <= U64_MAX then Some((a as int * b as int) as u64) else None
  }

  /** `a.checked_add(b)`: the sum, or `None` when it does not fit. */
  function CheckedAdd(a: u64, b: u64): (r: Option<u64>)
    ensures r.None? <==> a as int + b as int > U64_MAX
    ensures r.Some? ==> r.value as int == a as int + b as int
  {
    if a as int + b as int <= U64_MAX then Some(a + b) else None
  }

  /** `a.saturating_add(b)`: the sum, clamped to `u64::MAX` instead of wrapping. */
  function SaturatingAdd(a: u64, b: u64): (r: u64)
    ensures a <= r && b <= r
    ensures r as int <= a as int + b as int
    ensures r as int < a as int + b as int ==> r == MAX
    ensures a as int + b as int > U64_MAX ==> r == MAX
  {
    if a as int + b as int <= U64_MAX then a + b else MAX
  }

  /** `a + b` in a build without overflow checks: the sum modulo 2^64. */
  function WrappingAdd(a: u64, b: u64): (r: u64)
    ensures a as int + b as int <= U64_MAX ==> r as int == a as int + b as int
    ensures a as int + b as int > U64_MAX ==> r as int == a as int + b as int - MODULUS
  {
    OverflowingAdd(a, b).0
  }

  /** Undoing a wrapped addition with a wrapped subtraction gives back the
      first operand, and the borrow is exactly the carry. */
  lemma WrapRoundTrip(a: u64, b: u64)
    ensures OverflowingSub(OverflowingAdd(a, b).0, b) == (a, OverflowingAdd(a, b).1)
  {
  }
}
