/** Kotlin's `Int`: a 32-bit two's-complement integer whose arithmetic wraps around. */
module KotlinInt {

  const MinInt: int := -0x8000_0000
  const MaxInt: int := 0x7fff_ffff

  type Int32 = x: int | -0x8000_0000 <= x <= 0x7fff_ffff

  /** `x + 1` on a Kotlin `Int`: the one 32-bit value congruent to the exact sum modulo 2^32. */
  function Inc(x: Int32): (r: Int32)
    ensures (x + 1 - r) % 0x1_0000_0000 == 0
    ensures x < MaxInt ==> r == x + 1
    ensures x == MaxInt ==> r == MinInt
  {
    if x == MaxInt then MinInt else x + 1
  }
}
