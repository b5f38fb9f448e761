/** Kotlin's fixed-width integers. Dafny integers are unbounded, so the
    two's-complement wrap-around of `Int` arithmetic is written out here. */
module KotlinInts {

  const MIN_INT: int := -0x8000_0000
  const MAX_INT: int := 0x7fff_ffff
  const INT_MODULUS: int := 0x1_0000_0000

  /** Kotlin `Int`. */
  type Int32 = x: int | MIN_INT <= x <= MAX_INT

  /** Kotlin `Long`. */
  type Int64 = x: int | -0x8000_0000_0000_0000 <= x <= 0x7fff_ffff_ffff_ffff

  /** The `Int` that a 32-bit two's-complement machine holds for the
      mathematical value `x`. */
  function Wrap(x: int): (r: Int32)
    ensures (r - x) % INT_MODULUS == 0
    ensures MIN_INT <= x <= MAX_INT ==> r == x
  {
    (x - MIN_INT) % INT_MODULUS + MIN_INT
  }

  /** `Int.inc()`: one more, wrapping from `Int.MAX_VALUE` to `Int.MIN_VALUE`. */
  function Inc(x: Int32): (r: Int32)
    ensures x < MAX_INT ==> r == x + 1
    ensures x == MAX_INT ==> r == MIN_INT
  {
    Wrap(x + 1)
  }

  /** `Int.dec()`: one less, wrapping from `Int.MIN_VALUE` to `Int.MAX_VALUE`. */
  function Dec(x: Int32): (r: Int32)
    ensures x > MIN_INT ==> r == x - 1
    ensures x == MIN_INT ==> r == MAX_INT
  {
    Wrap(x - 1)
  }

  /** `inc` and `dec` undo each other on every `Int`, the extremes included. */
  lemma IncDecInverse(x: Int32)
    ensures Inc(Dec(x)) == x
    ensures Dec(Inc(x)) == x
  {
  }
}
