/** The ranges of Java's `int` and `long`. Dafny integers are unbounded, so
    the model names the width of each value the source keeps in one. */
module Primitives {

  const MinInt: int := -0x8000_0000
  const MaxInt: int := 0x7FFF_FFFF
  const MinLong: int := -0x8000_0000_0000_0000
  const MaxLong: int := 0x7FFF_FFFF_FFFF_FFFF

  predicate IsInt(x: int) { MinInt <= x <= MaxInt }

  predicate IsLong(x: int) { MinLong <= x <= MaxLong }

  /** A Java `int` (32-bit, two's complement). */
  type Int = x: int | IsInt(x)

  /** A Java `long` (64-bit, two's complement). */
  type Long = x: int | IsLong(x)
}
