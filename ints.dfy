/** The JVM integer widths the schemas use: Kotlin `Int` and `Long`. */
module Ints {

  const Int32Min: int := -0x8000_0000
  const Int32Max: int := 0x7fff_ffff
  const Int64Min: int := -0x8000_0000_0000_0000
  const Int64Max: int := 0x7fff_ffff_ffff_ffff

  predicate IsInt32(x: int) { Int32Min <= x <= Int32Max }

  predicate IsInt64(x: int) { Int64Min <= x <= Int64Max }

  /** Kotlin `Int`. */
  type Int32 = x: int | IsInt32(x)

  /** Kotlin `Long`. */
  type Int64 = x: int | IsInt64(x)
}
