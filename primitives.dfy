/** Small value types shared by the other modules: an optional value and the
    32-bit signed integer of the .NET runtime, with its unchecked arithmetic. */
module Primitives {

  /** A value that may be absent (a missing dictionary entry, a value that did not parse). */
  datatype Option<+T> = None | Some(value: T)

  const Int32Min: int := -0x8000_0000
  const Int32Max: int := 0x7fff_ffff

  /** The .NET `int` type. */
  newtype Int32 = x: int | Int32Min <= x <= Int32Max

  /** The result of an unchecked .NET `int` operation whose mathematical value is `x`:
      `x` itself when it fits, otherwise the value congruent to `x` modulo 2^32. */
  function WrapToInt32(x: int): (r: Int32)
    ensures Int32Min <= x <= Int32Max ==> r as int == x
    ensures (x - r as int) % 0x1_0000_0000 == 0
  {
    var shifted := x + 0x8000_0000;
    assert x - (shifted % 0x1_0000_0000 - 0x8000_0000) == (shifted / 0x1_0000_0000) * 0x1_0000_0000;
    (shifted % 0x1_0000_0000 - 0x8000_0000) as Int32
  }
}
