/** The unsigned integer types of enet/types.h, and what C does when a result does not fit. */
module Integers {
  type uint8 = x: int | 0 <= x < 0x100
  type uint16 = x: int | 0 <= x < 0x1_0000
  type uint32 = x: int | 0 <= x < 0x1_0000_0000

  function Wrap8(x: int): uint8 {
    x % 0x100
  }

  function Wrap16(x: int): uint16 {
    x % 0x1_0000
  }

  function Wrap32(x: int): uint32 {
    x % 0x1_0000_0000
  }

  lemma NoWrap16(x: int)
    requires 0 <= x < 0x1_0000
    ensures Wrap16(x) == x
  {
  }

  lemma MulMonotone(a: int, b: int, n: int)
    requires a <= b && 0 <= n
    ensures a * n <= b * n
  {
  }
}
