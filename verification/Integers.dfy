// Go's fixed-width integers, as ranges of the unbounded ones.
module Integers {
  const MAX_INT32 := 0x7FFF_FFFF
  const MAX_UINT32 := 0xFFFF_FFFF
  const MAX_INT64 := 0x7FFF_FFFF_FFFF_FFFF

  type Uint8 = x: int | 0 <= x < 256
  type Int32 = x: int | -MAX_INT32 - 1 <= x <= MAX_INT32
  type Uint32 = x: int | 0 <= x <= MAX_UINT32
  type Int64 = x: int | -MAX_INT64 - 1 <= x <= MAX_INT64
}
