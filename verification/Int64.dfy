/** 64-bit integers. */
module Int64 {
  const MAX_INT64: int := 0x7FFF_FFFF_FFFF_FFFF

  /** Two's complement wrap-around of a 64-bit value. */
  function WrapInt64(x: int): (y: int)
    ensures -MAX_INT64 - 1 <= y <= MAX_INT64
    ensures -MAX_INT64 - 1 <= x <= MAX_INT64 ==> y == x
  {
    (x + 0x8000_0000_0000_0000) % 0x1_0000_0000_0000_0000 - 0x8000_0000_0000_0000
  }

  type int64 = x: int | -0x8000_0000_0000_0000 <= x <= 0x7FFF_FFFF_FFFF_FFFF
}
