/** Small shared vocabulary: optional values and C integer widths. */
module Basics {

  datatype Option<+T> = None | Some(value: T)

  /** Conversion to `uint32_t`: the remainder modulo 2^32, also for negative operands. */
  function U32(x: int): (r: nat)
    ensures r < 0x1_0000_0000
    ensures 0 <= x < 0x1_0000_0000 ==> r == x
  {
    x % 0x1_0000_0000
  }

  function Min(a: int, b: int): (r: int)
    ensures r <= a && r <= b && (r == a || r == b)
  {
    if a <= b then a else b
  }
}
