/** The fixed-width Go integers the model works with, and the operations on
    them it relies on: unsigned subtraction that wraps around, the
    conversion of an unsigned value to `int64`, which keeps the bit pattern,
    and the wrapping addition of the 64-bit `int` the writer configures with. */
module GoInts {

  const TwoTo32: int := 0x1_0000_0000
  const TwoTo63: int := 0x8000_0000_0000_0000
  const TwoTo64: int := 0x1_0000_0000_0000_0000

  type uint32 = x: int | 0 <= x < 0x1_0000_0000
  type uint64 = x: int | 0 <= x < 0x1_0000_0000_0000_0000
  type int64 = x: int | -0x8000_0000_0000_0000 <= x < 0x8000_0000_0000_0000

  /** Go's `int64(x)` for a `uint64` x: the same 64 bits read in two's complement. */
  function Int64OfUint64(x: uint64): (r: int64)
    ensures (r + TwoTo64) % TwoTo64 == x
    ensures x < TwoTo63 ==> r == x
    ensures x >= TwoTo63 ==> r < 0
  {
    if x < TwoTo63 then x else x - TwoTo64
  }

  /** Go's `uint64(r)` for an `int64` r, the inverse of `Int64OfUint64`. */
  function Uint64OfInt64(r: int64): (x: uint64)
    ensures Int64OfUint64(x) == r
  {
    if r >= 0 then r else r + TwoTo64
  }

  /** Go's `a + b` on the 64-bit `int`: the sum wrapped into the int64 range. */
  function AddInt64(a: int64, b: int64): (r: int64)
    ensures (a + b - r) % TwoTo64 == 0
    ensures -TwoTo63 <= a + b < TwoTo63 ==> r == a + b
    ensures a + b >= TwoTo63 ==> r < 0
  {
    if a + b >= TwoTo63 then a + b - TwoTo64
    else if a + b < -TwoTo63 then a + b + TwoTo64
    else a + b
  }

  /** Go's `a - b` on `uint64`: the difference modulo 2^64. */
  function SubUint64(a: uint64, b: uint64): (r: uint64)
    ensures (b + r) % TwoTo64 == a
    ensures b <= a ==> r == a - b
  {
    if b <= a then a - b else a - b + TwoTo64
  }

  /** Go's `a - b` on `uint32`: the difference modulo 2^32. */
  function SubUint32(a: uint32, b: uint32): (r: uint32)
    ensures (b + r) % TwoTo32 == a
    ensures b <= a ==> r == a - b
  {
    if b <= a then a - b else a - b + TwoTo32
  }
}
