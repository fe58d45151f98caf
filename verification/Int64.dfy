/** Signed 64-bit arithmetic with the wrap-around of the source language written out. */
module Int64 {

  const MIN: int := -0x8000_0000_0000_0000
  const MAX: int := 0x7FFF_FFFF_FFFF_FFFF
  const SPAN: int := 0x1_0000_0000_0000_0000

  type int64 = x: int | MIN <= x <= MAX

  predicate Fits(x: int) {
    MIN <= x <= MAX
  }

  /** The value a 64-bit register holds after a computation whose exact result is `x`. */
  function Wrap(x: int): (r: int64)
    ensures (r - x) % SPAN == 0
    ensures Fits(x) ==> r == x
  {
    (x - MIN) % SPAN + MIN
  }
}
