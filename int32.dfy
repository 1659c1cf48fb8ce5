/** C#'s `int`: 32-bit two's-complement integers with unchecked (wrapping) arithmetic. */
module Int32 {

  const MIN: int := -0x8000_0000
  const MAX: int := 0x7fff_ffff
  const MODULUS: int := 0x1_0000_0000

  type int32 = x: int | MIN <= x <= MAX

  /** The value an unchecked C# `int` expression has when its mathematical value is `x`. */
  function Wrap(x: int): (r: int32)
    ensures (r - x) % MODULUS == 0
    ensures MIN <= x <= MAX ==> r == x
  {
    (x - MIN) % MODULUS + MIN
  }
}
