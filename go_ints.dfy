/**
 * Go's fixed-width integers.  The Component spec declares its counts and
 * ports as Go `int` (64 bits), while the Kubernetes manifests hold them as
 * `int32`; the conversion `int32(x)` keeps the low 32 bits of `x` and reads
 * them as a two's-complement number.
 */
module GoInts {

  const TWO_POW_31: int := 0x8000_0000
  const TWO_POW_32: int := 0x1_0000_0000
  const TWO_POW_63: int := 0x8000_0000_0000_0000

  /** Go's `int` on a 64-bit platform. */
  type Int = x: int | -TWO_POW_63 <= x < TWO_POW_63

  /** Go's `int32`. */
  type Int32 = x: int | -TWO_POW_31 <= x < TWO_POW_31

  /** Go's conversion `int32(x)`: wrap-around modulo 2^32. */
  function ToInt32(x: int): (r: Int32)
    ensures (x - r) % TWO_POW_32 == 0
    ensures -TWO_POW_31 <= x < TWO_POW_31 ==> r == x
  {
    var low := x % TWO_POW_32;
    if low < TWO_POW_31 then low else low - TWO_POW_32
  }

}
