/** Java's 32-bit signed `int`, and the reading of an unsigned hexadecimal
    literal such as `0xFF0F0F0F` as that type (two's complement). */
module Int32 {

  const Modulus: int := 0x1_0000_0000

  /** A value of Java type `int`. */
  newtype int32 = x: int | -0x8000_0000 <= x < 0x8000_0000

  /** The `int` whose 32-bit pattern is the unsigned number `u`: Java gives a
      hexadecimal `int` literal above 0x7FFFFFFF this value, so it is negative. */
  function FromUnsigned(u: int): (r: int32)
    requires 0 <= u < Modulus
    ensures (r as int) % Modulus == u
    ensures r < 0 <==> u >= 0x8000_0000
  {
    if u < 0x8000_0000 then u as int32 else (u - Modulus) as int32
  }
}
