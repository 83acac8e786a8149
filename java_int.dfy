/** Java's 32-bit `int`: the range of its values and the wrap-around of its
    arithmetic. */
module JavaInt {
  const IntMin := -0x8000_0000
  const IntMax := 0x7fff_ffff

  /** A value of a Java `int` variable or field. */
  type Int32 = x: int | -0x8000_0000 <= x < 0x8000_0000

  /** The result of an `int` addition, subtraction or multiplication whose
      exact value is `x`: `x` brought into [-2^31, 2^31) modulo 2^32. */
  function Int32Wrap(x: int): (r: Int32)
    ensures (r - x) % 0x1_0000_0000 == 0
    ensures IntMin <= x <= IntMax ==> r == x
    ensures IntMax < x < IntMax + 0x1_0000_0000 ==> r == x - 0x1_0000_0000
    ensures IntMin - 0x1_0000_0000 <= x < IntMin ==> r == x + 0x1_0000_0000
  {
    (x + 0x8000_0000) % 0x1_0000_0000 - 0x8000_0000
  }
}
