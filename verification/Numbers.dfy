/** Numbers that several modules share. */
module Numbers {
  type byte = x: int | 0 <= x < 256

  /** The larger of two integers. */
  function Max(a: int, b: int): (m: int)
    ensures m >= a && m >= b && (m == a || m == b)
  {
    if a > b then a else b
  }
}
