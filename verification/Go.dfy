/** The fixed-width integers and the optional values of the Go sources. */
module Go {

  datatype Option<+T> = None | Some(value: T)

  const TWO_31 := 0x8000_0000
  const TWO_32 := 0x1_0000_0000
  const TWO_63 := 0x8000_0000_0000_0000
  const TWO_64 := 0x1_0000_0000_0000_0000

  type int32 = n: int | -0x8000_0000 <= n < 0x8000_0000
  type int64 = n: int | -0x8000_0000_0000_0000 <= n < 0x8000_0000_0000_0000

  /** Two's complement truncation to 32 bits: the identity on every value that fits. */
  function Int32(n: int): (r: int32)
    ensures -TWO_31 <= n < TWO_31 ==> r == n
    ensures (n - r) % TWO_32 == 0
  {
    (n + TWO_31) % TWO_32 - TWO_31
  }

  /** Two's complement truncation to 64 bits: the identity on every value that fits. */
  function Int64(n: int): (r: int64)
    ensures -TWO_63 <= n < TWO_63 ==> r == n
    ensures (n - r) % TWO_64 == 0
  {
    (n + TWO_63) % TWO_64 - TWO_63
  }

  function Max(a: int, b: int): (m: int)
    ensures m >= a && m >= b && (m == a || m == b)
  {
    if a < b then b else a
  }
}
