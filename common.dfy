/** Types shared by every module of the shopme model. */
module Common {

  /** Java's `null`-or-value, and `Optional<T>`. */
  datatype Option<+T> = None | Some(value: T)

  /** A `java.util.UUID`: 128 bits, of which only equality matters here. */
  type Uuid = x: nat | x < 0x1_0000_0000_0000_0000_0000_0000_0000_0000

  /** A Java `int`. */
  type Int32 = x: int | -0x8000_0000 <= x < 0x8000_0000

  /** A Java `long` (milliseconds since the epoch, for dates). */
  type Int64 = x: int | -0x8000_0000_0000_0000 <= x < 0x8000_0000_0000_0000

  /** Java `int` arithmetic: the mathematical result reduced into the 32-bit range. */
  function Wrap32(x: int): (r: Int32)
    ensures -0x8000_0000 <= x < 0x8000_0000 ==> r == x
    ensures (r - x) % 0x1_0000_0000 == 0
  {
    var m := (x + 0x8000_0000) % 0x1_0000_0000;
    m - 0x8000_0000
  }

  /** Java `long` arithmetic: the mathematical result reduced into the 64-bit range. */
  function Wrap64(x: int): (r: Int64)
    ensures -0x8000_0000_0000_0000 <= x < 0x8000_0000_0000_0000 ==> r == x
    ensures (r - x) % 0x1_0000_0000_0000_0000 == 0
  {
    var m := (x + 0x8000_0000_0000_0000) % 0x1_0000_0000_0000_0000;
    m - 0x8000_0000_0000_0000
  }
}
