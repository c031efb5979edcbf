/** Fixed-width integers of the Windows/C data model and the C casts between them.

    Dafny's integers are unbounded, so every C cast that can drop bits is
    written out here: an unsigned cast keeps the low bits (a Euclidean `%`,
    which is exactly two's-complement truncation, also for negative values);
    a signed cast keeps the low bits and reads the top one as the sign. */
module WinTypes {

  datatype Option<+T> = None | Some(value: T)

  const TWO_15: int := 0x8000
  const TWO_16: int := 0x1_0000
  const TWO_31: int := 0x8000_0000
  const TWO_32: int := 0x1_0000_0000

  type uint16 = x: int | 0 <= x < 0x1_0000            // USHORT
  type uint32 = x: int | 0 <= x < 0x1_0000_0000       // ULONG, DWORD
  type uint64 = x: int | 0 <= x < 0x1_0000_0000_0000_0000  // SIZE_T, ULONGLONG
  type int16 = x: int | -0x8000 <= x < 0x8000         // SHORT
  type int32 = x: int | -0x8000_0000 <= x < 0x8000_0000  // LONG
  type int64 = x: int | -0x8000_0000_0000_0000 <= x < 0x8000_0000_0000_0000  // LONGLONG

  /** `(USHORT)x` */
  function ToUint16(x: int): (r: uint16)
    ensures (r - x) % TWO_16 == 0
    ensures 0 <= x < TWO_16 ==> r == x
  {
    x % TWO_16
  }

  /** `(ULONG)x`, also the `LowPart` of a LARGE_INTEGER */
  function ToUint32(x: int): (r: uint32)
    ensures (r - x) % TWO_32 == 0
    ensures 0 <= x < TWO_32 ==> r == x
  {
    x % TWO_32
  }

  /** `(SHORT)x` */
  function ToInt16(x: int): (r: int16)
    ensures (r - x) % TWO_16 == 0
    ensures -TWO_15 <= x < TWO_15 ==> r == x
  {
    var m := x % TWO_16;
    if m < TWO_15 then m else m - TWO_16
  }

  /** `(LONG)x` */
  function ToInt32(x: int): (r: int32)
    ensures (r - x) % TWO_32 == 0
    ensures -TWO_31 <= x < TWO_31 ==> r == x
  {
    var m := x % TWO_32;
    if m < TWO_31 then m else m - TWO_32
  }
}
