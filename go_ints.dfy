/**
 * Go's fixed-width integer types. Dafny integers are unbounded, so the widths and the
 * wrap-around of Go's unsigned and two's-complement arithmetic are written out here.
 */
module GoInts {
  const MaxUint32: nat := 0xFFFF_FFFF
  const TwoTo64: nat := 0x1_0000_0000_0000_0000
  const TwoTo63: int := 0x8000_0000_0000_0000

  type byte = n: int | 0 <= n < 0x100
  type uint32 = n: int | 0 <= n <= 0xFFFF_FFFF
  type uint64 = n: int | 0 <= n < 0x1_0000_0000_0000_0000
  type int64 = n: int | -0x8000_0000_0000_0000 <= n < 0x8000_0000_0000_0000

  /** Go's `uint64` addition: the result is taken modulo 2^64. */
  function AddUint64(a: uint64, b: uint64): (r: uint64)
    ensures a + b < TwoTo64 ==> r == a + b
    ensures a + b >= TwoTo64 ==> r == a + b - TwoTo64
  {
    (a + b) % TwoTo64
  }

  /**
   * Go's `int64` increment: the `int64` congruent to `a + 1` modulo 2^64, so `math.MaxInt64 + 1`
   * wraps to `math.MinInt64`.
   */
  function IncInt64(a: int64): (r: int64)
    ensures (r - (a + 1)) % TwoTo64 == 0
  {
    if a == TwoTo63 - 1 then -TwoTo63 else a + 1
  }

  /** Go's `int64` addition: the `int64` congruent to the exact sum modulo 2^64. */
  function AddInt64(a: int64, b: int64): (r: int64)
    ensures (r - (a + b)) % TwoTo64 == 0
  {
    if a + b >= TwoTo63 then a + b - TwoTo64 else if a + b < -TwoTo63 then a + b + TwoTo64 else a + b
  }

  /** Go's `byte` addition, used when a length byte is added to a small offset. */
  function AddByte(a: byte, b: byte): (r: byte)
    ensures r == (a + b) % 0x100
    ensures a + b < 0x100 ==> r == a + b
  {
    if a + b < 0x100 then a + b else a + b - 0x100
  }
}
