/** Bytes, and the little-endian 32-bit reads of packed binary headers. */
module Bytes {

  type Byte = b: int | 0 <= b < 0x100

  const UINT32_LIMIT: int := 0x1_0000_0000

  /** The `unsigned int` stored little-endian at `buf[off..off + 4]`. */
  function U32LE(buf: seq<Byte>, off: nat): (v: int)
    requires off + 4 <= |buf|
    ensures 0 <= v < UINT32_LIMIT
    ensures v % 0x100 == buf[off] && v / 0x100_0000 == buf[off + 3]
  {
    var b0: int := buf[off];
    var b1: int := buf[off + 1];
    var b2: int := buf[off + 2];
    var b3: int := buf[off + 3];
    b0 + 0x100 * b1 + 0x1_0000 * b2 + 0x100_0000 * b3
  }

  /** An `unsigned int` stored into an `int` field: values from 2^31 up become negative. */
  function ToInt32(u: int): (r: int)
    requires 0 <= u < UINT32_LIMIT
    ensures -0x8000_0000 <= r < 0x8000_0000
    ensures r % UINT32_LIMIT == u
  {
    if u < 0x8000_0000 then u else u - UINT32_LIMIT
  }

  /** An `int` converted to `uint32_t`: its value modulo 2^32. */
  function ToUint32(i: int): (u: int)
    ensures 0 <= u < UINT32_LIMIT
    ensures (u - i) % UINT32_LIMIT == 0
  {
    i % UINT32_LIMIT
  }

  /** An `int` in the 32-bit signed range survives the round trip through `uint32_t`. */
  lemma Int32RoundTrip(i: int)
    requires -0x8000_0000 <= i < 0x8000_0000
    ensures ToInt32(ToUint32(i)) == i
  {
  }
}
