/** The .NET numeric types the models carry, with their exact ranges. */
module Numerics {

  const TwoTo32: int := 0x1_0000_0000
  const TwoTo64: int := 0x1_0000_0000_0000_0000

  /** `System.Int64` (`long`). */
  newtype int64 = x: int | -0x8000_0000_0000_0000 <= x < 0x8000_0000_0000_0000

  /** `System.Int32` (`int`). */
  newtype int32 = x: int | -0x8000_0000 <= x < 0x8000_0000

  /** A `System.Double`, kept as its IEEE 754 bit pattern: the models only copy
      prices, so no floating-point arithmetic is needed. `0.0` is all zero bits. */
  datatype Double = Double(bits: bv64)

  const DoubleZero := Double(0)

  /** Reinterprets 32 bits as a two's-complement `int` (an unchecked cast). */
  function AsInt32(b: bv32): (n: int32)
    ensures 0 <= n as int < 0x8000_0000 ==> n as int == b as int
    ensures n < 0 ==> n as int == b as int - TwoTo32
  {
    var u := b as int;
    if u < 0x8000_0000 then u as int32 else (u - TwoTo32) as int32
  }

  /** `long.GetHashCode()`: the low 32 bits of the value XOR its high 32 bits,
      read back as a signed `int`. */
  function Int64HashCode(x: int64): (h: int32)
    ensures x == 0 ==> h == 0
  {
    var u := if x < 0 then x as int + TwoTo64 else x as int;
    assert 0 <= u < TwoTo64;
    var low := (u % TwoTo32) as bv32;
    var high := (u / TwoTo32) as bv32;
    AsInt32(low ^ high)
  }

  /** Distinct non-zero values may share a hash code: 2^32 + 1 hashes to 0, like 0
      itself. */
  lemma HashCodeZeroForPositiveValue()
    ensures Int64HashCode(0x1_0000_0001) == 0
  {
    var u := 0x1_0000_0001;
    assert u % TwoTo32 == 1 && u / TwoTo32 == 1;
    assert (1 as bv32) ^ (1 as bv32) == 0;
  }

  /** So does -1, whose two's complement is all ones in both halves. */
  lemma HashCodeZeroForMinusOne()
    ensures Int64HashCode(-1) == 0
  {
    var u := TwoTo64 - 1;
    assert u % TwoTo32 == 0xFFFF_FFFF && u / TwoTo32 == 0xFFFF_FFFF;
    assert (0xFFFF_FFFF as bv32) ^ (0xFFFF_FFFF as bv32) == 0;
  }
}
