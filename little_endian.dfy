/**
 * Little-endian packing of register values into the byte buffers of a bus access.
 * Rust's `u8`, `u16` and `u32` are the bit-vector types `bv8`, `bv16` and `bv32`;
 * a truncating `x as u8` is written out as `Low8`.
 */
module LittleEndian {

  /** `x as u8`: keeps the low eight bits. */
  function Low8(x: bv32): (b: bv8)
    ensures b as bv32 == x % 256
  {
    (x & 0xFF) as bv8
  }

  /** `u16::from(b0) | u16::from(b1) << 8`. */
  function Le16Value(b0: bv8, b1: bv8): (v: bv16)
    ensures v == b0 as bv16 + 256 * b1 as bv16
  {
    (b0 as bv16) | ((b1 as bv16) << 8)
  }

  /** `[val as u8, (val >> 8) as u8]`. */
  function Le16Bytes(v: bv16): (b: seq<bv8>)
    ensures |b| == 2
    ensures b[0] as bv16 + 256 * b[1] as bv16 == v
  {
    [Low8(v as bv32), Low8((v >> 8) as bv32)]
  }

  /** `u32::from(b[0]) | u32::from(b[1]) << 8 | u32::from(b[2]) << 16 | u32::from(b[3]) << 24`. */
  function Le32Value(b: seq<bv8>): (v: bv32)
    requires |b| == 4
    ensures v == b[0] as bv32 + 0x100 * b[1] as bv32 + 0x1_0000 * b[2] as bv32 + 0x100_0000 * b[3] as bv32
  {
    (b[0] as bv32) | ((b[1] as bv32) << 8) | ((b[2] as bv32) << 16) | ((b[3] as bv32) << 24)
  }

  /** `[val as u8, (val >> 8) as u8, (val >> 16) as u8, (val >> 24) as u8]`. */
  function Le32Bytes(v: bv32): (b: seq<bv8>)
    ensures |b| == 4
    ensures b[0] as bv32 + 0x100 * b[1] as bv32 + 0x1_0000 * b[2] as bv32 + 0x100_0000 * b[3] as bv32 == v
  {
    [Low8(v), Low8(v >> 8), Low8(v >> 16), Low8(v >> 24)]
  }

  lemma Le16ValueOfBytes(v: bv16)
    ensures Le16Value(Le16Bytes(v)[0], Le16Bytes(v)[1]) == v
  {
  }

  lemma Le16BytesOfValue(b0: bv8, b1: bv8)
    ensures Le16Bytes(Le16Value(b0, b1)) == [b0, b1]
  {
  }

  lemma Le32ValueOfBytes(v: bv32)
    ensures Le32Value(Le32Bytes(v)) == v
  {
  }

  lemma Le32BytesOfValue(b: seq<bv8>)
    requires |b| == 4
    ensures Le32Bytes(Le32Value(b)) == b
  {
  }
}
