/** The fixed-width unsigned integers of m68hc11x.h, as bounded subsets of int. */
module Widths {

  const U8_LIMIT: nat := 0x100
  const U16_LIMIT: nat := 0x1_0000
  const U32_LIMIT: nat := 0x1_0000_0000

  type u8 = x: int | 0 <= x < 0x100
  type u16 = x: int | 0 <= x < 0x1_0000
  type u32 = x: int | 0 <= x < 0x1_0000_0000

  /** Conversion to u16 (C++ truncation: keep the low 16 bits). */
  function ToU16(x: nat): u16
  {
    x % U16_LIMIT
  }

  /** Conversion to u8, as when a u16 is stored into a std::vector<u8>. */
  function LowByte(v: u16): u8
  {
    v % U8_LIMIT
  }

  /** The byte `value >> 8` of a u16. */
  function HighByte(v: u16): u8
  {
    v / U8_LIMIT
  }

  /** Wrap-around addition on u32. */
  function AddU32(a: u32, b: nat): u32
  {
    (a + b) % U32_LIMIT
  }

  /** Adding nothing leaves an offset unchanged. */
  lemma AddU32Zero(a: u32)
    ensures AddU32(a, 0) == a
  {
  }

  /** Rebuilding a u16 from its high and low byte gives it back. */
  lemma BigEndianRoundTrip(v: u16)
    ensures HighByte(v) * U8_LIMIT + LowByte(v) == v
  {
  }
}
