/**
 * `f32` values. Arithmetic on them is modelled with `real`; a stored or transmitted f32 is
 * its four little-endian bytes, which the model never looks inside.
 */
module Float32 {
  import opened Ints

  /** An f32 as the four bytes `f32::to_le_bytes` gives. */
  type F32 = s: seq<byte> | |s| == 4 witness [0, 0, 0, 0]

  /**
   * The meaning of f32 bit patterns: `value` reads a pattern as a number and `round` gives the
   * pattern the firmware stores for a computed number (IEEE-754 is not modelled).
   */
  datatype Codec = Codec(value: F32 -> real, round: real -> F32)
}
