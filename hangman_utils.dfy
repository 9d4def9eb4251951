/** Sign extension of ADC words shared by the newer firmware revision (hangman_utils/src/lib.rs). */
module HangmanUtils {
  import opened Ints
  import opened Bits

  /**
   * `convert_signed_to_i32::<BITS>`: reads the low `bits` bits of `input` as a two's complement
   * number. The source asserts that `input` fits in `bits` bits and panics otherwise; its shifts
   * `1 << BITS` and `BITS - 1` only make sense for 1 <= BITS < 32.
   */
  function ConvertSignedToI32(bits: nat, input: u32): (r: i32)
    requires 1 <= bits < 32
    requires input < Pow2(bits)
    ensures (r < 0) == Bit(input, bits - 1)
    ensures !Bit(input, bits - 1) ==> r == input
    ensures Bit(input, bits - 1) ==> r == input - Pow2(bits)
    ensures -Pow2(bits - 1) <= r < Pow2(bits - 1)
  {
    SignFill(bits, input);
    TopBit(input, bits);
    var extended :=
      if And(input, Pow2(bits - 1)) != 0 then Or(input, And(U32_MAX, Not32(Pow2(bits) - 1)))
      else input;
    U32AsI32(extended)
  }

  /** Sign extension undoes two's complement encoding ... */
  lemma {:induction false} DecodeEncode(bits: nat, v: int)
    requires 1 <= bits < 32
    requires -Pow2(bits - 1) <= v < Pow2(bits - 1)
    ensures ToUnsigned(bits, v) < U32_LIMIT
    ensures ConvertSignedToI32(bits, ToUnsigned(bits, v)) == v
  {
    Pow2Mono(bits, 31);
    Pow2Values();
    TopBit(ToUnsigned(bits, v), bits);
  }

  /** ... and two's complement encoding of its result gives the input back. */
  lemma {:induction false} EncodeDecode(bits: nat, input: u32)
    requires 1 <= bits < 32
    requires input < Pow2(bits)
    ensures ToUnsigned(bits, ConvertSignedToI32(bits, input)) == input
  {
    TopBit(input, bits);
  }

  lemma Bits20Vectors()
    ensures Pow2(20) == 0x10_0000
    ensures ConvertSignedToI32(20, 0x00000) == 0
    ensures ConvertSignedToI32(20, 0x00001) == 1
    ensures ConvertSignedToI32(20, 0x00002) == 2
    ensures ConvertSignedToI32(20, 0x7FFFE) == 524286
    ensures ConvertSignedToI32(20, 0x7FFFF) == 524287
    ensures ConvertSignedToI32(20, 0x80000) == -524288
    ensures ConvertSignedToI32(20, 0x80001) == -524287
    ensures ConvertSignedToI32(20, 0xFFFFF) == -1
    ensures ConvertSignedToI32(20, 0xFFFFE) == -2
  {
    Pow2Values();
  }

  lemma Bits24Vectors()
    ensures Pow2(24) == 0x100_0000
    ensures ConvertSignedToI32(24, 0x000000) == 0
    ensures ConvertSignedToI32(24, 0x000001) == 1
    ensures ConvertSignedToI32(24, 0x000002) == 2
    ensures ConvertSignedToI32(24, 0x7FFFFE) == 8388606
    ensures ConvertSignedToI32(24, 0x7FFFFF) == 8388607
    ensures ConvertSignedToI32(24, 0x800000) == -8388608
    ensures ConvertSignedToI32(24, 0x800001) == -8388607
    ensures ConvertSignedToI32(24, 0xFFFFFF) == -1
    ensures ConvertSignedToI32(24, 0xFFFFFE) == -2
  {
    Pow2Values();
  }
}
