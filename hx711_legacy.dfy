/**
 * The first HX711 driver (src/hx711.rs): a two-state power machine over a clock output, and a
 * read of one 24-bit conversion with no retry.
 */
module Hx711Legacy {
  import opened Ints
  import opened Bits
  import opened Wrappers
  import opened ShiftIn

  datatype PowerState = Off | On

  /** `convert_i24_to_i32`: sign extension of bit 23, without the range check of the later helper. */
  function ConvertI24ToI32(input: u32): (r: i32)
    ensures input < 0x100_0000 ==> (r < 0) == Bit(input, 23)
    ensures input < 0x100_0000 ==> r == I24Value(input)
  {
    Pow2Values();
    I24SignFill(input);
    var extended := if And(input, Pow2(23)) != 0 then Or(input, 0xFF00_0000) else input;
    U32AsI32(extended)
  }

  /** The pieces of `convert_i24_to_i32`: the OR stays in 32 bits, and below 2^24 it adds 0xFF000000. */
  lemma I24SignFill(input: u32)
    ensures Or(input, 0xFF00_0000) < U32_LIMIT
    ensures input < Pow2(24) ==> (And(input, Pow2(23)) != 0) == (input >= Pow2(23)) == Bit(input, 23)
    ensures input < Pow2(24) ==> Or(input, 0xFF00_0000) == input + 0xFF00_0000
  {
    Pow2Values();
    OrBound(input, 0xFF00_0000, 32);
    if input < Pow2(24) {
      SignFill(24, input);
      TopBit(input, 24);
    }
  }

  lemma ConvertVectors()
    ensures ConvertI24ToI32(0x000000) == 0
    ensures ConvertI24ToI32(0x000001) == 1
    ensures ConvertI24ToI32(0x000002) == 2
    ensures ConvertI24ToI32(0x7FFFFE) == 8388606
    ensures ConvertI24ToI32(0x7FFFFF) == 8388607
    ensures ConvertI24ToI32(0x800000) == -8388608
    ensures ConvertI24ToI32(0x800001) == -8388607
    ensures ConvertI24ToI32(0xFFFFFF) == -1
    ensures ConvertI24ToI32(0xFFFFFE) == -2
  {
    Pow2Values();
  }

  /** The reading a conversion read starting at data-line sample `start` returns. */
  function Reading(dout: nat -> bool, start: nat): (r: i32)
    ensures -0x80_0000 <= r < 0x80_0000
  {
    ReadingDecodes(dout, start);
    I24Value(Word(dout, start, 24))
  }

  /** The 24 levels a read samples spell a word below 2^24, which the reading sign-extends. */
  lemma ReadingDecodes(dout: nat -> bool, start: nat)
    ensures Word(dout, start, 24) < 0x100_0000
  {
    WordBound(dout, start, 24);
    Pow2Values();
  }

  class Hx711 {
    const pins: Pins
    var state: PowerState

    /** `new`: the clock is driven high, which holds the chip powered down. */
    constructor (pins: Pins)
      modifies pins
      ensures this.pins == pins && state == Off && !IsPowered()
      ensures pins.clockHigh && pins.cursor == old(pins.cursor) && pins.pulses == old(pins.pulses)
    {
      this.pins := pins;
      state := Off;
      new;
      pins.SetClock(true);
    }

    /** `is_powered`: the power state is On, which only `power_up` sets. */
    function IsPowered(): (r: bool)
      reads this
      ensures r <==> state == On
    {
      state == On
    }

    method PowerDown()
      modifies this, pins
      ensures !IsPowered() && pins.clockHigh
      ensures pins.cursor == old(pins.cursor) && pins.pulses == old(pins.pulses)
    {
      pins.SetClock(true);
      state := Off;
    }

    method PowerUp()
      modifies this, pins
      ensures IsPowered() && !pins.clockHigh
      ensures pins.cursor == old(pins.cursor) && pins.pulses == old(pins.pulses)
    {
      pins.SetClock(false);
      state := On;
    }

    /**
     * `take_measurement`: nothing when powered down; otherwise 24 data pulses, one more pulse
     * (which keeps channel A at gain 128), and the sign-extended word.
     */
    method TakeMeasurement() returns (r: Option<i32>)
      modifies pins
      ensures r.None? <==> old(state) == Off
      ensures r.None? ==>
        pins.cursor == old(pins.cursor) && pins.pulses == old(pins.pulses) && pins.clockHigh == old(pins.clockHigh)
      ensures r.Some? ==> r.value == Reading(pins.dout, old(pins.cursor))
      ensures r.Some? ==>
        pins.cursor == old(pins.cursor) + 24 && pins.pulses == old(pins.pulses) + 25 && !pins.clockHigh
    {
      if state == Off {
        return None;
      }
      ghost var c0 := pins.cursor;
      var raw := pins.ShiftInBits(24);
      pins.ClockPulses(1);
      ReadingDecodes(pins.dout, c0);
      r := Some(ConvertI24ToI32(raw));
    }
  }

  /** Bit i of the raw word is the level of data-line sample 23 - i of the read, and the word is below 2^24. */
  lemma RawWordBits(dout: nat -> bool, start: nat, i: nat)
    requires i < 24
    ensures Word(dout, start, 24) < Pow2(24)
    ensures Bit(Word(dout, start, 24), i) == dout(start + 23 - i)
  {
    WordBound(dout, start, 24);
    WordBit(dout, start, 24, i);
  }
}
