/**
 * The HX711 driver of the weight subsystem (src/weight/hx711.rs): a two-state power machine,
 * timestamped 24-bit reads, and a bounded retry that skips the spurious -1 readings the chip
 * sometimes produces.
 */
module WeightHx711 {
  import opened Ints
  import opened Bits
  import opened Wrappers
  import opened ShiftIn
  import Weight
  import Retry

  datatype PowerState = Off | On

  /** `convert_i24_to_i32`: sign extension of bit 23. */
  function ConvertI24ToI32(input: u32): (r: i32)
    ensures input < 0x100_0000 ==> (r < 0) == Bit(input, 23)
    ensures input < 0x100_0000 ==> r == I24Value(input)
  {
    Pow2Values();
    I24SignFill(input);
    var extended := if And(input, Pow2(23)) != 0 then Or(input, 0xFF00_0000) else input;
    U32AsI32(extended)
  }

  lemma I24SignFill(input: u32)
    ensures Or(input, 0xFF00_0000) < U32_LIMIT
    ensures input < Pow2(24) ==> (And(input, Pow2(23)) != 0) == (input >= Pow2(23)) == Bit(input, 23)
    ensures input < Pow2(24) ==> Or(input, 0xFF00_0000) == input + 0xFF00_0000
  {
    Pow2Values();
    OrBound(input, 0xFF00_0000, 32);
    if input < Pow2(24) {
      SignFill(24, input);
      TopBit(input, 24);
    }
  }

  lemma ConvertVectors()
    ensures ConvertI24ToI32(0x000000) == 0
    ensures ConvertI24ToI32(0x000001) == 1
    ensures ConvertI24ToI32(0x000002) == 2
    ensures ConvertI24ToI32(0x7FFFFE) == 8388606
    ensures ConvertI24ToI32(0x7FFFFF) == 8388607
    ensures ConvertI24ToI32(0x800000) == -8388608
    ensures ConvertI24ToI32(0x800001) == -8388607
    ensures ConvertI24ToI32(0xFFFFFF) == -1
    ensures ConvertI24ToI32(0xFFFFFE) == -2
  {
    Pow2Values();
  }

  /** The value of one conversion read starting at data-line sample `start`. */
  function Reading(dout: nat -> bool, start: nat): (r: i32)
    ensures -0x80_0000 <= r < 0x80_0000
  {
    WordBound(dout, start, 24);
    Pow2Values();
    I24Value(Word(dout, start, 24))
  }

  /** The readings of successive attempts of a measurement whose first read starts at sample `start`. */
  function Attempts(dout: nat -> bool, start: nat): nat -> int {
    (k: nat) => Reading(dout, start + 24 * k)
  }

  /** Attempt n of a measurement sign-extends the 24 levels sampled from start + 24 * n on. */
  lemma AttemptDecodes(dout: nat -> bool, start: nat, n: nat)
    ensures Word(dout, start + 24 * n, 24) < 0x100_0000
    ensures Attempts(dout, start)(n) == I24Value(Word(dout, start + 24 * n, 24))
  {
    WordBound(dout, start + 24 * n, 24);
    Pow2Values();
  }

  class Hx711 {
    const pins: Pins
    /** `readyAt(k)`: the Instant right after the data line went low for the k-th time. */
    const readyAt: nat -> nat
    /** Conversions waited for so far. */
    var conversions: nat
    var state: PowerState

    /** `new`: the clock is driven high, which holds the chip powered down. */
    constructor (pins: Pins, readyAt: nat -> nat)
      modifies pins
      ensures this.pins == pins && this.readyAt == readyAt
      ensures state == Off && conversions == 0 && !IsPowered()
      ensures pins.clockHigh && pins.cursor == old(pins.cursor) && pins.pulses == old(pins.pulses)
    {
      this.pins := pins;
      this.readyAt := readyAt;
      conversions := 0;
      state := Off;
      new;
      pins.SetClock(true);
    }

    /** `is_powered`: the power state is On, which only `power_up` sets. */
    function IsPowered(): (r: bool)
      reads this
      ensures r <==> state == On
    {
      state == On
    }

    method PowerDown()
      modifies this, pins
      ensures !IsPowered() && pins.clockHigh && conversions == old(conversions)
      ensures pins.cursor == old(pins.cursor) && pins.pulses == old(pins.pulses)
    {
      pins.SetClock(true);
      state := Off;
    }

    /** `power_up`: clock low, then (after the settling delay) On. */
    method PowerUp()
      modifies this, pins
      ensures IsPowered() && !pins.clockHigh && conversions == old(conversions)
      ensures pins.cursor == old(pins.cursor) && pins.pulses == old(pins.pulses)
    {
      pins.SetClock(false);
      state := On;
    }

    /**
     * One attempt of `take_measurement`: wait for the conversion, stamp it, clock in 24 bits
     * and one more pulse, and sign-extend. The attempt is the n-th of a measurement whose
     * first read started at sample c0.
     */
    method ReadConversion(ghost c0: nat, ghost n: nat) returns (timestamp: nat, value: i32)
      requires pins.cursor == c0 + 24 * n
      modifies this, pins
      ensures timestamp == readyAt(old(conversions)) && value == Attempts(pins.dout, c0)(n)
      ensures conversions == old(conversions) + 1 && state == old(state)
      ensures pins.cursor == old(pins.cursor) + 24 && pins.pulses == old(pins.pulses) + 25
      ensures !pins.clockHigh
    {
      timestamp := readyAt(conversions);
      conversions := conversions + 1;
      var raw := pins.ShiftInBits(24);
      pins.ClockPulses(1);
      AttemptDecodes(pins.dout, c0, n);
      value := ConvertI24ToI32(raw);
    }

    /**
     * `take_measurement`: nothing when powered down. Otherwise each attempt waits for a
     * conversion, stamps it, clocks in 24 bits and one more pulse; a -1 is skipped up to
     * MAX_SKIPS times.
     */
    method TakeMeasurement() returns (r: Option<Weight.Sample<i32>>)
      modifies this, pins
      ensures r.None? <==> old(state) == Off
      ensures r.None? ==> conversions == old(conversions)
      ensures r.None? ==> pins.cursor == old(pins.cursor) && pins.pulses == old(pins.pulses)
      ensures r.None? ==> pins.clockHigh == old(pins.clockHigh)
      ensures r.Some? ==>
        var j := Retry.Skips(Attempts(pins.dout, old(pins.cursor)), 0);
        && r.value == Weight.Sample(readyAt(old(conversions) + j), Attempts(pins.dout, old(pins.cursor))(j))
        && conversions == old(conversions) + j + 1
        && pins.cursor == old(pins.cursor) + 24 * (j + 1)
        && pins.pulses == old(pins.pulses) + 25 * (j + 1)
        && !pins.clockHigh
      ensures state == old(state)
    {
      if state == Off {
        return None;
      }
      ghost var c0, k0, p0 := pins.cursor, conversions, pins.pulses;
      var nSkips: nat := 0;
      while true
        invariant nSkips <= Retry.MAX_SKIPS
        invariant pins.cursor == c0 + 24 * nSkips && conversions == k0 + nSkips
        invariant pins.pulses == p0 + 25 * nSkips
        invariant forall k :: 0 <= k < nSkips ==> Attempts(pins.dout, c0)(k) == -1
        invariant state == On
        decreases Retry.MAX_SKIPS - nSkips
      {
        var timestamp, value := ReadConversion(c0, nSkips);
        if value == -1 && nSkips < Retry.MAX_SKIPS {
          nSkips := nSkips + 1;
        } else {
          Retry.SkipsStops(Attempts(pins.dout, c0), nSkips, 0);
          return Some(Weight.Sample(timestamp, value));
        }
      }
    }

    /** `sample`: powers the chip up if needed, after which a measurement always succeeds. */
    method Sample() returns (s: Weight.Sample<i32>)
      modifies this, pins
      ensures state == On
      ensures
        var j := Retry.Skips(Attempts(pins.dout, old(pins.cursor)), 0);
        && s == Weight.Sample(readyAt(old(conversions) + j), Attempts(pins.dout, old(pins.cursor))(j))
        && conversions == old(conversions) + j + 1
        && pins.cursor == old(pins.cursor) + 24 * (j + 1)
        && pins.pulses == old(pins.pulses) + 25 * (j + 1)
        && !pins.clockHigh
    {
      if !IsPowered() {
        PowerUp();
      }
      assert state == On;
      var r := TakeMeasurement();
      assert r.Some?;
      s := r.value;
    }
  }
}
