/**
 * The ADS1230 driver of the weight subsystem (src/weight/ads1230.rs): a two-state power machine
 * that also switches the analog supply, timestamped 20-bit reads followed by a number of extra
 * clock pulses that selects what the chip does next, and the same bounded -1 retry as the HX711.
 */
module WeightAds1230 {
  import opened Ints
  import opened Wrappers
  import opened Bits
  import opened ShiftIn
  import Util
  import Weight
  import Retry

  datatype PowerState = Off | On

  /** What the extra pulses after a reading ask the chip to do. */
  datatype Followup = NoFollowup | OffsetCalibration | StandbyAndOffsetCalibration

  /** The number of clock pulses sent after the 20 data pulses. */
  function FollowupPulses(action: Followup): nat {
    match action
    case NoFollowup => 1
    case OffsetCalibration => 6
    case StandbyAndOffsetCalibration => 5
  }

  /** Clock pulses sent by `n` attempts that each read 20 bits and then send the follow-up pulses. */
  function AttemptPulses(action: Followup, n: nat): nat {
    if n == 0 then 0 else AttemptPulses(action, n - 1) + 20 + FollowupPulses(action)
  }

  lemma {:induction false} AttemptPulsesProduct(action: Followup, n: nat)
    ensures AttemptPulses(action, n) == (20 + FollowupPulses(action)) * n
  {
    if n > 0 {
      AttemptPulsesProduct(action, n - 1);
    }
  }

  /**
   * `convert_signed_to_i32::<20>` on a word the chip delivered, stated by its value: below
   * 2^19 it is unchanged, otherwise 2^20 is subtracted (DecodeIsConvert shows that this is the
   * shared sign-extension helper at width 20).
   */
  function Decode(raw: u32): (r: i32)
    requires raw < 0x10_0000
    ensures -0x8_0000 <= r < 0x8_0000
    ensures (r < 0) == (raw >= 0x8_0000)
  {
    if raw < 0x8_0000 then raw else raw - 0x10_0000
  }

  lemma DecodeIsConvert(raw: u32)
    requires raw < 0x10_0000
    ensures Pow2(20) == 0x10_0000
    ensures Decode(raw) == Util.ConvertSignedToI32(20, raw)
  {
    Pow2Values();
  }

  /** The value of one conversion read starting at data-line sample `start`. */
  function Reading(dout: nat -> bool, start: nat): i32 {
    Pow2Values();
    WordBound(dout, start, 20);
    Decode(Word(dout, start, 20))
  }

  /** The readings of successive attempts of a measurement whose first read starts at sample `start`. */
  function Attempts(dout: nat -> bool, start: nat): nat -> int {
    (k: nat) => Reading(dout, start + 20 * k)
  }

  /** Attempt n of a measurement decodes the 20 levels sampled from start + 20 * n on. */
  lemma AttemptDecodes(dout: nat -> bool, start: nat, n: nat)
    ensures Word(dout, start + 20 * n, 20) < 0x10_0000
    ensures Attempts(dout, start)(n) == Decode(Word(dout, start + 20 * n, 20))
  {
    Pow2Values();
    WordBound(dout, start + 20 * n, 20);
  }

  class Ads1230 {
    const pins: Pins
    /** `readyAt(k)`: the Instant right after the data line went low for the k-th time. */
    const readyAt: nat -> nat
    var conversions: nat
    /** The level of the `vdda_on` pin; high switches the analog supply off. */
    var vddaHigh: bool
    var state: PowerState

    /** `new`: the clock is driven high; the analog-supply pin keeps the level it was given with. */
    constructor (pins: Pins, vddaOn: bool, readyAt: nat -> nat)
      modifies pins
      ensures this.pins == pins && this.readyAt == readyAt && vddaHigh == vddaOn
      ensures state == Off && conversions == 0 && !IsPowered()
      ensures pins.clockHigh && pins.cursor == old(pins.cursor) && pins.pulses == old(pins.pulses)
    {
      this.pins := pins;
      this.readyAt := readyAt;
      vddaHigh := vddaOn;
      conversions := 0;
      state := Off;
      new;
      pins.SetClock(true);
    }

    /** `is_powered`: the power state is On, which only `power_up` sets. */
    function IsPowered(): (r: bool)
      reads this
      ensures r <==> state == On
    {
      state == On
    }

    /** `power_down`: clock high, analog supply off, Off. */
    method PowerDown()
      modifies this, pins
      ensures !IsPowered() && pins.clockHigh && vddaHigh && conversions == old(conversions)
      ensures pins.cursor == old(pins.cursor) && pins.pulses == old(pins.pulses)
    {
      pins.SetClock(true);
      vddaHigh := true;
      state := Off;
    }

    /** `power_up`: clock low, analog supply on, then (after the settling delay) On. */
    method PowerUp()
      modifies this, pins
      ensures IsPowered() && !pins.clockHigh && !vddaHigh && conversions == old(conversions)
      ensures pins.cursor == old(pins.cursor) && pins.pulses == old(pins.pulses)
    {
      pins.SetClock(false);
      vddaHigh := false;
      state := On;
    }

    /**
     * One attempt of `take_measurement`: wait for the conversion, stamp it, clock in 20 bits and
     * the follow-up pulses, power down if standby was asked for, and sign-extend.
     */
    method ReadConversion(action: Followup, ghost c0: nat, ghost n: nat) returns (timestamp: nat, value: i32)
      requires pins.cursor == c0 + 20 * n
      modifies this, pins
      ensures timestamp == readyAt(old(conversions)) && value == Attempts(pins.dout, c0)(n)
      ensures conversions == old(conversions) + 1
      ensures pins.cursor == old(pins.cursor) + 20
      ensures pins.pulses == old(pins.pulses) + 20 + FollowupPulses(action)
      ensures state == if action.StandbyAndOffsetCalibration? then Off else old(state)
      ensures pins.clockHigh == action.StandbyAndOffsetCalibration?
      ensures vddaHigh == (action.StandbyAndOffsetCalibration? || old(vddaHigh))
    {
      timestamp := readyAt(conversions);
      conversions := conversions + 1;
      var raw := pins.ShiftInBits(20);
      pins.ClockPulses(FollowupPulses(action));
      if action.StandbyAndOffsetCalibration? {
        PowerDown();
      }
      AttemptDecodes(pins.dout, c0, n);
      value := Decode(raw);
    }

    /**
     * `take_measurement`: nothing when powered down. Otherwise each attempt reads 20 bits and
     * the follow-up pulses; a -1 is skipped up to MAX_SKIPS times. The power state is only
     * checked on entry: after a standby request the retries still run.
     */
    method TakeMeasurement(action: Followup) returns (r: Option<Weight.Sample<i32>>)
      modifies this, pins
      ensures r.None? <==> old(state) == Off
      ensures r.None? ==> state == Off && conversions == old(conversions)
      ensures r.None? ==> pins.cursor == old(pins.cursor) && pins.pulses == old(pins.pulses)
      ensures r.None? ==> pins.clockHigh == old(pins.clockHigh) && vddaHigh == old(vddaHigh)
      ensures r.Some? ==>
        var j := Retry.Skips(Attempts(pins.dout, old(pins.cursor)), 0);
        && r.value == Weight.Sample(readyAt(old(conversions) + j), Attempts(pins.dout, old(pins.cursor))(j))
        && conversions == old(conversions) + j + 1
        && pins.cursor == old(pins.cursor) + 20 * (j + 1)
        && pins.pulses == old(pins.pulses) + AttemptPulses(action, j + 1)
      ensures r.Some? ==> state == if action.StandbyAndOffsetCalibration? then Off else On
      ensures r.Some? ==> pins.clockHigh == action.StandbyAndOffsetCalibration?
      ensures r.Some? ==> vddaHigh == (action.StandbyAndOffsetCalibration? || old(vddaHigh))
    {
      if state == Off {
        return None;
      }
      ghost var c0, k0, p0, v0 := pins.cursor, conversions, pins.pulses, vddaHigh;
      var nSkips: nat := 0;
      while true
        invariant nSkips <= Retry.MAX_SKIPS
        invariant pins.cursor == c0 + 20 * nSkips && conversions == k0 + nSkips
        invariant pins.pulses == p0 + AttemptPulses(action, nSkips)
        invariant forall k :: 0 <= k < nSkips ==> Attempts(pins.dout, c0)(k) == -1
        invariant state == if action.StandbyAndOffsetCalibration? && nSkips > 0 then Off else On
        invariant vddaHigh == ((action.StandbyAndOffsetCalibration? && nSkips > 0) || v0)
        decreases Retry.MAX_SKIPS - nSkips
      {
        var timestamp, value := ReadConversion(action, c0, nSkips);
        assert pins.pulses == p0 + AttemptPulses(action, nSkips + 1);
        if value == -1 && nSkips < Retry.MAX_SKIPS {
          nSkips := nSkips + 1;
        } else {
          Retry.SkipsStops(Attempts(pins.dout, c0), nSkips, 0);
          return Some(Weight.Sample(timestamp, value));
        }
      }
    }

    /** `immediate_offset_calibration`: a measurement followed by an offset calibration. */
    method ImmediateOffsetCalibration() returns (r: Option<Weight.Sample<i32>>)
      modifies this, pins
      ensures r.None? <==> old(state) == Off
      ensures r.None? ==>
        && conversions == old(conversions) && pins.cursor == old(pins.cursor) && pins.pulses == old(pins.pulses)
        && pins.clockHigh == old(pins.clockHigh) && vddaHigh == old(vddaHigh)
      ensures r.Some? ==>
        var j := Retry.Skips(Attempts(pins.dout, old(pins.cursor)), 0);
        && r.value.timestamp == readyAt(old(conversions) + j)
        && r.value.value == Attempts(pins.dout, old(pins.cursor))(j)
        && conversions == old(conversions) + j + 1
        && pins.cursor == old(pins.cursor) + 20 * (j + 1)
        && pins.pulses == old(pins.pulses) + AttemptPulses(OffsetCalibration, j + 1)
        && !pins.clockHigh && vddaHigh == old(vddaHigh)
      ensures state == old(state)
    {
      r := TakeMeasurement(OffsetCalibration);
    }

    /**
     * `schedule_offset_calibration`: a measurement whose result is dropped, after which the chip
     * is in standby, so that it calibrates its offset when it wakes up.
     */
    method ScheduleOffsetCalibration()
      modifies this, pins
      ensures state == Off
      ensures old(state) == Off ==>
        && conversions == old(conversions) && pins.cursor == old(pins.cursor) && pins.pulses == old(pins.pulses)
        && pins.clockHigh == old(pins.clockHigh) && vddaHigh == old(vddaHigh)
      ensures old(state) == On ==>
        var j := Retry.Skips(Attempts(pins.dout, old(pins.cursor)), 0);
        && conversions == old(conversions) + j + 1
        && pins.cursor == old(pins.cursor) + 20 * (j + 1)
        && pins.pulses == old(pins.pulses) + AttemptPulses(StandbyAndOffsetCalibration, j + 1)
        && pins.clockHigh && vddaHigh
    {
      var _ := TakeMeasurement(StandbyAndOffsetCalibration);
    }

    /** `sample`: powers the chip up if needed and measures with no follow-up; it always succeeds. */
    method Sample() returns (s: Weight.Sample<i32>)
      modifies this, pins
      ensures state == On
      ensures
        var j := Retry.Skips(Attempts(pins.dout, old(pins.cursor)), 0);
        && s.timestamp == readyAt(old(conversions) + j)
        && s.value == Attempts(pins.dout, old(pins.cursor))(j)
        && conversions == old(conversions) + j + 1
        && pins.cursor == old(pins.cursor) + 20 * (j + 1)
        && pins.pulses == old(pins.pulses) + AttemptPulses(NoFollowup, j + 1)
        && !pins.clockHigh
        && vddaHigh == (old(state) == On && old(vddaHigh))
    {
      if !IsPowered() {
        PowerUp();
      }
      assert state == On;
      var r := TakeMeasurement(NoFollowup);
      assert r.Some?;
      s := r.value;
    }
  }
}
