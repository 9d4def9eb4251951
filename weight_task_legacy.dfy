/**
 * The first measurement task (src/weight.rs). Its context is a value that `handle_command`
 * copies, updates and returns: the sampling state, an additive tare offset and the calibration
 * read from the register-array NVM at start-up. A measurement is `(reading + b) * m + offset`
 * with the i32 addition wrapping. The ADC is the first HX711 driver, and Instants are counted in
 * microseconds here.
 */
module WeightTaskLegacy {
  import opened Ints
  import opened Wrappers
  import Float32
  import LittleEndian
  import Nonvolatile
  import Hx711Legacy

  /** The callback of StartMeasurement is always present, so it is not represented. */
  datatype Command = StartMeasurement | StopMeasurement | Tare

  datatype MeasurementState = Idle | Active(start: nat)

  datatype Calibration = Calibration(m: real, b: i32)

  /** `Calibration::default`: this file's own defaults, 0.0000021950245 and 92554. */
  const DEFAULT_CALIBRATION: Calibration := Calibration(0.0000021950245, 92554)

  datatype MeasurementContext = MeasurementContext(state: MeasurementState, offset: real, calibration: Calibration)

  /** What the callback is called with: microseconds since the start, truncated to u32, and the weight. */
  datatype Notification = Notification(timestamp: u32, weight: real)

  /** The arithmetic of `take_measurement`: `(reading + b) as f32 * m + offset`, the sum wrapping as an i32. */
  function Adjusted(reading: i32, calibration: Calibration, offset: real): (r: real)
    ensures InI32(reading + calibration.b) ==> r == (reading + calibration.b) as real * calibration.m + offset
    ensures reading + calibration.b == 0 ==> r == offset
  {
    WrapI32(reading + calibration.b) as real * calibration.m + offset
  }

  /** After a tare the offset cancels the measurement it was taken from: that reading now measures 0. */
  lemma TareZeroes(reading: i32, calibration: Calibration, offset: real)
    ensures Adjusted(reading, calibration, offset - Adjusted(reading, calibration, offset)) == 0.0
  {
  }

  /** A tare shifts every later measurement by the same amount: the one seen at the tare. */
  lemma TareShifts(reading: i32, other: i32, calibration: Calibration, offset: real)
    ensures var tared := offset - Adjusted(reading, calibration, offset);
      Adjusted(other, calibration, tared) == Adjusted(other, calibration, offset) - Adjusted(reading, calibration, offset)
  {
  }

  /** The context `measure_task` starts from: Idle, no offset, and m and b decoded from their registers. */
  function InitialContext(registers: seq<LittleEndian.Bytes4>, codec: Float32.Codec): (c: MeasurementContext)
    requires |registers| == Nonvolatile.COUNT
    ensures c.state == Idle && c.offset == 0.0
    ensures c.calibration.m == codec.value(registers[Nonvolatile.Address(Nonvolatile.CalibrationMRegister)])
  {
    var m := registers[Nonvolatile.Address(Nonvolatile.CalibrationMRegister)];
    var b := registers[Nonvolatile.Address(Nonvolatile.CalibrationBRegister)];
    MeasurementContext(Idle, 0.0, Calibration(codec.value(m), LittleEndian.I32FromBytes(b)))
  }

  /** A b written to its register through the NVM is the b the task starts with. */
  lemma InitialContextLoadsB(registers: seq<LittleEndian.Bytes4>, codec: Float32.Codec, b: i32)
    requires |registers| == Nonvolatile.COUNT
    requires registers[Nonvolatile.Address(Nonvolatile.CalibrationBRegister)]
          == Nonvolatile.ToBytes(Nonvolatile.CalibrationB(b))
    ensures InitialContext(registers, codec).calibration.b == b
  {
    LittleEndian.I32RoundTrip(b, registers[1]);
  }

  /** The start-up part of `measure_task`: the calibration is read from the NVM's cache. */
  method MeasureTaskInit(nvm: Nonvolatile.Nvm, codec: Float32.Codec) returns (c: MeasurementContext)
    requires nvm.cache.Length == Nonvolatile.COUNT
    ensures c == InitialContext(nvm.cache[..], codec)
  {
    var m := nvm.Read(Nonvolatile.CalibrationMRegister);
    var b := nvm.Read(Nonvolatile.CalibrationBRegister);
    c := MeasurementContext(Idle, 0.0, Calibration(codec.value(m), LittleEndian.I32FromBytes(b)));
  }

  /**
   * `take_measurement`: the ADC is powered up if it is not, one conversion is read (it cannot
   * be None once powered, so the `unwrap` holds) and adjusted.
   */
  method TakeMeasurement(adc: Hx711Legacy.Hx711, calibration: Calibration, offset: real) returns (adjusted: real)
    modifies adc, adc.pins
    ensures adc.IsPowered()
    ensures adjusted == Adjusted(Hx711Legacy.Reading(adc.pins.dout, old(adc.pins.cursor)), calibration, offset)
    ensures adc.pins.cursor == old(adc.pins.cursor) + 24 && adc.pins.pulses == old(adc.pins.pulses) + 25
  {
    if !adc.IsPowered() {
      adc.PowerUp();
    }
    var reading := adc.TakeMeasurement();
    adjusted := Adjusted(reading.value, calibration, offset);
  }

  /**
   * `handle_command` on the command received, if any. StartMeasurement powers up and starts
   * now whatever the state; StopMeasurement powers down and goes Idle; Tare takes one
   * measurement and subtracts it from the offset. Without a command the context comes back as
   * it was.
   */
  method HandleCommand(cmd: Option<Command>, context: MeasurementContext, adc: Hx711Legacy.Hx711, now: nat)
    returns (c: MeasurementContext)
    modifies adc, adc.pins
    ensures cmd.None? ==> c == context && unchanged(adc, adc.pins)
    ensures cmd.Some? && cmd.value.StartMeasurement? ==>
      c == context.(state := Active(now)) && adc.IsPowered() && adc.pins.cursor == old(adc.pins.cursor)
    ensures cmd.Some? && cmd.value.StopMeasurement? ==>
      c == context.(state := Idle) && !adc.IsPowered() && adc.pins.cursor == old(adc.pins.cursor)
    ensures cmd.Some? && cmd.value.Tare? ==>
      var reading := Hx711Legacy.Reading(adc.pins.dout, old(adc.pins.cursor));
      && c == context.(offset := context.offset - Adjusted(reading, context.calibration, context.offset))
      && adc.IsPowered() && adc.pins.cursor == old(adc.pins.cursor) + 24
  {
    c := context;
    match cmd
    case None =>
    case Some(StartMeasurement) =>
      adc.PowerUp();
      c := c.(state := Active(now));
    case Some(StopMeasurement) =>
      adc.PowerDown();
      c := c.(state := Idle);
    case Some(Tare) =>
      var measurement := TakeMeasurement(adc, c.calibration, c.offset);
      c := c.(offset := c.offset - measurement);
  }

  /**
   * `measure`: nothing when Idle; otherwise one measurement, reported with the microseconds
   * since the start truncated to u32. The clock never runs backwards, so `now` is not before
   * the start.
   */
  method Measure(context: MeasurementContext, adc: Hx711Legacy.Hx711, now: nat) returns (n: Option<Notification>)
    requires context.state.Active? ==> context.state.start <= now
    modifies adc, adc.pins
    ensures context.state.Idle? ==> n.None? && unchanged(adc, adc.pins)
    ensures context.state.Active? ==>
      var reading := Hx711Legacy.Reading(adc.pins.dout, old(adc.pins.cursor));
      && n == Some(Notification(TruncateU32(now - context.state.start),
                                Adjusted(reading, context.calibration, context.offset)))
      && adc.IsPowered() && adc.pins.cursor == old(adc.pins.cursor) + 24
  {
    if context.state.Idle? {
      return None;
    }
    var measurement := TakeMeasurement(adc, context.calibration, context.offset);
    var timestamp := TruncateU32(now - context.state.start);
    n := Some(Notification(timestamp, measurement));
  }

  /**
   * One pass of the `measure_task` loop: the context is rebound to what `handle_command`
   * returns, then an active task measures and an idle one sleeps. The pass reads the clock
   * twice: `tCmd` when a StartMeasurement is handled, and `tMeas` once the conversion has come
   * in; the clock does not run backwards, so `tCmd <= tMeas`. A Tare reads one conversion and
   * an active pass reads one more; a pass reads nothing else. A Tare while active against a
   * steady load makes that pass's notification 0.
   */
  method Step(cmd: Option<Command>, context: MeasurementContext, adc: Hx711Legacy.Hx711, tCmd: nat, tMeas: nat)
    returns (c: MeasurementContext, n: Option<Notification>)
    requires tCmd <= tMeas
    requires context.state.Active? ==> context.state.start <= tMeas
    modifies adc, adc.pins
    ensures cmd.None? ==> c == context
    ensures cmd == Some(StartMeasurement) ==>
      c == context.(state := Active(tCmd)) && n.Some? && n.value.timestamp == TruncateU32(tMeas - tCmd)
    ensures cmd == Some(StopMeasurement) ==> c == context.(state := Idle) && n.None? && !adc.IsPowered()
    ensures cmd == Some(Tare) ==>
      var reading := Hx711Legacy.Reading(adc.pins.dout, old(adc.pins.cursor));
      c == context.(offset := context.offset - Adjusted(reading, context.calibration, context.offset))
    ensures var k := old(adc.pins.cursor) + (if cmd == Some(Tare) then 24 else 0);
      && n == (if c.state.Active?
               then Some(Notification(TruncateU32(tMeas - c.state.start),
                                      Adjusted(Hx711Legacy.Reading(adc.pins.dout, k), c.calibration, c.offset)))
               else None)
      && adc.pins.cursor == k + (if c.state.Active? then 24 else 0)
    ensures c.state.Active? ==> adc.IsPowered()
    ensures cmd.None? && context.state.Idle? ==> n.None? && unchanged(adc, adc.pins)
    ensures cmd == Some(Tare) && context.state.Active? &&
            Hx711Legacy.Reading(adc.pins.dout, old(adc.pins.cursor))
              == Hx711Legacy.Reading(adc.pins.dout, old(adc.pins.cursor) + 24) ==>
      n.Some? && n.value.weight == 0.0
  {
    ghost var k0 := adc.pins.cursor;
    c := HandleCommand(cmd, context, adc, tCmd);
    n := Measure(c, adc, tMeas);
    if cmd == Some(Tare) {
      TareZeroes(Hx711Legacy.Reading(adc.pins.dout, k0), context.calibration, context.offset);
    }
  }
}
