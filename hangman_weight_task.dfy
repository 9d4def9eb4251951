/**
 * The measurement task of the later firmware (hangman/src/weight/task.rs). The sample pipeline
 * is ADC -> median filter -> calibrator -> tarer, and the task answers commands from the BLE
 * side: start and stop streaming one of the four stages, tare, collect calibration points and
 * store the calibration they give. `hz` is the sampling rate `init` configured, and `now` the
 * clock reading where the source calls `Instant::now()`.
 */
module HangmanWeightTask {
  import opened Ints
  import opened Wrappers
  import Float32
  import Weight
  import Stream
  import Median
  import Calibrate
  import Tare
  import Average
  import TwoPointCal
  import Flash
  import LittleEndian
  import HangmanNonvolatile
  import WeightCalibration
  import opened MeasurementClock

  datatype MeasurementState = Idle | Active(sampleType: Weight.SampleType, start: nat)

  /** The calibrated values of the `k` samples that follow the first `from`, from producer state `f`. */
  function CalibratedValues(f: Stream.Feed, m: real, b: i32, from: nat, k: nat): (r: seq<real>)
    ensures |r| == k
    ensures forall j :: 0 <= j < k ==> r[j] == Calibrate.CalibratedAt(f, m, b, from + j).value
  {
    seq(k, j requires 0 <= j < k => Calibrate.CalibratedAt(f, m, b, from + j).value)
  }

  /** The median-filtered readings of the `k` samples that follow the first `from`. */
  function FilteredValues(f: Stream.Feed, from: nat, k: nat): (r: seq<Weight.RawReading>)
    ensures |r| == k
    ensures forall j :: 0 <= j < k ==> r[j] == Stream.Ahead(f, from + j).value
  {
    seq<Weight.RawReading>(k, j requires 0 <= j < k => Stream.Ahead(f, from + j).value)
  }

  /** The offset a tare sets: half a second of samples is skipped, the next half second averaged. */
  function TareOffset(f: Stream.Feed, m: real, b: i32, hz: nat): real
    requires hz / 2 >= 1
  {
    Average.RealMean(CalibratedValues(f, m, b, hz / 2, hz / 2))
  }

  /**
   * The reading a calibration point records: one second of calibrated samples is skipped and the
   * median-filtered readings of the next second averaged, which gives a reading between the
   * smallest and the largest of them.
   */
  function CalibrationReading(f: Stream.Feed, hz: nat): (r: i32)
    requires hz >= 1
    ensures Average.Min(FilteredValues(f, hz, hz)) <= r <= Average.Max(FilteredValues(f, hz, hz))
  {
    var w := FilteredValues(f, hz, hz);
    Average.MeanIsI32(w);
    Average.MeanBounds(w);
    Average.Mean(w)
  }

  /** Under a steady load, a tare cancels the load exactly: the tared value of that load is 0. */
  lemma TareUnderSteadyLoad(f: Stream.Feed, m: real, b: i32, hz: nat, load: real)
    requires hz / 2 >= 1
    requires forall k :: hz / 2 <= k < hz / 2 + hz / 2 ==> Calibrate.CalibratedAt(f, m, b, k).value == load
    ensures TareOffset(f, m, b, hz) == load
    ensures load - TareOffset(f, m, b, hz) == 0.0
  {
    Average.RealMeanConstant(CalibratedValues(f, m, b, hz / 2, hz / 2), load);
  }

  /**
   * Constants computed from two calibration points, once saved into the calibrator, weigh the
   * zero point's reading as 0 and the other point's reading as its known weight.
   */
  lemma SavedCalibrationReproducesPoints(zero: Option<i32>, other: Option<TwoPointCal.CalPoint>)
    requires TwoPointCal.CalConstants(zero, other).Some?
    ensures var c := TwoPointCal.CalConstants(zero, other).value;
      && Calibrate.Calibrate(zero.value, c.m, c.b) == 0.0
      && Calibrate.Calibrate(other.value.measuredValue, c.m, c.b) == other.value.expectedValue
  {
  }

  /** What a command needs from the configured rate: a tare averages `hz / 2` samples, a calibration point `hz`. */
  predicate RateAllows(cmd: Weight.Command, hz: nat) {
    && (cmd.Tare? ==> hz / 2 >= 1)
    && (cmd.AddCalibrationPoint? ==> hz >= 1)
  }

  class Context {
    var state: MeasurementState
    const adc: Weight.Adc
    const median: Median.Median
    const calibrator: Calibrate.Calibrator
    const tarer: Tare.Tarer
    const nvm: HangmanNonvolatile.Nvm
    const factoryCal: TwoPointCal.TwoPoint
    const hz: nat
    const codec: Float32.Codec

    /** The pipeline is connected as `task_function` builds it; this reads only constant fields. */
    ghost predicate Wired() {
      && median.source == adc
      && calibrator.source == Calibrate.Filtered(median)
      && tarer.calibrator == calibrator
    }

    ghost predicate Valid()
      reads this, nvm, nvm.flash
    {
      Wired() && nvm.Valid() && hz < U32_LIMIT
    }

    /** What the median filter, and so the calibrator, will deliver from now on. */
    ghost function Feed(): Stream.Feed
      reads median, adc
      requires Wired()
    {
      median.View()
    }

    /**
     * The set-up of `task_function`: the median filter over the ADC, the NVM, a calibrator over
     * the filter with the constants the NVM holds, a tarer with no offset, no calibration
     * points, and Idle.
     */
    constructor (adc: Weight.Adc, filter: seq<Weight.RawReading> -> Weight.RawReading, flash: Flash.Flash,
                 chip: HangmanNonvolatile.Chip, checksum: seq<byte> -> LittleEndian.Bytes4, codec: Float32.Codec, hz: nat)
      requires flash.Valid() && flash.base == HangmanNonvolatile.MinAddr(chip)
      requires hz < U32_LIMIT
      ensures Valid() && state == Idle
      ensures this.adc == adc && this.hz == hz && this.codec == codec
      ensures fresh(median) && fresh(calibrator) && fresh(tarer) && fresh(nvm) && fresh(factoryCal)
      ensures median.filter == filter && median.consumed == []
      ensures nvm.flash == flash && nvm.cache == HangmanNonvolatile.LoadedCache(flash.page, checksum) && !nvm.dirty
      ensures calibrator.m == codec.value(nvm.cache.calibrationM) && calibrator.b == nvm.cache.calibrationB
      ensures tarer.offset == 0.0
      ensures factoryCal.zero.None? && factoryCal.other.None?
    {
      this.adc := adc;
      this.hz := hz;
      this.codec := codec;
      var median := new Median.Median(adc, filter);
      var nvm := new HangmanNonvolatile.Nvm(flash, chip, checksum);
      var calM := nvm.ReadCalM();
      var calB := nvm.ReadCalB();
      var calibrator := new Calibrate.Calibrator(Calibrate.Filtered(median), codec.value(calM), calB);
      this.median := median;
      this.nvm := nvm;
      this.calibrator := calibrator;
      this.tarer := new Tare.Tarer(calibrator);
      this.factoryCal := new TwoPointCal.TwoPoint();
      state := Idle;
    }

    /** `StartSampling`: from Idle only, the ADC is powered up and sampling starts now. */
    method StartSampling(sampleType: Weight.SampleType, now: nat)
      requires Valid()
      modifies this, adc
      ensures Valid() && adc.taken == old(adc.taken)
      ensures old(state).Idle? ==> state == Active(sampleType, now) && adc.powered
      ensures !old(state).Idle? ==> state == old(state) && adc.powered == old(adc.powered)
    {
      if !state.Idle? {
        return;
      }
      adc.PowerUp();
      state := Active(sampleType, now);
    }

    /** `StopSampling`: from any state, the ADC is powered down and the task is Idle. */
    method StopSampling()
      requires Valid()
      modifies this, adc
      ensures Valid() && state == Idle && !adc.powered && adc.taken == old(adc.taken)
    {
      adc.PowerDown();
      state := Idle;
    }

    /**
     * `Tare`, from Idle only: `hz / 2` calibrated samples are drawn and dropped, the next
     * `hz / 2` go through a window whose mean becomes the tarer's offset (the window is full
     * exactly at the last one), and the ADC is powered down.
     */
    method TareCommand()
      requires Valid() && state.Idle? && hz / 2 >= 1
      modifies this, adc, median, tarer
      ensures Valid() && state == Idle && !adc.powered
      ensures Feed() == Stream.Advance(old(Feed()), hz / 2 + hz / 2)
      ensures tarer.offset == TareOffset(old(Feed()), calibrator.m, calibrator.b, hz)
    {
      ghost var f0 := Feed();
      var warmup := hz / 2;
      var filterSize := hz / 2;
      DiscardCalibrated(f0, warmup);
      var average := AverageCalibrated(f0, warmup, filterSize);
      tarer.SetOffset(average);
      adc.PowerDown();
      state := Idle;
    }

    /** The loop `for _ in 0..n { calibrator.sample() }`: `n` calibrated samples are drawn and dropped. */
    method DiscardCalibrated(ghost f0: Stream.Feed, n: nat)
      requires Wired() && Feed() == f0
      modifies median, adc
      ensures Feed() == Stream.Advance(f0, n)
    {
      Stream.AdvanceOne(f0);
      var i := 0;
      while i < n
        invariant 0 <= i <= n
        invariant Feed() == Stream.Advance(f0, i)
      {
        var discarded := DrawCalibrated(f0, i);
        i := i + 1;
      }
    }

    /**
     * The float window of the tare: `n - 1` calibrated samples leave the window still filling
     * (the source asserts it), and the `n`-th completes it with the mean of all `n`.
     */
    method AverageCalibrated(ghost f0: Stream.Feed, ghost from: nat, n: nat) returns (average: real)
      requires Wired() && Feed() == Stream.Advance(f0, from) && 1 <= n < U32_LIMIT
      modifies median, adc
      ensures Feed() == Stream.Advance(f0, from + n) && adc.powered
      ensures average == Average.RealMean(CalibratedValues(f0, calibrator.m, calibrator.b, from, n))
    {
      ghost var values := CalibratedValues(f0, calibrator.m, calibrator.b, from, n);
      var filter := new Average.WindowAveragerFloat(n);
      var i := 0;
      while i < n - 1
        invariant 0 <= i <= n - 1
        invariant filter.Valid() && filter.n == n && fresh(filter)
        invariant filter.window == values[..i]
        invariant Feed() == Stream.Advance(f0, from + i)
      {
        var r := AddCalibrated(filter, f0, from, i, values);
        assert r.None?;
        i := i + 1;
      }
      var r := AddCalibrated(filter, f0, from, i, values);
      assert values[..i + 1] == values;
      average := r.value;
    }

    /** One pass of the tare's window loop: the `i`-th of the `values` to average goes into the float window. */
    method AddCalibrated(filter: Average.WindowAveragerFloat, ghost f0: Stream.Feed, ghost from: nat, ghost i: nat,
                         ghost values: seq<real>)
      returns (r: Option<real>)
      requires Wired() && Feed() == Stream.Advance(f0, from + i)
      requires i < |values| && values == CalibratedValues(f0, calibrator.m, calibrator.b, from, |values|)
      requires filter.Valid() && filter.window == values[..i]
      modifies median, adc, filter
      ensures Feed() == Stream.Advance(f0, from + i + 1) && adc.powered && filter.Valid()
      ensures i + 1 < filter.n ==> r.None? && filter.window == values[..i + 1]
      ensures i + 1 >= filter.n ==> r == Some(Average.RealMean(values[..i + 1]))
    {
      var value := DrawCalibrated(f0, from + i);
      assert values[..i] + [value] == values[..i + 1];
      r := filter.AddSample(value);
    }

    /** One calibrated sample, the `k`-th from producer state `f0`, of which the first `k` are gone. */
    method DrawCalibrated(ghost f0: Stream.Feed, ghost k: nat) returns (value: real)
      requires Wired() && Feed() == Stream.Advance(f0, k)
      modifies median, adc
      ensures Feed() == Stream.Advance(f0, k + 1) && adc.powered
      ensures value == Calibrate.CalibratedAt(f0, calibrator.m, calibrator.b, k).value
    {
      Stream.AheadAdvance(f0, k, 0);
      Stream.AheadAdvance(f0, k, 1);
      var s := calibrator.Sample();
      value := s.value;
    }

    /** One median-filtered reading, the `k`-th from producer state `f0`, of which the first `k` are gone. */
    method DrawFiltered(ghost f0: Stream.Feed, ghost k: nat) returns (value: Weight.RawReading)
      requires Wired() && Feed() == Stream.Advance(f0, k)
      modifies median, adc
      ensures Feed() == Stream.Advance(f0, k + 1) && adc.powered
      ensures value == Stream.Ahead(f0, k).value
    {
      Stream.AheadAdvance(f0, k, 0);
      Stream.AheadAdvance(f0, k, 1);
      var s := median.Sample();
      value := s.value;
    }

    /**
     * `AddCalibrationPoint(weight)`, from Idle only: `hz` calibrated samples are drawn and
     * dropped, the next `hz` median-filtered readings are averaged, and the point (weight,
     * average) goes to the two-point calibration. The ADC stays powered.
     */
    method AddCalibrationPointCommand(weight: real)
      requires Valid() && state.Idle? && hz >= 1
      modifies adc, median, factoryCal
      ensures Valid() && adc.powered
      ensures Feed() == Stream.Advance(old(Feed()), hz + hz)
      ensures var reading := CalibrationReading(old(Feed()), hz);
        && (weight == 0.0 ==> factoryCal.zero == Some(reading) && factoryCal.other == old(factoryCal.other))
        && (weight != 0.0 ==>
              factoryCal.other == Some(TwoPointCal.CalPoint(weight, reading)) && factoryCal.zero == old(factoryCal.zero))
    {
      ghost var f0 := Feed();
      var warmup := hz;
      var filterSize := hz;
      DiscardCalibrated(f0, warmup);
      var reading := AverageFiltered(f0, warmup, filterSize);
      factoryCal.AddPoint(TwoPointCal.CalPoint(weight, reading));
    }

    /**
     * The integer window of a calibration point: `n - 1` median-filtered readings leave the
     * window still filling (the source asserts it), and the `n`-th completes it with the mean.
     */
    method AverageFiltered(ghost f0: Stream.Feed, ghost from: nat, n: nat) returns (average: Weight.RawReading)
      requires Wired() && Feed() == Stream.Advance(f0, from) && 1 <= n < U32_LIMIT
      modifies median, adc
      ensures Feed() == Stream.Advance(f0, from + n) && adc.powered
      ensures average == Average.Mean(FilteredValues(f0, from, n))
    {
      ghost var values := FilteredValues(f0, from, n);
      var filter := new Average.WindowAveragerInt(n);
      var i := 0;
      while i < n - 1
        invariant 0 <= i <= n - 1
        invariant filter.Valid() && filter.n == n && fresh(filter)
        invariant filter.window == values[..i]
        invariant Feed() == Stream.Advance(f0, from + i)
      {
        var r := AddFiltered(filter, f0, from, i, values);
        assert r.None?;
        i := i + 1;
      }
      var r := AddFiltered(filter, f0, from, i, values);
      assert values[..i + 1] == values;
      average := r.value;
    }

    /** One pass of the calibration point's window loop: the `i`-th of the `values` to average goes into the integer window. */
    method AddFiltered(filter: Average.WindowAveragerInt, ghost f0: Stream.Feed, ghost from: nat, ghost i: nat,
                       ghost values: seq<Weight.RawReading>)
      returns (r: Option<i32>)
      requires Wired() && Feed() == Stream.Advance(f0, from + i)
      requires i < |values| && values == FilteredValues(f0, from, |values|)
      requires filter.Valid() && filter.window == values[..i]
      modifies median, adc, filter
      ensures Feed() == Stream.Advance(f0, from + i + 1) && adc.powered && filter.Valid()
      ensures i + 1 < filter.n ==> r.None? && filter.window == values[..i + 1]
      ensures i + 1 >= filter.n ==> r == Some(Average.Mean(values[..i + 1]))
    {
      var value := DrawFiltered(f0, from + i);
      assert values[..i] + [value] == values[..i + 1];
      r := filter.AddSample(value);
    }

    /**
     * `SaveCalibration`: when the two points give constants, they are written to the NVM and
     * flushed, and handed to the calibrator; otherwise nothing changes. The NVM stores m as the
     * f32 the firmware computed, `codec.round(m)`.
     */
    method SaveCalibrationCommand()
      requires Valid()
      modifies calibrator, nvm, nvm.flash
      ensures Valid()
      ensures var c := TwoPointCal.CalConstants(factoryCal.zero, factoryCal.other);
        && (c.None? ==> unchanged(calibrator, nvm, nvm.flash))
        && (c.Some? ==>
              && calibrator.m == c.value.m && calibrator.b == c.value.b
              && nvm.cache == HangmanNonvolatile.Cache(codec.round(c.value.m), c.value.b)
              && HangmanNonvolatile.LoadedCache(nvm.flash.page, nvm.checksum) == nvm.cache)
    {
      var constants := factoryCal.GetCalConstants();
      if constants.Some? {
        WeightCalibration.WriteCalibration(nvm, codec.round(constants.value.m), constants.value.b);
        calibrator.SetCalibration(constants.value.m, constants.value.b);
      }
    }

    /** `handle_command`: one command, dispatched to its arm. */
    method HandleCommand(cmd: Weight.Command, now: nat)
      requires Valid() && RateAllows(cmd, hz)
      modifies this, adc, median, calibrator, tarer, factoryCal, nvm, nvm.flash
      ensures Valid()
      ensures cmd.StartSampling? ==>
        && (old(state).Idle? ==> state == Active(cmd.sampleType, now) && adc.powered)
        && (!old(state).Idle? ==> state == old(state) && adc.powered == old(adc.powered))
        && adc.taken == old(adc.taken) && unchanged(median, calibrator, tarer, factoryCal, nvm, nvm.flash)
      ensures cmd.StopSampling? ==>
        && state == Idle && !adc.powered
        && adc.taken == old(adc.taken) && unchanged(median, calibrator, tarer, factoryCal, nvm, nvm.flash)
      ensures (cmd.Tare? || cmd.AddCalibrationPoint?) && !old(state).Idle? ==>
        unchanged(this, adc, median, calibrator, tarer, factoryCal, nvm, nvm.flash)
      ensures cmd.Tare? && old(state).Idle? ==>
        && state == Idle && !adc.powered
        && Feed() == Stream.Advance(old(Feed()), hz / 2 + hz / 2)
        && tarer.offset == TareOffset(old(Feed()), calibrator.m, calibrator.b, hz)
        && unchanged(calibrator, factoryCal, nvm, nvm.flash)
      ensures cmd.AddCalibrationPoint? && old(state).Idle? ==>
        && state == Idle && adc.powered
        && Feed() == Stream.Advance(old(Feed()), hz + hz)
        && (var reading := CalibrationReading(old(Feed()), hz);
            && (cmd.weight == 0.0 ==> factoryCal.zero == Some(reading) && factoryCal.other == old(factoryCal.other))
            && (cmd.weight != 0.0 ==>
                  factoryCal.other == Some(TwoPointCal.CalPoint(cmd.weight, reading))
                  && factoryCal.zero == old(factoryCal.zero)))
        && unchanged(calibrator, tarer, nvm, nvm.flash)
      ensures cmd.SaveCalibration? ==>
        && state == old(state) && unchanged(adc, median, tarer, factoryCal)
        && var c := TwoPointCal.CalConstants(factoryCal.zero, factoryCal.other);
        && (c.None? ==> unchanged(calibrator, nvm, nvm.flash))
        && (c.Some? ==>
              && calibrator.m == c.value.m && calibrator.b == c.value.b
              && nvm.cache == HangmanNonvolatile.Cache(codec.round(c.value.m), c.value.b)
              && HangmanNonvolatile.LoadedCache(nvm.flash.page, nvm.checksum) == nvm.cache)
    {
      match cmd
      case StartSampling(sampleType) =>
        StartSampling(sampleType, now);
      case StopSampling =>
        StopSampling();
      case Tare =>
        if state.Idle? {
          TareCommand();
        }
      case AddCalibrationPoint(weight) =>
        if state.Idle? {
          AddCalibrationPointCommand(weight);
        }
      case SaveCalibration =>
        SaveCalibrationCommand();
    }

    /**
     * `measure`: nothing when Idle. Otherwise one sample of the chosen stage is drawn; with a
     * callback it is reported with the time since the start, which `calculate_duration` may
     * move back; without one the clock is not consulted. Every stage passes on the timestamp
     * of the ADC conversion it draws.
     */
    method Measure() returns (report: Option<Weight.Report>)
      requires Valid()
      modifies this, adc, median
      ensures Valid()
      ensures old(state).Idle? ==> report.None? && state == Idle && unchanged(adc, median)
      ensures old(state).Active? ==>
        var t := old(state).sampleType;
        var clock := CalculateDuration(old(state).start, old(adc.Next()).timestamp);
        && state == (if t.hasCallback then Active(t, clock.start) else old(state))
        && adc.powered && adc.taken == old(adc.taken) + 1
        && (report.Some? <==> t.hasCallback)
        && (t.Raw? ==> median.consumed == old(median.consumed))
        && (!t.Raw? ==> Feed() == Stream.Advance(old(Feed()), 1))
        && (report.Some? ==> report.value == Reported(t, clock.elapsed, old(adc.Next()).value, old(Feed()),
                                                      calibrator.m, calibrator.b, tarer.offset))
    {
      if state.Idle? {
        return None;
      }
      var t, start := state.sampleType, state.start;
      ghost var f0 := Feed();
      Stream.AdvanceOne(f0);
      var timestamp: nat;
      var raw: int := 0;
      var weight: real := 0.0;
      match t {
        case Raw(_) =>
          var s := Weight.LockedSample(adc);
          timestamp, raw := s.timestamp, s.value;
        case FilteredRaw(_) =>
          var s := median.Sample();
          timestamp, raw := s.timestamp, s.value;
        case Calibrated(_) =>
          var s := calibrator.Sample();
          timestamp, weight := s.timestamp, s.value;
        case Tared(_) =>
          var s := tarer.Sample();
          timestamp, weight := s.timestamp, s.value;
      }
      if t.hasCallback {
        var clock := CalculateDuration(start, timestamp);
        state := Active(t, clock.start);
        report := Some(if t.Raw? || t.FilteredRaw? then Weight.RawReport(clock.elapsed, raw)
                       else Weight.WeightReport(clock.elapsed, weight));
      } else {
        report := None;
      }
    }

    /**
     * One pass of the task loop: at most one pending command is handled, then one measurement
     * is taken if sampling is active (an idle task sleeps instead, which changes nothing here).
     * The measurement starts from the state the command left (`Commanded`); a command that
     * leaves the task active draws nothing, so the measurement draws the next conversion.
     */
    method Step(cmd: Option<Weight.Command>, now: nat) returns (report: Option<Weight.Report>)
      requires Valid()
      requires cmd.Some? ==> RateAllows(cmd.value, hz)
      modifies this, adc, median, calibrator, tarer, factoryCal, nvm, nvm.flash
      ensures Valid()
      ensures
        var s0 := Commanded(cmd, old(state), now);
        && (s0.Idle? ==> state == Idle && report.None?)
        && (s0.Active? ==>
              var t := s0.sampleType;
              var clock := CalculateDuration(s0.start, old(adc.Next()).timestamp);
              && state == (if t.hasCallback then Active(t, clock.start) else s0)
              && adc.powered && adc.taken == old(adc.taken) + 1
              && (report.Some? <==> t.hasCallback)
              && (!t.Raw? ==> Feed() == Stream.Advance(old(Feed()), 1))
              && (report.Some? ==> report.value == Reported(t, clock.elapsed, old(adc.Next()).value, old(Feed()),
                                                            calibrator.m, calibrator.b, tarer.offset)))
      ensures cmd == Some(Weight.StopSampling) ==> !adc.powered && adc.taken == old(adc.taken)
      ensures cmd == Some(Weight.Tare) && old(state).Idle? ==>
        && !adc.powered && Feed() == Stream.Advance(old(Feed()), hz / 2 + hz / 2)
        && tarer.offset == TareOffset(old(Feed()), calibrator.m, calibrator.b, hz)
      ensures cmd.Some? && cmd.value.AddCalibrationPoint? && old(state).Idle? ==>
        && adc.powered && Feed() == Stream.Advance(old(Feed()), hz + hz)
        && var point := TwoPointCal.CalPoint(cmd.value.weight, CalibrationReading(old(Feed()), hz));
        && (cmd.value.weight == 0.0 ==> factoryCal.zero == Some(point.measuredValue) && factoryCal.other == old(factoryCal.other))
        && (cmd.value.weight != 0.0 ==> factoryCal.other == Some(point) && factoryCal.zero == old(factoryCal.zero))
      ensures cmd == Some(Weight.SaveCalibration) ==>
        var c := TwoPointCal.CalConstants(factoryCal.zero, factoryCal.other);
        c.Some? ==> calibrator.m == c.value.m && calibrator.b == c.value.b
      ensures cmd.None? && old(state).Idle? ==>
        report.None? && unchanged(this, adc, median, calibrator, tarer, factoryCal, nvm, nvm.flash)
    {
      if cmd.Some? {
        HandleCommand(cmd.value, now);
      }
      if state.Active? {
        report := Measure();
      } else {
        report := None;
      }
    }
  }

  /**
   * The sampling state `handle_command` leaves, if a command came in: StartSampling starts only
   * from Idle, StopSampling always stops, and the other commands keep the state (Tare and
   * AddCalibrationPoint run from Idle only and end Idle).
   */
  function Commanded(cmd: Option<Weight.Command>, s: MeasurementState, now: nat): (r: MeasurementState)
    ensures r.Active? ==> s.Active? || (cmd.Some? && cmd.value.StartSampling? && r == Active(cmd.value.sampleType, now))
    ensures cmd.Some? && cmd.value.StartSampling? && s.Active? ==> r == s
  {
    match cmd
    case None => s
    case Some(StartSampling(t)) => if s.Idle? then Active(t, now) else s
    case Some(StopSampling) => Idle
    case Some(_) => s
  }

  /**
   * The report of a sample drawn from stage `t`: the raw conversion `raw`, the median filter's
   * next reading, or the calibrated or tared value of that reading.
   */
  function Reported(t: Weight.SampleType, elapsed: nat, raw: Weight.RawReading, f: Stream.Feed,
                    m: real, b: i32, offset: real): Weight.Report
  {
    match t
    case Raw(_) => Weight.RawReport(elapsed, raw)
    case FilteredRaw(_) => Weight.RawReport(elapsed, Stream.Ahead(f, 0).value)
    case Calibrated(_) => Weight.WeightReport(elapsed, Calibrate.CalibratedAt(f, m, b, 0).value)
    case Tared(_) => Weight.WeightReport(elapsed, Tare.TaredAt(f, m, b, offset, 0).value)
  }
}
