/**
 * The measurement task of the older firmware (src/weight/task.rs). The pipeline is
 * ADC -> calibrator -> tarer, with no median filter, and the task matches three commands and
 * three sample types only, so both are declared here as that file uses them. `now` is the clock
 * reading where the source calls `Instant::now()`.
 */
module WeightTask {
  import opened Ints
  import opened Wrappers
  import Float32
  import Weight
  import Stream
  import Calibrate
  import Tare
  import HangmanNonvolatile
  import opened MeasurementClock

  datatype SampleType = Raw(hasCallback: bool) | Calibrated(hasCallback: bool) | Tared(hasCallback: bool)

  datatype Command = StartSampling(sampleType: SampleType) | StopSampling | Tare

  datatype MeasurementState = Idle | Active(sampleType: SampleType, start: nat)

  /**
   * The tare of this revision stores the negated calibrated value as the tarer's offset, and
   * the tarer subtracts its offset: every later tared value is the calibrated value plus the
   * value seen at the tare.
   */
  lemma TaredAfterTare(f: Stream.Feed, m: real, b: i32, v: real, k: nat)
    ensures Tare.TaredAt(f, m, b, -v, k).value == Calibrate.CalibratedAt(f, m, b, k).value + v
  {
  }

  /**
   * So under a steady nonzero load `v`, the very load the tare saw reads as `2 * v` rather than
   * as 0; the tare zeroes only an empty scale.
   */
  lemma TareDoublesSteadyLoad(f: Stream.Feed, m: real, b: i32, v: real, k: nat)
    requires Calibrate.CalibratedAt(f, m, b, k).value == v && v != 0.0
    ensures Tare.TaredAt(f, m, b, -v, k).value == 2.0 * v
    ensures Tare.TaredAt(f, m, b, -v, k).value != 0.0
  {
    TaredAfterTare(f, m, b, v, k);
  }

  /** The report of a sample drawn from stage `t` of producer state `f`. */
  function Reported(t: SampleType, elapsed: nat, f: Stream.Feed, m: real, b: i32, offset: real): Weight.Report {
    match t
    case Raw(_) => Weight.RawReport(elapsed, Stream.Ahead(f, 0).value)
    case Calibrated(_) => Weight.WeightReport(elapsed, Calibrate.CalibratedAt(f, m, b, 0).value)
    case Tared(_) => Weight.WeightReport(elapsed, Tare.TaredAt(f, m, b, offset, 0).value)
  }

  class Context {
    var state: MeasurementState
    const adc: Weight.Adc
    const calibrator: Calibrate.Calibrator
    const tarer: Tare.Tarer

    /** The pipeline is connected as `task_function` builds it; this reads only constant fields. */
    ghost predicate Wired() {
      calibrator.source == Calibrate.Direct(adc) && tarer.calibrator == calibrator
    }

    /** What the ADC, and so the calibrator, will deliver from now on. */
    ghost function Feed(): Stream.Feed
      reads adc
    {
      Stream.Direct(adc.readings, adc.taken)
    }

    /**
     * The set-up of `task_function`: a calibrator over the ADC with the constants the NVM holds,
     * a tarer with no offset, and Idle. The NVM read goes through `read_cal_m` / `read_cal_b`,
     * which the struct-cache driver provides.
     */
    constructor (adc: Weight.Adc, nvm: HangmanNonvolatile.Nvm, codec: Float32.Codec)
      ensures Wired() && state == Idle && this.adc == adc
      ensures fresh(calibrator) && fresh(tarer)
      ensures calibrator.m == codec.value(nvm.cache.calibrationM) && calibrator.b == nvm.cache.calibrationB
      ensures tarer.offset == 0.0
    {
      this.adc := adc;
      var calM := nvm.ReadCalM();
      var calB := nvm.ReadCalB();
      var calibrator := new Calibrate.Calibrator(Calibrate.Direct(adc), codec.value(calM), calB);
      this.calibrator := calibrator;
      this.tarer := new Tare.Tarer(calibrator);
      state := Idle;
    }

    /**
     * `handle_command`. StartSampling does not look at the state: it (re)starts sampling now with
     * the given type. Its `power_up()` is an async call whose future is dropped without being
     * awaited, so it leaves the ADC's power as it was; the first sample powers the ADC up.
     * StopSampling powers down and goes Idle. Tare
     * draws one calibrated sample, in any state, and sets the tarer's offset to its negation.
     */
    method HandleCommand(cmd: Command, now: nat)
      requires Wired()
      modifies this, adc, tarer
      ensures Wired() && calibrator.m == old(calibrator.m) && calibrator.b == old(calibrator.b)
      ensures cmd.StartSampling? ==>
        state == Active(cmd.sampleType, now) && adc.powered == old(adc.powered) && adc.taken == old(adc.taken)
        && unchanged(tarer)
      ensures cmd.StopSampling? ==>
        state == Idle && !adc.powered && adc.taken == old(adc.taken) && unchanged(tarer)
      ensures cmd.Tare? ==>
        && state == old(state) && adc.powered && Feed() == Stream.Advance(old(Feed()), 1)
        && tarer.offset == -Calibrate.CalibratedAt(old(Feed()), calibrator.m, calibrator.b, 0).value
    {
      match cmd
      case StartSampling(sampleType) =>
        state := Active(sampleType, now);
      case StopSampling =>
        adc.PowerDown();
        state := Idle;
      case Tare =>
        var s := calibrator.Sample();
        tarer.SetOffset(-s.value);
    }

    /**
     * `measure`: nothing when Idle; otherwise one sample of the chosen stage is drawn and, with a
     * callback, reported with the time since the start, which `calculate_duration` may move back.
     */
    method Measure() returns (report: Option<Weight.Report>)
      requires Wired()
      modifies this, adc
      ensures Wired()
      ensures old(state).Idle? ==> report.None? && state == Idle && unchanged(adc)
      ensures old(state).Active? ==>
        var t := old(state).sampleType;
        var clock := CalculateDuration(old(state).start, old(adc.Next()).timestamp);
        && state == (if t.hasCallback then Active(t, clock.start) else old(state))
        && adc.powered && Feed() == Stream.Advance(old(Feed()), 1)
        && (report.Some? <==> t.hasCallback)
        && (report.Some? ==>
              report.value == Reported(t, clock.elapsed, old(Feed()), calibrator.m, calibrator.b, tarer.offset))
    {
      if state.Idle? {
        return None;
      }
      var t, start := state.sampleType, state.start;
      var timestamp: nat;
      var raw: int := 0;
      var weight: real := 0.0;
      match t {
        case Raw(_) =>
          var s := Weight.LockedSample(adc);
          timestamp, raw := s.timestamp, s.value;
        case Calibrated(_) =>
          var s := calibrator.Sample();
          timestamp, weight := s.timestamp, s.value;
        case Tared(_) =>
          var s := tarer.Sample();
          timestamp, weight := s.timestamp, s.value;
      }
      if t.hasCallback {
        var clock := CalculateDuration(start, timestamp);
        state := Active(t, clock.start);
        report := Some(if t.Raw? then Weight.RawReport(clock.elapsed, raw)
                       else Weight.WeightReport(clock.elapsed, weight));
      } else {
        report := None;
      }
    }

    /**
     * One pass of the task loop: at most one pending command is handled, then one measurement
     * is taken if sampling is active; an idle task sleeps, which changes nothing here. The
     * measurement starts from the state the command left (`Commanded`) and from the producer
     * one sample on when the command was a Tare, and it draws exactly one sample.
     */
    method Step(cmd: Option<Command>, now: nat) returns (report: Option<Weight.Report>)
      requires Wired()
      modifies this, adc, tarer
      ensures Wired() && calibrator.m == old(calibrator.m) && calibrator.b == old(calibrator.b)
      ensures cmd == Some(Tare) ==>
        tarer.offset == -Calibrate.CalibratedAt(old(Feed()), calibrator.m, calibrator.b, 0).value
      ensures cmd != Some(Tare) ==> tarer.offset == old(tarer.offset)
      ensures cmd == Some(StopSampling) ==> !adc.powered && report.None?
      ensures
        var s0 := Commanded(cmd, old(state), now);
        var f0 := if cmd == Some(Tare) then Stream.Advance(old(Feed()), 1) else old(Feed());
        && (s0.Idle? ==> state == Idle && report.None? && Feed() == f0)
        && (s0.Active? ==>
              var t := s0.sampleType;
              var clock := CalculateDuration(s0.start, Stream.Ahead(f0, 0).timestamp);
              && state == (if t.hasCallback then Active(t, clock.start) else s0)
              && adc.powered && Feed() == Stream.Advance(f0, 1)
              && (report.Some? <==> t.hasCallback)
              && (report.Some? ==>
                    report.value == Reported(t, clock.elapsed, f0, calibrator.m, calibrator.b, tarer.offset)))
      ensures cmd.None? && old(state).Idle? ==> report.None? && unchanged(this, adc, tarer)
    {
      if cmd.Some? {
        HandleCommand(cmd.value, now);
      }
      if state.Active? {
        report := Measure();
      } else {
        report := None;
      }
    }
  }

  /** The sampling state `handle_command` leaves, if a command came in. */
  function Commanded(cmd: Option<Command>, s: MeasurementState, now: nat): (r: MeasurementState)
    ensures cmd.None? || cmd == Some(Tare) ==> r == s
    ensures r.Active? && cmd.Some? && !cmd.value.Tare? ==> cmd.value.StartSampling? && r.start == now
  {
    match cmd
    case None => s
    case Some(StartSampling(t)) => Active(t, now)
    case Some(StopSampling) => Idle
    case Some(Tare) => s
  }
}
