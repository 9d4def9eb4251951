/**
 * The vocabulary of the weight subsystem (src/weight/mod.rs): samples, the sample types and
 * commands the measurement task accepts, the default calibration, the sampling-rate global,
 * and the ADC as the sample pipeline sees it.
 */
module Weight {
  import opened Ints
  import opened Wrappers
  import Float32
  import OnceCell

  type RawReading = i32

  /** DEFAULT_CALIBRATION_M, 4.6750380809321235e-06, as the bytes of its f32 (0x369CDE45). */
  const DEFAULT_CALIBRATION_M: Float32.F32 := [0x45, 0xDE, 0x9C, 0x36]
  const DEFAULT_CALIBRATION_B: RawReading := -100598

  /** A value with the Instant, in timer ticks, at which its conversion was ready. */
  datatype Sample<T> = Sample(timestamp: nat, value: T)

  /** Which pipeline stage the task reports; the boxed callback is only present or absent. */
  datatype SampleType =
    | Raw(hasCallback: bool)
    | FilteredRaw(hasCallback: bool)
    | Calibrated(hasCallback: bool)
    | Tared(hasCallback: bool)

  datatype Command =
    | StartSampling(sampleType: SampleType)
    | StopSampling
    | Tare
    | AddCalibrationPoint(weight: real)
    | SaveCalibration

  /** What a measurement callback is called with: the time since sampling started and the value. */
  datatype Report = RawReport(elapsed: nat, raw: int) | WeightReport(elapsed: nat, weight: real)

  /** `init`: stores the sampling rate; the source's `expect` panics if it was already set. */
  method Init(rate: OnceCell.OnceCell<nat>, samplingIntervalHz: nat)
    requires rate.contents.None?
    modifies rate
    ensures rate.contents == Some(samplingIntervalHz) && SamplingIntervalHz(rate) == samplingIntervalHz
  {
    var ok := rate.Set(samplingIntervalHz);
  }

  /** `sampling_interval_hz`: the stored rate; the source panics before `init`. */
  function SamplingIntervalHz(rate: OnceCell.OnceCell<nat>): (hz: nat)
    reads rate
    requires rate.contents.Some?
    ensures rate.contents == Some(hz)
  {
    rate.contents.value
  }

  /**
   * An ADC as a sample producer: powering it up and down, and `sample`, which powers it up if
   * needed and returns the next conversion. `readings(k)` is the k-th sample it delivers.
   */
  class Adc {
    var powered: bool
    var taken: nat
    const readings: nat -> Sample<RawReading>

    constructor (readings: nat -> Sample<RawReading>)
      ensures this.readings == readings
      ensures !powered && taken == 0
    {
      this.readings := readings;
      powered := false;
      taken := 0;
    }

    /** The sample the next `Sample()` returns. */
    ghost function Next(): Sample<RawReading>
      reads this
    {
      readings(taken)
    }

    method PowerUp()
      modifies this
      ensures powered && taken == old(taken)
    {
      powered := true;
    }

    method PowerDown()
      modifies this
      ensures !powered && taken == old(taken)
    {
      powered := false;
    }

    method Sample() returns (s: Sample<RawReading>)
      modifies this
      ensures s == old(Next())
      ensures powered && taken == old(taken) + 1
    {
      if !powered {
        PowerUp();
      }
      s := readings(taken);
      taken := taken + 1;
    }
  }

  /**
   * `SampleProducer for Mutex<M, T>`: locking the mutex and sampling the producer inside it; exactly
   * one inner sample is drawn and returned unchanged.
   */
  method LockedSample(adc: Adc) returns (s: Sample<RawReading>)
    modifies adc
    ensures s == old(adc.Next())
    ensures adc.powered && adc.taken == old(adc.taken) + 1
  {
    s := adc.Sample();
  }
}
