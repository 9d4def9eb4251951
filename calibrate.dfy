/**
 * The calibration stage (src/weight/calibrate.rs): a raw reading r becomes (r - b) * m, with
 * constants that can be replaced at run time, over a producer of raw readings. The f32 product
 * is a real number here.
 */
module Calibrate {
  import opened Ints
  import Weight
  import Stream
  import Median

  /**
   * `calibrate`: `(raw_value - b) as f32 * m`. The subtraction is an i32 subtraction: when it
   * overflows, the wrapped difference is what gets scaled.
   */
  function Calibrate(raw: i32, m: real, b: i32): (r: real)
    ensures InI32(raw - b) ==> r == (raw - b) as real * m
    ensures raw == b ==> r == 0.0
  {
    WrapI32(raw - b) as real * m
  }

  /** A calibrated reading is affine in the raw reading as long as the differences stay in range. */
  lemma CalibrateAffine(r1: i32, r2: i32, m: real, b: i32)
    requires InI32(r1 - b) && InI32(r2 - b)
    ensures Calibrate(r2, m, b) - Calibrate(r1, m, b) == (r2 - r1) as real * m
  {
  }

  /** The producer a calibrator draws raw readings from: the ADC or the median filter over it. */
  datatype Source = Direct(adc: Weight.Adc) | Filtered(median: Median.Median) {

    /** The ADC at the end of the chain. */
    function Adc(): Weight.Adc {
      match this
      case Direct(adc) => adc
      case Filtered(median) => median.source
    }

    ghost function Objects(): set<object> {
      match this
      case Direct(adc) => {adc}
      case Filtered(median) => {median, median.source}
    }

    ghost function View(): Stream.Feed
      reads Objects()
    {
      match this
      case Direct(adc) => Stream.Direct(adc.readings, adc.taken)
      case Filtered(median) => median.View()
    }

    /** Drawing one sample through the mutex of the producer. */
    method Sample() returns (s: Weight.Sample<Weight.RawReading>)
      modifies Objects()
      ensures s == Stream.Ahead(old(View()), 0) && View() == Stream.Advance(old(View()), 1)
      ensures Adc().powered
    {
      match this
      case Direct(adc) =>
        s := Weight.LockedSample(adc);
      case Filtered(median) =>
        s := median.Sample();
    }
  }

  /** The calibrated sample the pipeline delivers after `k` more, from the producer state `f` on. */
  function CalibratedAt(f: Stream.Feed, m: real, b: i32, k: nat): (s: Weight.Sample<real>)
    ensures s.timestamp == Stream.Ahead(f, k).timestamp
    ensures s.value == Calibrate(Stream.Ahead(f, k).value, m, b)
  {
    var raw := Stream.Ahead(f, k);
    Weight.Sample(raw.timestamp, Calibrate(raw.value, m, b))
  }

  class Calibrator {
    const source: Source
    var m: real
    var b: i32

    /** `new`: the given producer and constants. */
    constructor (source: Source, m: real, b: i32)
      ensures this.source == source && this.m == m && this.b == b
    {
      this.source := source;
      this.m := m;
      this.b := b;
    }

    /** The calibrated sample the next `Sample()` returns. */
    ghost function Next(): Weight.Sample<real>
      reads this, source.Objects()
    {
      CalibratedAt(source.View(), m, b, 0)
    }

    /** `set_calibration`: new constants; the producer is not touched. */
    method SetCalibration(m: real, b: i32)
      modifies this
      ensures this.m == m && this.b == b
    {
      this.m := m;
      this.b := b;
    }

    /**
     * `sample`: exactly one raw sample is drawn from the producer; its timestamp is kept and its
     * value calibrated.
     */
    method Sample() returns (s: Weight.Sample<real>)
      modifies source.Objects()
      ensures s == old(Next())
      ensures source.View() == Stream.Advance(old(source.View()), 1)
      ensures source.Adc().powered
    {
      var raw := source.Sample();
      s := Weight.Sample(raw.timestamp, Calibrate(raw.value, m, b));
    }
  }
}
