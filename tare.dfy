/**
 * The tare stage (src/weight/tare.rs): an offset subtracted from every sample of the producer
 * it wraps, which is the calibrator in both measurement tasks.
 */
module Tare {
  import opened Ints
  import Weight
  import Stream
  import Calibrate

  /** The tared sample the pipeline delivers after `k` more, from the producer state `f` on. */
  function TaredAt(f: Stream.Feed, m: real, b: i32, offset: real, k: nat): (s: Weight.Sample<real>)
    ensures s.timestamp == Calibrate.CalibratedAt(f, m, b, k).timestamp
    ensures s.value == Calibrate.CalibratedAt(f, m, b, k).value - offset
    ensures offset == 0.0 ==> s == Calibrate.CalibratedAt(f, m, b, k)
  {
    var c := Calibrate.CalibratedAt(f, m, b, k);
    Weight.Sample(c.timestamp, c.value - offset)
  }

  class Tarer {
    const calibrator: Calibrate.Calibrator
    var offset: real

    /** `new`: the offset is the default value of the sample type, zero. */
    constructor (calibrator: Calibrate.Calibrator)
      ensures this.calibrator == calibrator && offset == 0.0
    {
      this.calibrator := calibrator;
      offset := 0.0;
    }

    /** The tared sample the next `Sample()` returns. */
    ghost function Next(): Weight.Sample<real>
      reads this, calibrator, calibrator.source.Objects()
    {
      TaredAt(calibrator.source.View(), calibrator.m, calibrator.b, offset, 0)
    }

    /** `set_offset`: replaces the offset and nothing else. */
    method SetOffset(offset: real)
      modifies this
      ensures this.offset == offset
    {
      this.offset := offset;
    }

    /** `sample`: the wrapped producer's sample with the offset subtracted and the timestamp kept. */
    method Sample() returns (s: Weight.Sample<real>)
      modifies calibrator.source.Objects()
      ensures s == old(Next())
      ensures s.value == old(calibrator.Next()).value - offset
      ensures calibrator.source.View() == Stream.Advance(old(calibrator.source.View()), 1)
      ensures calibrator.source.Adc().powered
    {
      s := calibrator.Sample();
      s := Weight.Sample(s.timestamp, s.value - offset);
    }
  }
}
