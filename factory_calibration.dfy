/**
 * The first two-point calibration (src/weight/factory_calibration.rs). It differs from the later
 * one in hangman_utils in one place: the difference of the two readings is an unchecked i32
 * subtraction, which wraps here as it does in a build without overflow checks.
 */
module FactoryCalibration {
  import opened Ints
  import opened Wrappers
  import Calibrate

  datatype CalPoint = CalPoint(weight: real, reading: i32)

  datatype Constants = Constants(m: real, b: i32)

  /** `get_cal_constants` as written: None when a point is missing or the wrapped difference is 0. */
  function CalConstants(zero: Option<i32>, other: Option<CalPoint>): (r: Option<Constants>)
    ensures r.Some? <==>
      zero.Some? && other.Some? && WrapI32(other.value.reading - zero.value) != 0
    ensures r.Some? ==> r.value.b == zero.value
    ensures r.Some? ==> r.value.m * WrapI32(other.value.reading - zero.value) as real == other.value.weight
    ensures r.Some? && InI32(other.value.reading - zero.value) ==>
      r.value.m * (other.value.reading - zero.value) as real == other.value.weight
  {
    if other.None? then None
    else if zero.None? then None
    else
      var b := zero.value;
      var difference := WrapI32(other.value.reading - b);
      if difference == 0 then None
      else Some(Constants(other.value.weight / difference as real, b))
  }

  /**
   * Two distinct readings always have a nonzero wrapped difference, so the divide-by-zero
   * guard only rejects equal readings.
   */
  lemma GuardIsEquality(zero: i32, reading: i32)
    ensures (WrapI32(reading - zero) == 0) == (reading == zero)
  {
  }

  /**
   * Zero point at i32::MIN and 100 (of any unit) at reading 1: the subtraction overflows, and
   * the constants found weigh reading -1, which lies between the two points, as -100.
   */
  lemma OverflowCounterexample()
    ensures !InI32(1 - I32_MIN)
    ensures CalConstants(Some(I32_MIN), Some(CalPoint(100.0, 1))).Some?
    ensures var c := CalConstants(Some(I32_MIN), Some(CalPoint(100.0, 1))).value;
      Calibrate.Calibrate(-1, c.m, c.b) == -100.0
  {
    var c := CalConstants(Some(I32_MIN), Some(CalPoint(100.0, 1))).value;
    assert WrapI32(1 - I32_MIN) == I32_MIN + 1;
    assert c.m == 100.0 / (I32_MIN + 1) as real;
    assert InI32(-1 - I32_MIN);
  }

  class TwoPoint {
    var zero: Option<i32>
    var other: Option<CalPoint>

    constructor ()
      ensures zero.None? && other.None?
    {
      zero := None;
      other := None;
    }

    /** `add_point`: weight zero sets the zero reading, any other weight replaces the loaded point. */
    method AddPoint(point: CalPoint)
      modifies this
      ensures point.weight == 0.0 ==> zero == Some(point.reading) && other == old(other)
      ensures point.weight != 0.0 ==> other == Some(point) && zero == old(zero)
    {
      if point.weight == 0.0 {
        zero := Some(point.reading);
      } else {
        other := Some(point);
      }
    }

    function GetCalConstants(): (r: Option<Constants>)
      reads this
      ensures r == CalConstants(zero, other)
    {
      CalConstants(zero, other)
    }
  }

  /** The source's test function (not marked `#[test]`): the points (0, 0x1234) and (100, 0x4567) map back to 0 and 100. */
  method CalibrateExample() returns (zeroWeight: real, otherWeight: real)
    ensures zeroWeight == 0.0 && otherWeight == 100.0
  {
    var cal := new TwoPoint();
    var zero := CalPoint(0.0, 0x1234);
    var other := CalPoint(100.0, 0x4567);
    cal.AddPoint(zero);
    cal.AddPoint(other);
    var c := cal.GetCalConstants();
    var constants := c.value;
    zeroWeight := (zero.reading - constants.b) as real * constants.m;
    otherWeight := (other.reading - constants.b) as real * constants.m;
  }
}
