/**
 * Two-point calibration (hangman_utils/src/two_point_cal.rs): one point measured with no load
 * and one with a known weight give the constants of weight = m * (reading - b). The generic
 * reading type is the i32 RawReading the firmware instantiates it with; the f32 division is a
 * real division.
 */
module TwoPointCal {
  import opened Ints
  import opened Wrappers

  datatype CalPoint = CalPoint(expectedValue: real, measuredValue: i32)

  datatype Constants = Constants(m: real, b: i32)

  /**
   * `get_cal_constants` on the two stored points: both must be present, the measured readings
   * must differ, and their difference must fit an i32 (`checked_sub`); then b is the zero
   * reading and m the known weight per count above it.
   */
  function CalConstants(zero: Option<i32>, other: Option<CalPoint>): (r: Option<Constants>)
    ensures r.Some? <==>
      && zero.Some? && other.Some?
      && other.value.measuredValue != zero.value
      && InI32(other.value.measuredValue - zero.value)
    ensures r.Some? ==> r.value.b == zero.value
    ensures r.Some? ==>
      r.value.m == other.value.expectedValue / (other.value.measuredValue - zero.value) as real
  {
    if other.None? then None
    else if zero.None? then None
    else
      var b := zero.value;
      if other.value.measuredValue == b then None
      else
        var denominator := other.value.measuredValue - b;
        if !InI32(denominator) then None
        else Some(Constants(other.value.expectedValue / denominator as real, b))
  }

  /**
   * With the constants found, every reading between the two points is weighted by linear
   * interpolation between zero and the known weight.
   */
  lemma Interpolates(zero: Option<i32>, other: Option<CalPoint>, reading: i32)
    requires CalConstants(zero, other).Some?
    requires zero.value <= reading <= other.value.measuredValue
          || other.value.measuredValue <= reading <= zero.value
    ensures InI32(reading - zero.value)
    ensures var c := CalConstants(zero, other).value;
      (reading - c.b) as real * c.m
        == other.value.expectedValue * (reading - zero.value) as real
           / (other.value.measuredValue - zero.value) as real
  {
    var c := CalConstants(zero, other).value;
    ScaleQuotient(reading, c.b, zero.value, other.value.measuredValue, other.value.expectedValue, c.m);
  }

  /** The arithmetic of the step above, with the constants as plain numbers. */
  lemma ScaleQuotient(reading: int, b: int, zero: int, measured: int, expected: real, m: real)
    requires b == zero && measured != zero && m == expected / (measured - zero) as real
    ensures (reading - b) as real * m == expected * (reading - zero) as real / (measured - zero) as real
  {
    var d := (measured - zero) as real;
    assert m * d == expected;
    assert ((reading - b) as real * m) * d == expected * (reading - zero) as real;
  }

  class TwoPoint {
    var zero: Option<i32>
    var other: Option<CalPoint>

    /** `TwoPoint::default`: no points. */
    constructor ()
      ensures zero.None? && other.None?
    {
      zero := None;
      other := None;
    }

    /** `add_point`: a point at weight zero replaces the zero reading, any other the loaded point. */
    method AddPoint(point: CalPoint)
      modifies this
      ensures point.expectedValue == 0.0 ==> zero == Some(point.measuredValue) && other == old(other)
      ensures point.expectedValue != 0.0 ==> other == Some(point) && zero == old(zero)
    {
      if point.expectedValue == 0.0 {
        zero := Some(point.measuredValue);
      } else {
        other := Some(point);
      }
    }

    function GetCalConstants(): (r: Option<Constants>)
      reads this
      ensures r == CalConstants(zero, other)
    {
      CalConstants(zero, other)
    }
  }

  /**
   * The crate's test: points (0, 0x1234) and (100, 0x4567) give constants under which both
   * measured readings map back to their weights.
   */
  method CalibrateExample() returns (zeroWeight: real, otherWeight: real)
    ensures zeroWeight == 0.0 && otherWeight == 100.0
  {
    var cal := new TwoPoint();
    var zero := CalPoint(0.0, 0x1234);
    var other := CalPoint(100.0, 0x4567);
    cal.AddPoint(zero);
    cal.AddPoint(other);
    var c := cal.GetCalConstants();
    var constants := c.value;
    zeroWeight := (zero.measuredValue - constants.b) as real * constants.m;
    otherWeight := (other.measuredValue - constants.b) as real * constants.m;
  }
}
