/**
 * The battery voltage of the later firmware (hangman/src/battery_voltage.rs): sampled once at
 * start-up into a set-once global, then compared against two thresholds in millivolts. The
 * SAADC conversion is not modelled; the reading it produces is a parameter.
 */
module HangmanBattery {
  import opened Ints
  import opened Wrappers
  import OnceCell

  /** At or below this the dongle warns and shuts down. */
  const LOW_BATTERY_THRESHOLD_MV: u32 := 2750
  /** At or below this (the ADS1230's minimum supply) the dongle shuts down at once. */
  const CRITICAL_BATTERY_THRESHOLD_MV: u32 := 2700

  predicate Low(mv: u32) {
    mv <= LOW_BATTERY_THRESHOLD_MV
  }

  predicate CriticallyLow(mv: u32) {
    mv <= CRITICAL_BATTERY_THRESHOLD_MV
  }

  /**
   * A critically low reading is also low, and the readings that are low but not critically
   * low are exactly those from 2701 to 2750 mV.
   */
  lemma CriticallyLowIsLow(mv: u32)
    ensures CriticallyLow(mv) ==> Low(mv)
    ensures Low(mv) && !CriticallyLow(mv) <==> 2700 < mv <= 2750
  {
  }

  /** The `BATTERY_VOLTAGE` global and the functions that use it. */
  class BatteryVoltage {
    const cell: OnceCell.OnceCell<u32>

    /** At start-up nothing has been sampled. */
    constructor ()
      ensures fresh(cell) && GetStartupReading() == None
    {
      cell := new OnceCell.OnceCell();
    }

    /** `get_startup_reading`: the stored reading, if any. */
    function GetStartupReading(): (r: Option<u32>)
      reads cell
      ensures r == cell.contents
    {
      cell.contents
    }

    /**
     * `one_time_sample`, given the reading the ADC produced: it is stored and returned. Storing
     * into a cell that is already set fails and the `expect` panics, so this may be called once.
     */
    method OneTimeSample(reading: u32) returns (r: u32)
      requires GetStartupReading().None?
      modifies cell
      ensures r == reading && GetStartupReading() == Some(reading)
    {
      var stored := cell.Set(reading);
      r := reading;
    }

    /** `is_low`: panics if the battery was never sampled. */
    function IsLow(): (r: bool)
      reads cell
      requires GetStartupReading().Some?
      ensures r <==> Low(GetStartupReading().value)
    {
      GetStartupReading().value <= LOW_BATTERY_THRESHOLD_MV
    }

    /** `is_critically_low`: panics if the battery was never sampled. */
    function IsCriticallyLow(): (r: bool)
      reads cell
      requires GetStartupReading().Some?
      ensures r <==> CriticallyLow(GetStartupReading().value)
    {
      GetStartupReading().value <= CRITICAL_BATTERY_THRESHOLD_MV
    }

    /** Whatever the reading, a critically low battery is a low battery. */
    lemma CriticallyLowImpliesLow()
      requires GetStartupReading().Some?
      ensures IsCriticallyLow() ==> IsLow()
    {
      CriticallyLowIsLow(GetStartupReading().value);
    }
  }
}
