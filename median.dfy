/**
 * The median filter stage (src/weight/median.rs): every sample drawn from the ADC is consumed by
 * a 5-wide median filter from an external crate, and the filter's current median is reported
 * with the timestamp of the sample just drawn. The filter's windowing is not modelled: `filter`
 * gives the median for the values consumed so far.
 */
module Median {
  import Weight
  import Stream

  class Median {
    const source: Weight.Adc
    const filter: seq<Weight.RawReading> -> Weight.RawReading
    var consumed: seq<Weight.RawReading>

    /** `new`: an empty filter over the ADC. */
    constructor (source: Weight.Adc, filter: seq<Weight.RawReading> -> Weight.RawReading)
      ensures this.source == source && this.filter == filter && consumed == []
    {
      this.source := source;
      this.filter := filter;
      consumed := [];
    }

    /** What this stage will deliver from now on. */
    ghost function View(): Stream.Feed
      reads this, source
    {
      Stream.Filtered(source.readings, source.taken, filter, consumed)
    }

    /**
     * `sample`: one sample is drawn from the ADC (through its mutex), its value is consumed,
     * and the median is reported with the drawn sample's timestamp.
     */
    method Sample() returns (s: Weight.Sample<Weight.RawReading>)
      modifies this, source
      ensures s.timestamp == old(source.Next()).timestamp
      ensures consumed == old(consumed) + [old(source.Next()).value]
      ensures s.value == filter(consumed)
      ensures s == Stream.Ahead(old(View()), 0) && View() == Stream.Advance(old(View()), 1)
      ensures source.powered
    {
      Stream.AdvanceOne(View());
      var raw := Weight.LockedSample(source);
      consumed := consumed + [raw.value];
      s := Weight.Sample(raw.timestamp, filter(consumed));
    }
  }
}
