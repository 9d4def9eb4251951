/**
 * The elapsed-time closure `calculate_duration` that both later measurement tasks
 * (src/weight/task.rs and hangman/src/weight/task.rs) define inside `measure`, word for word:
 * the time of a sample is counted from the start of sampling, and a sample stamped before the
 * start moves the start back to it.
 */
module MeasurementClock {
  /** The reported time since the start of sampling, and the start kept from then on. */
  datatype Clock = Clock(elapsed: nat, start: nat)

  /**
   * `calculate_duration`: the time since `start` if `timestamp` is not before it; a timestamp
   * before the start becomes the new start, with no time elapsed. Either way the elapsed time
   * runs from the start that is kept, and the start never moves forward.
   */
  function CalculateDuration(start: nat, timestamp: nat): (c: Clock)
    ensures c.start + c.elapsed == timestamp
    ensures c.start <= start && (c.start == start || c.elapsed == 0)
  {
    if timestamp >= start then Clock(timestamp - start, start) else Clock(0, timestamp)
  }

  /** The start left behind by reporting samples stamped `ts`, one after the other, from `start`. */
  function StartAfter(start: nat, ts: seq<nat>): nat
    decreases |ts|
  {
    if |ts| == 0 then start else CalculateDuration(StartAfter(start, ts[..|ts| - 1]), ts[|ts| - 1]).start
  }

  /**
   * A clock that keeps regressing is always measured from the earliest time seen: after any run
   * of reports the start is the minimum of the first start and all the timestamps.
   */
  lemma {:induction false} StartIsEarliest(start: nat, ts: seq<nat>)
    ensures StartAfter(start, ts) <= start
    ensures forall i :: 0 <= i < |ts| ==> StartAfter(start, ts) <= ts[i]
    ensures StartAfter(start, ts) == start || exists i :: 0 <= i < |ts| && StartAfter(start, ts) == ts[i]
    decreases |ts|
  {
    if |ts| > 0 {
      var p := ts[..|ts| - 1];
      StartIsEarliest(start, p);
      forall i | 0 <= i < |ts|
        ensures StartAfter(start, ts) <= ts[i]
      {
        if i < |p| {
          assert ts[i] == p[i];
        }
      }
      if StartAfter(start, ts) != start && StartAfter(start, ts) != ts[|ts| - 1] {
        var i :| 0 <= i < |p| && StartAfter(start, p) == p[i];
        assert StartAfter(start, ts) == ts[i];
      }
    }
  }
}
