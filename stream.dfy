/**
 * What a raw-reading producer of the sample pipeline will deliver, as a value. A producer is
 * either the ADC itself, whose k-th conversion is `readings(k)` and which has delivered `taken`
 * of them, or the median filter over the ADC, which also remembers the values it has consumed
 * and reports `filter` of that history (src/weight/median.rs).
 */
module Stream {
  import Weight

  type RawReading = Weight.RawReading

  datatype Feed =
    | Direct(readings: nat -> Weight.Sample<RawReading>, taken: nat)
    | Filtered(readings: nat -> Weight.Sample<RawReading>, taken: nat,
               filter: seq<RawReading> -> RawReading, consumed: seq<RawReading>)

  /** The values of the `k` conversions from `t` on. */
  function Values(readings: nat -> Weight.Sample<RawReading>, t: nat, k: nat): (r: seq<RawReading>)
    ensures |r| == k
    ensures forall i :: 0 <= i < k ==> r[i] == readings(t + i).value
  {
    seq<RawReading>(k, i requires 0 <= i < k => readings(t + i).value)
  }

  /** The sample the producer delivers after `k` more, from the state `f` on. */
  function Ahead(f: Feed, k: nat): Weight.Sample<RawReading> {
    match f
    case Direct(readings, t) => readings(t + k)
    case Filtered(readings, t, filter, h) =>
      Weight.Sample(readings(t + k).timestamp, filter(h + Values(readings, t, k + 1)))
  }

  /** The state of the producer once it has delivered `k` more samples. */
  function Advance(f: Feed, k: nat): Feed {
    match f
    case Direct(readings, t) => Direct(readings, t + k)
    case Filtered(readings, t, filter, h) => Filtered(readings, t + k, filter, h + Values(readings, t, k))
  }

  lemma ValuesSplit(readings: nat -> Weight.Sample<RawReading>, t: nat, j: nat, k: nat)
    ensures Values(readings, t, j) + Values(readings, t + j, k) == Values(readings, t, j + k)
  {
    var l, r, all := Values(readings, t, j), Values(readings, t + j, k), Values(readings, t, j + k);
    forall i | 0 <= i < j + k
      ensures (l + r)[i] == all[i]
    {
      if i >= j {
        assert r[i - j] == readings(t + j + (i - j)).value;
      }
    }
  }

  /** Skipping `j` samples and then `k` more is skipping `j + k`. */
  lemma AheadAdvance(f: Feed, j: nat, k: nat)
    ensures Ahead(Advance(f, j), k) == Ahead(f, j + k)
    ensures Advance(Advance(f, j), k) == Advance(f, j + k)
  {
    if f.Filtered? {
      ValuesSplit(f.readings, f.taken, j, k + 1);
      ValuesSplit(f.readings, f.taken, j, k);
      assert f.consumed + Values(f.readings, f.taken, j) + Values(f.readings, f.taken + j, k + 1)
          == f.consumed + Values(f.readings, f.taken, j + k + 1);
      assert f.consumed + Values(f.readings, f.taken, j) + Values(f.readings, f.taken + j, k)
          == f.consumed + Values(f.readings, f.taken, j + k);
    }
  }

  /** Delivering one sample of a median-filtered source appends the consumed value to its history. */
  lemma AdvanceOne(f: Feed)
    ensures Advance(f, 0) == f
    ensures f.Filtered? ==>
      Advance(f, 1) == Filtered(f.readings, f.taken + 1, f.filter, f.consumed + [f.readings(f.taken).value])
    ensures f.Filtered? ==>
      Ahead(f, 0) == Weight.Sample(f.readings(f.taken).timestamp, f.filter(f.consumed + [f.readings(f.taken).value]))
  {
    if f.Filtered? {
      assert f.consumed + Values(f.readings, f.taken, 0) == f.consumed;
      assert Values(f.readings, f.taken, 1) == [f.readings(f.taken).value];
    }
  }
}
