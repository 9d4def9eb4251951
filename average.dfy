/**
 * The window averagers of the sample pipeline (src/weight/average.rs): samples are summed until
 * the window of N is complete, then the mean is returned and the averager starts over.
 */
module Average {
  import opened Ints
  import opened Wrappers

  function Sum(w: seq<int>): int {
    if |w| == 0 then 0 else Sum(w[..|w| - 1]) + w[|w| - 1]
  }

  function Min(w: seq<int>): int
    requires |w| > 0
  {
    if |w| == 1 then w[0] else var m := Min(w[..|w| - 1]); if w[|w| - 1] < m then w[|w| - 1] else m
  }

  function Max(w: seq<int>): int
    requires |w| > 0
  {
    if |w| == 1 then w[0] else var m := Max(w[..|w| - 1]); if w[|w| - 1] > m then w[|w| - 1] else m
  }

  /** The mean with i64 division, which truncates toward zero. */
  function Mean(w: seq<int>): int
    requires |w| > 0
  {
    TruncDiv(Sum(w), |w|)
  }

  lemma SumSnoc(w: seq<int>, x: int)
    ensures Sum(w + [x]) == Sum(w) + x
  {
    assert (w + [x])[..|w|] == w;
  }

  /** The step of SumBounds, on plain numbers: one more sample within the new bounds. */
  lemma SnocBounds(n: nat, sum: int, x: int, lo: int, hi: int, lo': int, hi': int)
    requires n * lo <= sum <= n * hi
    requires lo' <= lo && hi <= hi' && lo' <= x <= hi'
    ensures (n + 1) * lo' <= sum + x <= (n + 1) * hi'
  {
    MulLe(n, lo', lo);
    MulLe(n, hi, hi');
  }

  /** A window's sum lies between |w| times its minimum and |w| times its maximum. */
  lemma {:induction false} SumBounds(w: seq<int>)
    requires |w| > 0
    ensures |w| * Min(w) <= Sum(w) <= |w| * Max(w)
    decreases |w|
  {
    if |w| > 1 {
      var p := w[..|w| - 1];
      SumBounds(p);
      SnocBounds(|p|, Sum(p), w[|w| - 1], Min(p), Max(p), Min(w), Max(w));
    }
  }

  /** The mean of a window lies between its smallest and its largest sample. */
  lemma MeanBounds(w: seq<int>)
    requires |w| > 0
    ensures Min(w) <= Mean(w) <= Max(w)
  {
    SumBounds(w);
    TruncDivBounds(Sum(w), |w|, Min(w), Max(w));
  }

  lemma {:induction false} MinMaxInRange(w: seq<int>, lo: int, hi: int)
    requires |w| > 0
    requires forall i :: 0 <= i < |w| ==> lo <= w[i] <= hi
    ensures lo <= Min(w) && Max(w) <= hi
    decreases |w|
  {
    if |w| > 1 {
      MinMaxInRange(w[..|w| - 1], lo, hi);
    }
  }

  /** A window of i32 samples: its mean is again an i32, since it lies between two samples. */
  lemma MeanIsI32(w: seq<int>)
    requires |w| > 0
    requires forall i :: 0 <= i < |w| ==> InI32(w[i])
    ensures InI32(Mean(w))
  {
    MeanBounds(w);
    MinMaxInRange(w, I32_MIN, I32_MAX);
  }

  /** The sum of fewer than 2^32 i32 samples fits in the i64 accumulator. */
  lemma {:induction false} SumFitsI64(w: seq<int>)
    requires |w| <= U32_LIMIT
    requires forall i :: 0 <= i < |w| ==> InI32(w[i])
    ensures |w| * I32_MIN <= Sum(w) <= |w| * I32_MAX
    ensures I64_MIN <= Sum(w) <= I64_MAX
    decreases |w|
  {
    if |w| > 0 {
      SumFitsI64(w[..|w| - 1]);
    }
  }

  /**
   * `WindowAveragerInt<N>`: an i64 accumulator and a usize count. `window` is the ghost list of
   * samples added since the last reset.
   */
  class WindowAveragerInt {
    /** The const generic N. */
    const n: nat
    var accumulator: int
    var nSamples: nat
    ghost var window: seq<i32>

    ghost predicate Valid()
      reads this
    {
      && n < U32_LIMIT
      && nSamples == |window|
      && (nSamples == 0 || nSamples < n)
      && accumulator == Sum(window)
    }

    /** `Default`: an empty window. */
    constructor (n: nat)
      requires n < U32_LIMIT
      ensures this.n == n && Valid() && window == []
      ensures accumulator == 0 && nSamples == 0
    {
      this.n := n;
      accumulator := 0;
      nSamples := 0;
      window := [];
    }

    /** `reset`: back to the default, empty state. */
    method Reset()
      requires n < U32_LIMIT
      modifies this
      ensures Valid() && window == [] && accumulator == 0 && nSamples == 0
    {
      accumulator := 0;
      nSamples := 0;
      window := [];
    }

    /**
     * `add_sample`: the sample joins the window; once the window holds N samples (a single
     * one when N <= 1) its truncated mean is returned and the averager is reset, otherwise
     * nothing is returned. The accumulator never leaves the i64 range.
     */
    method AddSample(sample: i32) returns (r: Option<i32>)
      requires Valid()
      modifies this
      ensures Valid()
      ensures var w := old(window) + [sample];
        if |w| >= n then r == Some(Mean(w)) && window == [] else r.None? && window == w
      ensures n <= 1 ==> r == Some(sample)
    {
      ghost var w := window + [sample];
      SumSnoc(window, sample);
      SumFitsI64(w);
      accumulator := accumulator + sample;
      nSamples := nSamples + 1;
      window := w;
      if nSamples >= n {
        var average := TruncDiv(accumulator, nSamples);
        MeanIsI32(w);
        Reset();
        r := Some(average);
      } else {
        r := None;
      }
    }
  }

  /**
   * `WindowAveragerFloat<N>`: the same window over f32 samples summed in an f64; the
   * arithmetic is exact here.
   */
  class WindowAveragerFloat {
    const n: nat
    var accumulator: real
    var nSamples: nat
    ghost var window: seq<real>

    ghost predicate Valid()
      reads this
    {
      && n < U32_LIMIT
      && nSamples == |window|
      && (nSamples == 0 || nSamples < n)
      && accumulator == RealSum(window)
    }

    constructor (n: nat)
      requires n < U32_LIMIT
      ensures this.n == n && Valid() && window == []
      ensures accumulator == 0.0 && nSamples == 0
    {
      this.n := n;
      accumulator := 0.0;
      nSamples := 0;
      window := [];
    }

    method Reset()
      requires n < U32_LIMIT
      modifies this
      ensures Valid() && window == [] && accumulator == 0.0 && nSamples == 0
    {
      accumulator := 0.0;
      nSamples := 0;
      window := [];
    }

    method AddSample(sample: real) returns (r: Option<real>)
      requires Valid()
      modifies this
      ensures Valid()
      ensures var w := old(window) + [sample];
        if |w| >= n then r == Some(RealMean(w)) && window == [] else r.None? && window == w
      ensures n <= 1 ==> r == Some(sample)
    {
      ghost var w := window + [sample];
      RealSumSnoc(window, sample);
      accumulator := accumulator + sample;
      nSamples := nSamples + 1;
      window := w;
      if nSamples >= n {
        var average := accumulator / (nSamples as real);
        if n <= 1 {
          assert old(window) == [] && accumulator == sample && nSamples == 1;
          assert average == sample;
        }
        Reset();
        r := Some(average);
      } else {
        r := None;
      }
    }
  }

  function RealSum(w: seq<real>): real {
    if |w| == 0 then 0.0 else RealSum(w[..|w| - 1]) + w[|w| - 1]
  }

  function RealMean(w: seq<real>): real
    requires |w| > 0
  {
    RealSum(w) / (|w| as real)
  }

  lemma RealSumSnoc(w: seq<real>, x: real)
    ensures RealSum(w + [x]) == RealSum(w) + x
  {
    assert (w + [x])[..|w|] == w;
  }

  /** A window of equal samples averages to that sample. */
  lemma {:induction false} RealMeanConstant(w: seq<real>, x: real)
    requires |w| > 0
    requires forall i :: 0 <= i < |w| ==> w[i] == x
    ensures RealSum(w) == (|w| as real) * x
    ensures RealMean(w) == x
    decreases |w|
  {
    if |w| > 1 {
      RealMeanConstant(w[..|w| - 1], x);
    }
  }
}
