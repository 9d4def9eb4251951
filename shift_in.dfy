/**
 * Bit-banged serial reads, as the HX711 and ADS1230 drivers perform them: on each clock pulse
 * one level of the data line is sampled and OR-ed into the reading, most significant bit first.
 * `dout(k)` is the level the data line shows at the k-th sample the firmware takes of it.
 */
module ShiftIn {
  import opened Ints
  import opened Bits

  function BitValue(high: bool): nat {
    if high then 1 else 0
  }

  /**
   * The word that the `n` levels sampled from `start` on spell when read most significant
   * first: the first level is bit n-1, the last is bit 0.
   */
  function Word(dout: nat -> bool, start: nat, n: nat): nat {
    if n == 0 then 0 else 2 * Word(dout, start, n - 1) + BitValue(dout(start + n - 1))
  }

  lemma {:induction false} WordBound(dout: nat -> bool, start: nat, n: nat)
    ensures Word(dout, start, n) < Pow2(n)
    decreases n
  {
    if n > 0 {
      WordBound(dout, start, n - 1);
    }
  }

  /**
   * The reading of a loop counting its bit index down to `e` after it has OR-ed in the first
   * `k` levels: sample j of the read went to bit e + k - 1 - j.
   */
  function Placed(dout: nat -> bool, start: nat, k: nat, e: nat): nat {
    if k == 0 then 0
    else Placed(dout, start, k - 1, e + 1) + (if dout(start + k - 1) then Pow2(e) else 0)
  }

  /** Bit i of the word is the level sampled n-1-i pulses after the first. */
  lemma {:induction false} WordBit(dout: nat -> bool, start: nat, n: nat, i: nat)
    requires i < n
    ensures Bit(Word(dout, start, n), i) == dout(start + n - 1 - i)
    decreases n
  {
    if i > 0 {
      WordBit(dout, start, n - 1, i - 1);
    } else {
      WordBound(dout, start, n - 1);
    }
  }

  /** Placing the levels so that the last one lands on bit e scales the word by 2^e. */
  lemma {:induction false} PlacedIsScaled(dout: nat -> bool, start: nat, k: nat, e: nat)
    ensures Placed(dout, start, k, e) == Word(dout, start, k) * Pow2(e)
    decreases k
  {
    if k > 0 {
      PlacedIsScaled(dout, start, k - 1, e + 1);
      ShiftDistributes(Word(dout, start, k - 1), BitValue(dout(start + k - 1)), Pow2(e));
    }
  }

  lemma ShiftDistributes(m: int, d: int, x: int)
    ensures m * (2 * x) + d * x == (2 * m + d) * x
  {
  }

  lemma {:induction false} PowLowBitsZero(e: nat, k: nat)
    requires k <= e
    ensures LowBitsZero(Pow2(e), k)
    decreases k
  {
    if k > 0 {
      PowLowBitsZero(e - 1, k - 1);
    }
  }

  lemma {:induction false} SumLowBitsZero(a: nat, b: nat, k: nat)
    requires LowBitsZero(a, k) && LowBitsZero(b, k)
    ensures LowBitsZero(a + b, k)
    decreases k
  {
    if k > 0 {
      SumLowBitsZero(a / 2, b / 2, k - 1);
    }
  }

  lemma {:induction false} ZeroLowBitsZero(k: nat)
    ensures LowBitsZero(0, k)
    decreases k
  {
    if k > 0 {
      ZeroLowBitsZero(k - 1);
    }
  }

  lemma {:induction false} LowBitsZeroWeaker(m: nat, k: nat)
    requires k > 0 && LowBitsZero(m, k)
    ensures LowBitsZero(m, k - 1)
    decreases k
  {
    if k > 1 {
      LowBitsZeroWeaker(m / 2, k - 1);
    }
  }

  /** A partial reading has nothing below its current bit position. */
  lemma {:induction false} PlacedLowBitsZero(dout: nat -> bool, start: nat, k: nat, e: nat)
    ensures LowBitsZero(Placed(dout, start, k, e), e)
    decreases k
  {
    if k > 0 {
      var rest := Placed(dout, start, k - 1, e + 1);
      PlacedLowBitsZero(dout, start, k - 1, e + 1);
      LowBitsZeroWeaker(rest, e + 1);
      if dout(start + k - 1) {
        PowLowBitsZero(e, e);
        SumLowBitsZero(rest, Pow2(e), e);
      }
    } else {
      ZeroLowBitsZero(e);
    }
  }

  /** One iteration of the read loop, stated on the loop's own variables. */
  lemma ShiftStep(dout: nat -> bool, start: nat, k: nat, e: nat, acc: nat)
    requires acc == Placed(dout, start, k, e + 1)
    ensures (if dout(start + k) then Or(acc, Pow2(e)) else acc) == Placed(dout, start, k + 1, e)
  {
    PlacedStep(dout, start, k, e);
  }

  /** Once all n levels are placed down to bit 0, the reading is the word, which fits a u32. */
  lemma PlacedIsWord(dout: nat -> bool, start: nat, n: nat)
    requires n <= 32
    ensures Placed(dout, start, n, 0) == Word(dout, start, n) < 0x1_0000_0000
  {
    PlacedIsScaled(dout, start, n, 0);
    WordBound(dout, start, n);
    Pow2AtMost32(n);
  }

  /** One step of the read loop at bit position e: OR-ing in `1 << e` for a high level adds it. */
  lemma PlacedStep(dout: nat -> bool, start: nat, k: nat, e: nat)
    ensures Placed(dout, start, k + 1, e)
         == if dout(start + k) then Or(Placed(dout, start, k, e + 1), Pow2(e))
            else Placed(dout, start, k, e + 1)
  {
    if dout(start + k) {
      var rest := Placed(dout, start, k, e + 1);
      PlacedLowBitsZero(dout, start, k, e + 1);
      OrDisjoint(Pow2(e), rest, e + 1);
      OrComm(rest, Pow2(e));
    }
  }

  /**
   * The two pins a bit-banged ADC is wired to: the data input, whose k-th sampled level is
   * `dout(k)`, and the clock output. The counters record what the firmware has done to them.
   */
  class Pins {
    const dout: nat -> bool
    /** Data-line samples taken so far. */
    var cursor: nat
    var clockHigh: bool
    /** Clock pulses (rising edges) sent so far. */
    var pulses: nat

    constructor (dout: nat -> bool, clockHigh: bool)
      ensures this.dout == dout && this.clockHigh == clockHigh
      ensures cursor == 0 && pulses == 0
    {
      this.dout := dout;
      this.clockHigh := clockHigh;
      cursor := 0;
      pulses := 0;
    }

    /** `set_high` / `set_low` on the clock pin. */
    method SetClock(high: bool)
      modifies this
      ensures clockHigh == high && cursor == old(cursor) && pulses == old(pulses)
    {
      clockHigh := high;
    }

    /**
     * The loop `for i in (0..n).rev()`: raise the clock, OR `1 << i` into the reading if the
     * data line is high, lower the clock. The reading is the n sampled levels, most
     * significant first.
     */
    method ShiftInBits(n: nat) returns (reading: u32)
      requires 1 <= n <= 32
      modifies this
      ensures reading == Word(dout, old(cursor), n)
      ensures cursor == old(cursor) + n && pulses == old(pulses) + n && !clockHigh
    {
      ghost var c0 := cursor;
      var acc: nat := 0;
      var i := n;
      while i > 0
        invariant 0 <= i <= n
        invariant cursor == c0 + (n - i) && pulses == old(pulses) + (n - i)
        invariant acc == Placed(dout, c0, n - i, i)
        invariant i < n ==> !clockHigh
      {
        i := i - 1;
        clockHigh := true;
        pulses := pulses + 1;
        ShiftStep(dout, c0, n - i - 1, i, acc);
        if dout(cursor) {
          acc := Or(acc, Pow2(i));
        }
        cursor := cursor + 1;
        clockHigh := false;
      }
      PlacedIsWord(dout, c0, n);
      reading := acc;
    }

    /** The loop `for _ in 0..n`: n clock pulses without sampling, leaving the clock low. */
    method ClockPulses(n: nat)
      modifies this
      ensures pulses == old(pulses) + n && cursor == old(cursor)
      ensures clockHigh == (old(clockHigh) && n == 0)
    {
      var k := 0;
      while k < n
        invariant 0 <= k <= n
        invariant pulses == old(pulses) + k && cursor == old(cursor)
        invariant clockHigh == (old(clockHigh) && k == 0)
      {
        clockHigh := true;
        pulses := pulses + 1;
        clockHigh := false;
        k := k + 1;
      }
    }
  }
}
