/**
 * Bitwise operations on natural numbers, defined one bit at a time from the
 * least significant end, and the facts about them that the firmware's
 * `|`, `&`, `!` and `<<` expressions rely on.
 */
module Bits {
  import opened Ints

  /** Bit `i` of `a`. */
  function Bit(a: nat, i: nat): bool {
    if i == 0 then a % 2 == 1 else Bit(a / 2, i - 1)
  }

  /** Bitwise OR. */
  function Or(a: nat, b: nat): nat
    decreases a + b
  {
    if a == 0 && b == 0 then 0
    else 2 * Or(a / 2, b / 2) + (if a % 2 == 1 || b % 2 == 1 then 1 else 0)
  }

  /** Bitwise AND. */
  function And(a: nat, b: nat): nat
    decreases a + b
  {
    if a == 0 || b == 0 then 0
    else 2 * And(a / 2, b / 2) + (if a % 2 == 1 && b % 2 == 1 then 1 else 0)
  }

  /** Bitwise NOT of a 32-bit word. */
  function Not32(a: u32): u32 {
    U32_MAX - a
  }

  /** The lowest `k` bits of `m` are all zero. */
  predicate LowBitsZero(m: nat, k: nat) {
    k == 0 || (m % 2 == 0 && LowBitsZero(m / 2, k - 1))
  }

  lemma {:induction false} OrZero(b: nat)
    ensures Or(0, b) == b
    decreases b
  {
    if b != 0 {
      OrZero(b / 2);
    }
  }

  /** OR of a value below 2^k with a value whose lowest k bits are clear is their sum. */
  lemma {:induction false} OrDisjoint(a: nat, m: nat, k: nat)
    requires a < Pow2(k)
    requires LowBitsZero(m, k)
    ensures Or(a, m) == a + m
    decreases k
  {
    if k == 0 {
      OrZero(m);
    } else if a != 0 || m != 0 {
      OrDisjoint(a / 2, m / 2, k - 1);
    }
  }

  lemma {:induction false} OrComm(a: nat, b: nat)
    ensures Or(a, b) == Or(b, a)
    decreases a + b
  {
    if a != 0 || b != 0 {
      OrComm(a / 2, b / 2);
    }
  }

  /** 2^n - 2^k has its lowest k bits clear. */
  lemma {:induction false} MaskLowBitsZero(n: nat, k: nat)
    requires k <= n
    ensures Pow2(k) <= Pow2(n) && LowBitsZero(Pow2(n) - Pow2(k), k)
    decreases k
  {
    if k > 0 {
      MaskLowBitsZero(n - 1, k - 1);
      var h := Pow2(n - 1) - Pow2(k - 1);
      assert Pow2(n) - Pow2(k) == 2 * h;
      HalveEven(h);
    }
  }

  lemma HalveEven(h: nat)
    ensures (2 * h) % 2 == 0 && (2 * h) / 2 == h
  {
  }

  /** AND with 2^n - 1 keeps every value below 2^n. */
  lemma {:induction false} AndOnes(n: nat, y: nat)
    requires y < Pow2(n)
    ensures And(Pow2(n) - 1, y) == y
    decreases n
  {
    if n > 0 && y != 0 {
      AndOnes(n - 1, y / 2);
    }
  }

  /** Testing `a & (1 << j) != 0` is testing bit j. */
  lemma {:induction false} AndPow2(a: nat, j: nat)
    ensures (And(a, Pow2(j)) != 0) == Bit(a, j)
    decreases j
  {
    if a == 0 {
      HighBitsClear(0, 0, j);
    } else if j == 0 {
      assert And(a / 2, 0) == 0;
    } else {
      AndPow2(a / 2, j - 1);
    }
  }

  /** For a value below 2^k, k >= 1, its top bit k-1 is set exactly when it is at least 2^(k-1). */
  lemma {:induction false} TopBit(x: nat, k: nat)
    requires 1 <= k
    requires x < Pow2(k)
    ensures Bit(x, k - 1) == (x >= Pow2(k - 1))
    decreases k
  {
    if k > 1 {
      TopBit(x / 2, k - 1);
    }
  }

  /** A value below 2^k has no bit set at position k or above. */
  lemma {:induction false} HighBitsClear(x: nat, k: nat, i: nat)
    requires x < Pow2(k)
    requires k <= i
    ensures !Bit(x, i)
    decreases i
  {
    if i > 0 {
      HighBitsClear(x / 2, if k == 0 then 0 else k - 1, i - 1);
    }
  }

  /** OR never leaves the width of its operands. */
  lemma {:induction false} OrBound(a: nat, b: nat, k: nat)
    requires a < Pow2(k) && b < Pow2(k)
    ensures Or(a, b) < Pow2(k)
    decreases k
  {
    if k == 0 {
    } else if a != 0 || b != 0 {
      OrBound(a / 2, b / 2, k - 1);
    }
  }

  /**
   * The pieces of the sign extension `if x & (1 << (n-1)) != 0 { x |= u32::MAX & !((1 << n) - 1) }`
   * for an n-bit value x, 1 <= n < 32: the test reads the sign bit, the mask is 2^32 - 2^n, and
   * OR-ing it in adds it.
   */
  lemma SignFill(n: nat, x: nat)
    requires 1 <= n < 32
    requires x < Pow2(n)
    ensures Pow2(n) == 2 * Pow2(n - 1) <= 0x8000_0000
    ensures (And(x, Pow2(n - 1)) != 0) == (x >= Pow2(n - 1))
    ensures And(U32_MAX, Not32(Pow2(n) - 1)) == U32_LIMIT - Pow2(n)
    ensures Or(x, U32_LIMIT - Pow2(n)) == x + U32_LIMIT - Pow2(n)
  {
    assert Pow2(n) == 2 * Pow2(n - 1) <= 0x8000_0000 by {
      Pow2Mono(n, 31);
      Pow2Values();
    }
    assert (And(x, Pow2(n - 1)) != 0) == (x >= Pow2(n - 1)) by {
      AndPow2(x, n - 1);
      TopBit(x, n);
    }
    var mask := U32_LIMIT - Pow2(n);
    assert Not32(Pow2(n) - 1) == mask;
    assert And(U32_MAX, mask) == mask by {
      Pow2Values();
      AndOnes(32, mask);
    }
    assert Or(x, mask) == x + mask by {
      Pow2Values();
      MaskLowBitsZero(32, n);
      OrDisjoint(x, mask, n);
    }
  }
}
