/**
 * Fixed-width machine integers as ranges of Dafny's unbounded integers, and the
 * conversions between them that the firmware performs with `as` casts.
 */
module Ints {

  function Pow2(n: nat): (r: int)
    ensures r >= 1
  {
    if n == 0 then 1 else 2 * Pow2(n - 1)
  }

  lemma {:induction false} Pow2Mono(k: nat, n: nat)
    requires k <= n
    ensures Pow2(k) <= Pow2(n)
    decreases n
  {
    if k < n {
      Pow2Mono(k, n - 1);
    }
  }

  /** A word of at most 32 bits fits in a u32. */
  lemma Pow2AtMost32(n: nat)
    requires n <= 32
    ensures Pow2(n) <= 0x1_0000_0000
  {
    Pow2Mono(n, 32);
    Pow2Values();
  }

  /** The powers of two that the firmware's word widths use. */
  lemma Pow2Values()
    ensures Pow2(8) == 0x100 && Pow2(16) == 0x1_0000
    ensures Pow2(19) == 0x8_0000 && Pow2(20) == 0x10_0000
    ensures Pow2(23) == 0x80_0000 && Pow2(24) == 0x100_0000
    ensures Pow2(31) == 0x8000_0000 && Pow2(32) == 0x1_0000_0000
  {
    assert Pow2(1) == 2;
    assert Pow2(2) == 4;
    assert Pow2(3) == 8;
    assert Pow2(4) == 16;
    assert Pow2(5) == 32;
    assert Pow2(6) == 64;
    assert Pow2(7) == 128;
    assert Pow2(8) == 256;
    assert Pow2(9) == 512;
    assert Pow2(10) == 1024;
    assert Pow2(11) == 2048;
    assert Pow2(12) == 4096;
    assert Pow2(13) == 8192;
    assert Pow2(14) == 16384;
    assert Pow2(15) == 32768;
    assert Pow2(16) == 65536;
    assert Pow2(17) == 131072;
    assert Pow2(18) == 262144;
    assert Pow2(19) == 524288;
    assert Pow2(20) == 1048576;
    assert Pow2(21) == 2097152;
    assert Pow2(22) == 4194304;
    assert Pow2(23) == 8388608;
    assert Pow2(24) == 16777216;
    assert Pow2(25) == 33554432;
    assert Pow2(26) == 67108864;
    assert Pow2(27) == 134217728;
    assert Pow2(28) == 268435456;
    assert Pow2(29) == 536870912;
    assert Pow2(30) == 1073741824;
    assert Pow2(31) == 2147483648;
    assert Pow2(32) == 4294967296;
  }

  const U8_LIMIT: nat := 0x100
  const U32_LIMIT: nat := 0x1_0000_0000
  const U64_LIMIT: nat := 0x1_0000_0000_0000_0000
  const U32_MAX: nat := 0xFFFF_FFFF
  const I32_MIN: int := -0x8000_0000
  const I32_MAX: int := 0x7FFF_FFFF
  const I64_MIN: int := -0x8000_0000_0000_0000
  const I64_MAX: int := 0x7FFF_FFFF_FFFF_FFFF

  type byte = x: int | 0 <= x < 0x100
  type u32 = x: int | 0 <= x < 0x1_0000_0000
  type u64 = x: int | 0 <= x < 0x1_0000_0000_0000_0000
  type i32 = x: int | -0x8000_0000 <= x < 0x8000_0000
  type i64 = x: int | -0x8000_0000_0000_0000 <= x < 0x8000_0000_0000_0000

  predicate InI32(x: int) {
    I32_MIN <= x <= I32_MAX
  }

  /** `x as i32` for an `x: u32`: the same 32 bits read as two's complement. */
  function U32AsI32(x: u32): (r: i32)
    ensures r == x || r == x - U32_LIMIT
    ensures (r < 0) == (x >= 0x8000_0000)
  {
    if x < 0x8000_0000 then x else x - U32_LIMIT
  }

  /** The value of a 24-bit two's complement word. */
  function I24Value(raw: nat): (r: i32)
    requires raw < 0x100_0000
    ensures -0x80_0000 <= r < 0x80_0000
    ensures (r < 0) == (raw >= 0x80_0000)
  {
    if raw < 0x80_0000 then raw else raw - 0x100_0000
  }

  /** The n-bit two's complement pattern of a value in [-2^(n-1), 2^(n-1)). */
  function ToUnsigned(n: nat, v: int): (r: nat)
    requires 1 <= n
    requires -Pow2(n - 1) <= v < Pow2(n - 1)
    ensures r < Pow2(n)
    ensures (v < 0) == (r >= Pow2(n - 1))
  {
    if v < 0 then v + Pow2(n) else v
  }

  /** `x as u32` for any integer: reduction modulo 2^32 (Rust's truncating cast). */
  function TruncateU32(x: int): (r: u32)
    ensures (r - x) % U32_LIMIT == 0
    ensures 0 <= x < U32_LIMIT ==> r == x
  {
    x % U32_LIMIT
  }

  /**
   * An i32 result that overflowed, as a build without overflow checks gives it: reduction
   * modulo 2^32 into [-2^31, 2^31). A build with overflow checks panics instead.
   */
  function WrapI32(x: int): (r: i32)
    ensures (r - x) % U32_LIMIT == 0
    ensures InI32(x) ==> r == x
  {
    (x - I32_MIN) % U32_LIMIT + I32_MIN
  }

  /** `a / n` on Rust integers: the quotient truncated toward zero (Dafny's `/` is Euclidean). */
  function TruncDiv(a: int, n: nat): int
    requires n > 0
  {
    if a >= 0 then a / n else -((-a) / n)
  }

  lemma MulLe(n: nat, x: int, y: int)
    requires x <= y
    ensures n * x <= n * y
  {
    assert n * y - n * x == n * (y - x);
  }

  lemma MulLtCancel(n: nat, x: int, y: int)
    requires n * x < n * y
    ensures x < y
  {
    if x >= y {
      MulLe(n, y, x);
    }
  }

  /** Euclidean division of a value in [n*lo, n*hi] by n lies in [lo, hi]. */
  lemma DivBounds(a: int, n: nat, lo: int, hi: int)
    requires n > 0
    requires n * lo <= a <= n * hi
    ensures lo <= a / n <= hi
  {
    var q, r := a / n, a % n;
    assert a == n * q + r && 0 <= r < n;
    assert n * (q + 1) == n * q + n;
    MulLtCancel(n, lo, q + 1);
    MulLtCancel(n, q, hi + 1);
  }

  /** Truncating division of a value in [n*lo, n*hi] by n lies in [lo, hi]. */
  lemma TruncDivBounds(a: int, n: nat, lo: int, hi: int)
    requires n > 0
    requires n * lo <= a <= n * hi
    ensures lo <= TruncDiv(a, n) <= hi
  {
    if a >= 0 {
      DivBounds(a, n, lo, hi);
    } else {
      assert n * (-hi) == -(n * hi) && n * (-lo) == -(n * lo);
      DivBounds(-a, n, -hi, -lo);
    }
  }
}
