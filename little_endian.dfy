/**
 * Little-endian byte images of integers, as `to_le_bytes` and `from_le_bytes` produce and read
 * them: byte i of the image holds bits 8i to 8i+7.
 */
module LittleEndian {
  import opened Ints

  type Bytes4 = s: seq<byte> | |s| == 4 witness [0, 0, 0, 0]

  function Pow256(n: nat): (r: nat)
    ensures r >= 1
  {
    if n == 0 then 1 else 256 * Pow256(n - 1)
  }

  lemma Pow256Values()
    ensures Pow256(1) == 0x100 && Pow256(2) == 0x1_0000 && Pow256(3) == 0x100_0000
    ensures Pow256(4) == U32_LIMIT && Pow256(8) == U64_LIMIT
  {
    assert Pow256(4) == 0x1_0000_0000;
    assert Pow256(5) == 0x100_0000_0000;
    assert Pow256(6) == 0x1_0000_0000_0000;
    assert Pow256(7) == 0x100_0000_0000_0000;
  }

  /** `n` zero bytes, the contents of a freshly zeroed buffer. */
  function Zeros(n: nat): (r: seq<byte>)
    ensures |r| == n && forall i :: 0 <= i < n ==> r[i] == 0
  {
    seq<byte>(n, i => 0)
  }

  /** The number whose little-endian image is `s`. */
  function FromLE(s: seq<byte>): nat {
    if |s| == 0 then 0 else s[0] + 256 * FromLE(s[1..])
  }

  /** The `n`-byte little-endian image of `x` modulo 256^n. */
  function ToLE(x: nat, n: nat): (r: seq<byte>)
    ensures |r| == n
  {
    if n == 0 then [] else [x % 256] + ToLE(x / 256, n - 1)
  }

  lemma {:induction false} FromLEBound(s: seq<byte>)
    ensures FromLE(s) < Pow256(|s|)
    decreases |s|
  {
    if |s| > 0 {
      FromLEBound(s[1..]);
    }
  }

  /** Decoding an image gives the number back ... */
  lemma {:induction false} FromToLE(x: nat, n: nat)
    requires x < Pow256(n)
    ensures FromLE(ToLE(x, n)) == x
    decreases n
  {
    if n > 0 {
      FromToLE(x / 256, n - 1);
      assert ToLE(x, n)[1..] == ToLE(x / 256, n - 1);
    }
  }

  /** ... and encoding a decoded image gives the bytes back. */
  lemma {:induction false} ToFromLE(s: seq<byte>)
    ensures ToLE(FromLE(s), |s|) == s
    decreases |s|
  {
    if |s| > 0 {
      ToFromLE(s[1..]);
      assert FromLE(s) % 256 == s[0] && FromLE(s) / 256 == FromLE(s[1..]);
    }
  }

  /** A zero byte at the most significant end adds nothing. */
  lemma {:induction false} FromLETrailingZero(s: seq<byte>)
    ensures FromLE(s + [0]) == FromLE(s)
    decreases |s|
  {
    if |s| > 0 {
      assert (s + [0])[1..] == s[1..] + [0];
      FromLETrailingZero(s[1..]);
    } else {
      assert FromLE([0]) == 0 + 256 * FromLE([]);
    }
  }

  /** A nonzero most significant byte puts the value at or above 256^(n-1). */
  lemma {:induction false} FromLETopByte(s: seq<byte>)
    requires |s| > 0 && s[|s| - 1] != 0
    ensures FromLE(s) >= Pow256(|s| - 1)
    decreases |s|
  {
    if |s| > 1 {
      FromLETopByte(s[1..]);
    }
  }

  /** `u32::to_le_bytes`. */
  function U32Bytes(x: u32): Bytes4 {
    ToLE(x, 4)
  }

  /** `u32::from_le_bytes`. */
  function U32FromBytes(b: Bytes4): (r: u32) {
    FromLEBound(b);
    Pow256Values();
    FromLE(b)
  }

  /** `i32::to_le_bytes`: the image of the two's complement bit pattern. */
  function I32Bytes(v: i32): Bytes4 {
    ToLE(if v < 0 then v + U32_LIMIT else v, 4)
  }

  /** `i32::from_le_bytes`. */
  function I32FromBytes(b: Bytes4): i32 {
    U32AsI32(U32FromBytes(b))
  }

  lemma U32RoundTrip(x: u32, b: Bytes4)
    ensures U32FromBytes(U32Bytes(x)) == x
    ensures U32Bytes(U32FromBytes(b)) == b
  {
    Pow256Values();
    FromToLE(x, 4);
    ToFromLE(b);
  }

  lemma I32RoundTrip(v: i32, b: Bytes4)
    ensures I32FromBytes(I32Bytes(v)) == v
    ensures I32Bytes(I32FromBytes(b)) == b
  {
    Pow256Values();
    FromToLE(if v < 0 then v + U32_LIMIT else v, 4);
    ToFromLE(b);
  }
}
