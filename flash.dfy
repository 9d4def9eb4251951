/**
 * The one 4 KiB page of on-chip NOR flash that both NVM drivers reserve, as the SoftDevice's
 * flash interface presents it: reads of any range, an erase that sets every byte to 0xFF, and
 * writes that can only clear bits (each byte becomes old AND new). Transfers are 4-byte words.
 * `log` records the erase and write operations in the order they are issued.
 */
module Flash {
  import opened Ints
  import opened Bits

  const PAGE_SIZE: nat := 0x1000
  const WORD_SIZE: nat := 4

  datatype Op = Erase(from: nat, to: nat) | Write(address: nat, data: seq<byte>)

  lemma {:induction false} AndAtMost(a: nat, b: nat)
    ensures And(a, b) <= a
    decreases a + b
  {
    if a != 0 && b != 0 {
      AndAtMost(a / 2, b / 2);
    }
  }

  /** Programming one byte: bits that are 0 in either stay 0; on an erased byte it stores `b`. */
  function AndByte(a: byte, b: byte): (r: byte)
    ensures a == 0xFF ==> r == b
  {
    AndAtMost(a, b);
    AndErased(b);
    And(a, b)
  }

  lemma AndErased(b: byte)
    ensures And(0xFF, b) == b
  {
    Pow2Values();
    AndOnes(8, b);
  }

  /** The page with every byte erased. */
  function Erased(): (r: seq<byte>)
    ensures |r| == PAGE_SIZE && forall i :: 0 <= i < PAGE_SIZE ==> r[i] == 0xFF
  {
    seq<byte>(PAGE_SIZE, _ => 0xFF)
  }

  /** The page after `data` is programmed at byte `offset`. */
  function Programmed(page: seq<byte>, offset: nat, data: seq<byte>): (r: seq<byte>)
    requires offset + |data| <= |page|
    ensures |r| == |page|
    ensures forall i :: 0 <= i < |page| && !(offset <= i < offset + |data|) ==> r[i] == page[i]
    ensures forall i :: 0 <= i < |data| ==> r[offset + i] == AndByte(page[offset + i], data[i])
  {
    page[..offset]
      + seq<byte>(|data|, i requires 0 <= i < |data| => AndByte(page[offset + i], data[i]))
      + page[offset + |data|..]
  }

  /**
   * Programming two disjoint ranges of an erased page stores exactly the two pieces of data
   * and leaves everything else erased.
   */
  lemma ProgrammedErased(o1: nat, d1: seq<byte>, o2: nat, d2: seq<byte>)
    requires o1 + |d1| <= o2 && o2 + |d2| <= PAGE_SIZE
    ensures var p := Programmed(Programmed(Erased(), o1, d1), o2, d2);
      && p[o1..o1 + |d1|] == d1
      && p[o2..o2 + |d2|] == d2
      && forall i :: 0 <= i < PAGE_SIZE && !(o1 <= i < o1 + |d1|) && !(o2 <= i < o2 + |d2|) ==> p[i] == 0xFF
  {
    var p1 := Programmed(Erased(), o1, d1);
    var p := Programmed(p1, o2, d2);
    assert p[o1..o1 + |d1|] == d1 by {
      forall i | 0 <= i < |d1|
        ensures p[o1 + i] == d1[i]
      {
        assert p1[o1 + i] == AndByte(0xFF, d1[i]);
      }
    }
    assert p[o2..o2 + |d2|] == d2 by {
      forall i | 0 <= i < |d2|
        ensures p[o2 + i] == d2[i]
      {
        assert p1[o2 + i] == 0xFF;
      }
    }
  }

  class Flash {
    /** The address of the first byte of the page. */
    const base: nat
    var page: seq<byte>
    ghost var log: seq<Op>

    ghost predicate Valid()
      reads this
    {
      |page| == PAGE_SIZE
    }

    /** The page as the firmware finds it at boot. */
    constructor (base: nat, page: seq<byte>)
      requires |page| == PAGE_SIZE
      ensures this.base == base && this.page == page && log == [] && Valid()
    {
      this.base := base;
      this.page := page;
      log := [];
    }

    /** `read`: the bytes at `address .. address + length`, which must lie on the page. */
    function Read(address: nat, length: nat): (r: seq<byte>)
      reads this
      requires Valid()
      requires base <= address && address + length <= base + PAGE_SIZE
      ensures |r| == length
      ensures forall i :: 0 <= i < length ==> r[i] == page[address - base + i]
    {
      page[address - base..address - base + length]
    }

    /** `erase(base, base + PAGE_SIZE)`: the whole page reads 0xFF. */
    method Erase(from: nat, to: nat)
      requires Valid()
      requires from == base && to == base + PAGE_SIZE
      modifies this
      ensures Valid() && page == Erased()
      ensures log == old(log) + [Op.Erase(from, to)]
    {
      page := Erased();
      log := log + [Op.Erase(from, to)];
    }

    /** `write`: whole words at a word-aligned address on the page are programmed. */
    method Write(address: nat, data: seq<byte>)
      requires Valid()
      requires base <= address && address + |data| <= base + PAGE_SIZE
      requires (address - base) % WORD_SIZE == 0 && |data| % WORD_SIZE == 0
      modifies this
      ensures Valid() && page == Programmed(old(page), address - base, data)
      ensures log == old(log) + [Op.Write(address, data)]
    {
      page := Programmed(page, address - base, data);
      log := log + [Op.Write(address, data)];
    }
  }
}
