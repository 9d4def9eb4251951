/**
 * The calibration store of the older firmware (src/nonvolatile.rs): an array of 4-byte
 * registers, one per register kind, cached in RAM with a dirty flag, over one flash page that
 * holds the registers at its start and a checksum of them in its last four bytes. The checksum
 * (CRC-32C in the firmware) is an uninterpreted function here.
 */
module Nonvolatile {
  import opened Ints
  import Float32
  import LittleEndian
  import Flash
  import Weight

  const MIN_ADDR: nat := 0xDF000
  const MAX_ADDR: nat := 0xE0000
  const CHECKSUM_ADDR: nat := MAX_ADDR - 4

  /** A value to store, tagged with the register it goes to. */
  datatype RegisterWrite = CalibrationM(m: Float32.F32) | CalibrationB(b: i32)

  /** The register kinds (`RegisterRead`, the discriminants of `RegisterWrite`), in declaration order. */
  datatype RegisterRead = CalibrationMRegister | CalibrationBRegister

  /** `RegisterRead::COUNT`. */
  const COUNT: nat := 2

  /** `RegisterRead::iter()`: every register kind, in declaration order. */
  const REGISTERS: seq<RegisterRead> := [CalibrationMRegister, CalibrationBRegister]

  /** `RegisterRead::from`: the register a write goes to. */
  function Register(w: RegisterWrite): RegisterRead {
    match w
    case CalibrationM(_) => CalibrationMRegister
    case CalibrationB(_) => CalibrationBRegister
  }

  /** `RegisterRead::address`: the register's discriminant, which is its place in declaration order. */
  function Address(r: RegisterRead): (a: nat)
    ensures a < COUNT && REGISTERS[a] == r
  {
    match r
    case CalibrationMRegister => 0
    case CalibrationBRegister => 1
  }

  /** Distinct registers live at distinct cache slots, and every slot is some register's. */
  lemma AddressBijective(r1: RegisterRead, r2: RegisterRead, a: nat)
    requires a < COUNT
    ensures Address(r1) == Address(r2) ==> r1 == r2
    ensures Address(REGISTERS[a]) == a
  {
  }

  /** `to_bytes`: the f32's bytes or the i32's little-endian bytes. */
  function ToBytes(w: RegisterWrite): LittleEndian.Bytes4 {
    match w
    case CalibrationM(m) => m
    case CalibrationB(b) => LittleEndian.I32Bytes(b)
  }

  /** `RegisterRead::default`: the default calibration constant, as a write to this register. */
  function Default(r: RegisterRead): (w: RegisterWrite)
    ensures Register(w) == r
  {
    match r
    case CalibrationMRegister => CalibrationM(Weight.DEFAULT_CALIBRATION_M)
    case CalibrationBRegister => CalibrationB(Weight.DEFAULT_CALIBRATION_B)
  }

  /** The register page's layout, the one check of the source's tests: registers and checksum fit. */
  lemma PageLayout()
    ensures 4 * (COUNT + 1) <= MAX_ADDR - MIN_ADDR
    ensures MAX_ADDR - MIN_ADDR == Flash.PAGE_SIZE && CHECKSUM_ADDR == MIN_ADDR + Flash.PAGE_SIZE - 4
  {
  }

  /** The cache after every register has been given its default. */
  function DefaultCache(): (c: seq<LittleEndian.Bytes4>)
    ensures |c| == COUNT
    ensures forall a :: 0 <= a < COUNT ==> c[a] == ToBytes(Default(REGISTERS[a]))
  {
    [Weight.DEFAULT_CALIBRATION_M, LittleEndian.I32Bytes(Weight.DEFAULT_CALIBRATION_B)]
  }

  /** `bytemuck::cast_slice` of the cache: the registers' bytes one after the other. */
  function CacheBytes(c: seq<LittleEndian.Bytes4>): (r: seq<byte>)
    requires |c| == COUNT
    ensures |r| == 4 * COUNT
  {
    var first: seq<byte> := c[0];
    first + c[1]
  }

  /** `bytemuck::cast` of the bytes read from flash into registers. */
  function CacheFromBytes(s: seq<byte>): (c: seq<LittleEndian.Bytes4>)
    requires |s| == 4 * COUNT
    ensures |c| == COUNT
  {
    [s[..4], s[4..]]
  }

  lemma CacheRoundTrip(c: seq<LittleEndian.Bytes4>, s: seq<byte>)
    requires |c| == COUNT && |s| == 4 * COUNT
    ensures CacheFromBytes(CacheBytes(c)) == c
    ensures CacheBytes(CacheFromBytes(s)) == s
  {
    assert CacheBytes(c)[..4] == c[0] && CacheBytes(c)[4..] == c[1];
    assert s[..4] + s[4..] == s;
  }

  /** The registers `new` reads from a page, before it looks at the checksum. */
  function StoredCache(page: seq<byte>): seq<LittleEndian.Bytes4>
    requires |page| == Flash.PAGE_SIZE
  {
    CacheFromBytes(page[..4 * COUNT])
  }

  predicate ChecksumMatches(page: seq<byte>, checksum: seq<byte> -> LittleEndian.Bytes4)
    requires |page| == Flash.PAGE_SIZE
  {
    page[Flash.PAGE_SIZE - 4..] == checksum(page[..4 * COUNT])
  }

  /** The page `flush` leaves behind: erased, then the registers and then their checksum written. */
  function FlushedPage(c: seq<LittleEndian.Bytes4>, checksum: seq<byte> -> LittleEndian.Bytes4): (r: seq<byte>)
    requires |c| == COUNT
    ensures |r| == Flash.PAGE_SIZE
  {
    var raw := CacheBytes(c);
    Flash.Programmed(Flash.Programmed(Flash.Erased(), 0, raw), Flash.PAGE_SIZE - 4, checksum(raw))
  }

  /** A flushed page passes the checksum test, and its registers are the flushed cache. */
  lemma LoadFlushed(c: seq<LittleEndian.Bytes4>, checksum: seq<byte> -> LittleEndian.Bytes4)
    requires |c| == COUNT
    ensures ChecksumMatches(FlushedPage(c, checksum), checksum)
    ensures StoredCache(FlushedPage(c, checksum)) == c
  {
    var raw := CacheBytes(c);
    Flash.ProgrammedErased(0, raw, Flash.PAGE_SIZE - 4, checksum(raw));
    var page := FlushedPage(c, checksum);
    assert page[..4 * COUNT] == raw;
    CacheRoundTrip(c, raw);
  }

  class Nvm {
    const flash: Flash.Flash
    const checksum: seq<byte> -> LittleEndian.Bytes4
    const cache: array<LittleEndian.Bytes4>
    var dirty: bool

    ghost predicate Valid()
      reads this, flash
    {
      cache.Length == COUNT && flash.Valid() && flash.base == MIN_ADDR
    }

    /**
     * `new`: reads the registers and the stored checksum. If the checksum matches, the cache
     * is what was stored and nothing is dirty; otherwise every register is written with its
     * default, in declaration order, which leaves the cache dirty.
     */
    constructor (flash: Flash.Flash, checksum: seq<byte> -> LittleEndian.Bytes4)
      requires flash.Valid() && flash.base == MIN_ADDR
      ensures this.flash == flash && this.checksum == checksum && Valid() && fresh(cache)
      ensures ChecksumMatches(flash.page, checksum) ==> cache[..] == StoredCache(flash.page) && !dirty
      ensures !ChecksumMatches(flash.page, checksum) ==> cache[..] == DefaultCache() && dirty
    {
      this.flash := flash;
      this.checksum := checksum;
      PageLayout();
      var raw := flash.Read(MIN_ADDR, 4 * COUNT);
      var storedChecksum := flash.Read(CHECKSUM_ADDR, 4);
      var loadDefaults := storedChecksum != checksum(raw);
      assert raw == flash.page[..4 * COUNT] && storedChecksum == flash.page[Flash.PAGE_SIZE - 4..];
      var stored := CacheFromBytes(raw);
      cache := new LittleEndian.Bytes4[COUNT](a requires 0 <= a < COUNT => stored[a]);
      dirty := false;
      new;
      assert cache[..] == stored;
      if loadDefaults {
        for i := 0 to |REGISTERS|
          invariant Valid() && dirty == (i > 0)
          invariant forall a :: 0 <= a < i ==> cache[a] == DefaultCache()[a]
        {
          Write(Default(REGISTERS[i]));
        }
        assert cache[..] == DefaultCache();
      }
    }

    /** `write`: the register's slot gets the value's bytes and the cache is dirty. */
    method Write(reg: RegisterWrite)
      requires Valid()
      modifies this, cache
      ensures Valid() && dirty
      ensures cache[..] == old(cache[..])[Address(Register(reg)) := ToBytes(reg)]
      ensures Read(Register(reg)) == ToBytes(reg)
      ensures forall r :: r != Register(reg) ==> Read(r) == old(Read(r))
    {
      cache[Address(Register(reg))] := ToBytes(reg);
      dirty := true;
    }

    /**
     * `read`: the cached bytes of the register; flash is not read. They are the bytes a flush
     * stores at the register's address, so a reload reads them back from the page.
     */
    function Read(reg: RegisterRead): (r: LittleEndian.Bytes4)
      reads this, cache
      requires cache.Length == COUNT
      ensures var a := Address(reg); r == FlushedPage(cache[..], checksum)[4 * a..4 * a + 4]
    {
      LoadFlushed(cache[..], checksum);
      cache[Address(reg)]
    }

    /**
     * `flush`: nothing unless the cache is dirty. Otherwise the page is erased, the registers are
     * written at its start and their checksum in its last word, in that order. The dirty flag
     * is never cleared.
     */
    method Flush()
      requires Valid()
      modifies flash
      ensures Valid()
      ensures !dirty ==> flash.page == old(flash.page) && flash.log == old(flash.log)
      ensures dirty ==> flash.page == FlushedPage(cache[..], checksum)
      ensures dirty ==>
        var raw := CacheBytes(cache[..]);
        flash.log == old(flash.log) + [Flash.Erase(MIN_ADDR, MAX_ADDR),
                                       Flash.Write(MIN_ADDR, raw),
                                       Flash.Write(CHECKSUM_ADDR, checksum(raw))]
    {
      if !dirty {
        return;
      }
      PageLayout();
      var raw := CacheBytes(cache[..]);
      var ck := checksum(raw);
      flash.Erase(MIN_ADDR, MAX_ADDR);
      flash.Write(MIN_ADDR, raw);
      flash.Write(CHECKSUM_ADDR, ck);
    }
  }
}
