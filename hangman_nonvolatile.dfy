/**
 * The calibration store of the later firmware (hangman/src/nonvolatile.rs): a packed struct of
 * the two calibration constants, cached in RAM with a dirty flag, over one flash page that holds
 * the struct at its start and a checksum of the struct in its last four bytes. The checksum
 * (CRC-32C in the firmware) is an uninterpreted function here.
 */
module HangmanNonvolatile {
  import opened Ints
  import Float32
  import LittleEndian
  import Flash
  import Weight

  /** The two boards: the page is placed differently on the two chips' flash. */
  datatype Chip = Nrf52840 | Nrf52832

  function MinAddr(chip: Chip): nat {
    match chip
    case Nrf52840 => 0xDF000
    case Nrf52832 => 0x3F000
  }

  function MaxAddr(chip: Chip): nat {
    match chip
    case Nrf52840 => 0xE0000
    case Nrf52832 => 0x40000
  }

  function ChecksumAddr(chip: Chip): nat {
    MaxAddr(chip) - 4
  }

  /** The size of the packed struct. */
  const CACHE_SIZE: nat := 8
  /** Where the checksum sits, counted from the start of the page. */
  const CHECKSUM_OFFSET: nat := Flash.PAGE_SIZE - 4

  /** On both chips the reserved range is one page, with the checksum in its last word. */
  lemma PageLayout(chip: Chip)
    ensures MaxAddr(chip) - MinAddr(chip) == Flash.PAGE_SIZE
    ensures ChecksumAddr(chip) == MinAddr(chip) + CHECKSUM_OFFSET
    ensures CACHE_SIZE <= CHECKSUM_OFFSET && MinAddr(chip) % Flash.PAGE_SIZE == 0
  {
  }

  datatype Cache = Cache(calibrationM: Float32.F32, calibrationB: i32)

  /** `Cache::default`: the firmware's default calibration. */
  const DEFAULT_CACHE: Cache := Cache(Weight.DEFAULT_CALIBRATION_M, Weight.DEFAULT_CALIBRATION_B)

  /** `bytemuck::bytes_of` the packed struct: the f32's bytes, then the i32's little-endian bytes. */
  function CacheBytes(c: Cache): (r: seq<byte>)
    ensures |r| == CACHE_SIZE
  {
    c.calibrationM + LittleEndian.I32Bytes(c.calibrationB)
  }

  /** Reading the struct out of the bytes it is stored as. */
  function CacheFromBytes(s: seq<byte>): Cache
    requires |s| == CACHE_SIZE
  {
    Cache(s[..4], LittleEndian.I32FromBytes(s[4..]))
  }

  lemma CacheRoundTrip(c: Cache, s: seq<byte>)
    requires |s| == CACHE_SIZE
    ensures CacheFromBytes(CacheBytes(c)) == c
    ensures CacheBytes(CacheFromBytes(s)) == s
  {
    var bytes := CacheBytes(c);
    assert bytes[..4] == c.calibrationM && bytes[4..] == LittleEndian.I32Bytes(c.calibrationB);
    LittleEndian.I32RoundTrip(c.calibrationB, s[4..]);
    assert s[..4] + s[4..] == s;
  }

  /**
   * The cache `new` builds from a page: the stored struct when the stored checksum is the
   * checksum of the stored struct, otherwise the defaults.
   */
  function LoadedCache(page: seq<byte>, checksum: seq<byte> -> LittleEndian.Bytes4): Cache
    requires |page| == Flash.PAGE_SIZE
  {
    var stored := page[..CACHE_SIZE];
    if page[CHECKSUM_OFFSET..] == checksum(stored) then CacheFromBytes(stored) else DEFAULT_CACHE
  }

  /** The page that `flush` leaves behind: erased, then the struct and then its checksum written. */
  function FlushedPage(c: Cache, checksum: seq<byte> -> LittleEndian.Bytes4): (r: seq<byte>)
    ensures |r| == Flash.PAGE_SIZE
  {
    var raw := CacheBytes(c);
    Flash.Programmed(Flash.Programmed(Flash.Erased(), 0, raw), CHECKSUM_OFFSET, checksum(raw))
  }

  /** Loading a flushed page gives back exactly the cache that was flushed. */
  lemma LoadFlushed(c: Cache, checksum: seq<byte> -> LittleEndian.Bytes4)
    ensures LoadedCache(FlushedPage(c, checksum), checksum) == c
  {
    var raw := CacheBytes(c);
    Flash.ProgrammedErased(0, raw, CHECKSUM_OFFSET, checksum(raw));
    var page := FlushedPage(c, checksum);
    assert page[..CACHE_SIZE] == raw;
    assert page[CHECKSUM_OFFSET..] == checksum(raw);
    CacheRoundTrip(c, raw);
  }

  /** A flushed page starts with the packed struct. */
  lemma FlushedPrefix(c: Cache, checksum: seq<byte> -> LittleEndian.Bytes4)
    ensures FlushedPage(c, checksum)[..CACHE_SIZE] == CacheBytes(c)
    ensures FlushedPage(c, checksum)[..4] == c.calibrationM
    ensures FlushedPage(c, checksum)[4..CACHE_SIZE] == LittleEndian.I32Bytes(c.calibrationB)
  {
    var raw := CacheBytes(c);
    Flash.ProgrammedErased(0, raw, CHECKSUM_OFFSET, checksum(raw));
    var page := FlushedPage(c, checksum);
    assert page[..CACHE_SIZE] == raw;
    assert page[..4] == raw[..4] == c.calibrationM;
    assert page[4..CACHE_SIZE] == raw[4..] == LittleEndian.I32Bytes(c.calibrationB);
  }

  class Nvm {
    const flash: Flash.Flash
    const chip: Chip
    const checksum: seq<byte> -> LittleEndian.Bytes4
    var cache: Cache
    var dirty: bool

    ghost predicate Valid()
      reads this, flash
    {
      flash.Valid() && flash.base == MinAddr(chip)
    }

    /**
     * `new`: reads the struct and the stored checksum; on a mismatch the cache is the default.
     * Either way nothing is dirty, so the defaults are not written back.
     */
    constructor (flash: Flash.Flash, chip: Chip, checksum: seq<byte> -> LittleEndian.Bytes4)
      requires flash.Valid() && flash.base == MinAddr(chip)
      ensures this.flash == flash && this.chip == chip && this.checksum == checksum && Valid()
      ensures cache == LoadedCache(flash.page, checksum) && !dirty
    {
      this.flash := flash;
      this.chip := chip;
      this.checksum := checksum;
      PageLayout(chip);
      var raw := flash.Read(MinAddr(chip), CACHE_SIZE);
      var storedChecksum := flash.Read(ChecksumAddr(chip), 4);
      var loadDefaults := storedChecksum != checksum(raw);
      assert raw == flash.page[..CACHE_SIZE] && storedChecksum == flash.page[CHECKSUM_OFFSET..];
      cache := CacheFromBytes(raw);
      dirty := false;
      if loadDefaults {
        cache := DEFAULT_CACHE;
      }
    }

    /** `write_cal_m`: replaces m only, and marks the cache dirty. */
    method WriteCalM(value: Float32.F32)
      modifies this
      ensures cache == old(cache).(calibrationM := value) && dirty
    {
      cache := cache.(calibrationM := value);
      dirty := true;
    }

    /** `read_cal_m`: the cached m; flash is not read. These are the first four bytes a flush stores. */
    function ReadCalM(): (r: Float32.F32)
      reads this
      ensures r == FlushedPage(cache, checksum)[..4]
    {
      FlushedPrefix(cache, checksum);
      cache.calibrationM
    }

    /** `write_cal_b`: replaces b only, and marks the cache dirty. */
    method WriteCalB(value: i32)
      modifies this
      ensures cache == old(cache).(calibrationB := value) && dirty
    {
      cache := cache.(calibrationB := value);
      dirty := true;
    }

    /** `read_cal_b`: the cached b, the little-endian i32 a flush stores in bytes 4 to 8. */
    function ReadCalB(): (r: i32)
      reads this
      ensures r == LittleEndian.I32FromBytes(FlushedPage(cache, checksum)[4..CACHE_SIZE])
    {
      FlushedPrefix(cache, checksum);
      LittleEndian.I32RoundTrip(cache.calibrationB, FlushedPage(cache, checksum)[4..CACHE_SIZE]);
      cache.calibrationB
    }

    /**
     * `flush`: nothing unless the cache is dirty. Otherwise the page is erased, the struct is
     * written at its start and its checksum in its last word, in that order. The dirty flag is
     * left as it is.
     */
    method Flush()
      requires Valid()
      modifies flash
      ensures Valid()
      ensures !dirty ==> flash.page == old(flash.page) && flash.log == old(flash.log)
      ensures dirty ==> flash.page == FlushedPage(cache, checksum)
      ensures dirty ==>
        var raw := CacheBytes(cache);
        flash.log == old(flash.log) + [Flash.Erase(MinAddr(chip), MaxAddr(chip)),
                                       Flash.Write(MinAddr(chip), raw),
                                       Flash.Write(ChecksumAddr(chip), checksum(raw))]
    {
      if !dirty {
        return;
      }
      PageLayout(chip);
      var raw := CacheBytes(cache);
      var ck := checksum(raw);
      flash.Erase(MinAddr(chip), MaxAddr(chip));
      flash.Write(MinAddr(chip), raw);
      flash.Write(ChecksumAddr(chip), ck);
    }
  }
}
