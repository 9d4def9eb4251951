/**
 * `write_calibration` of src/weight/mod.rs: storing new calibration constants. The source calls
 * `write_cal_m` and `write_cal_b`, which only the struct-cache NVM driver provides, so the
 * constants go to that driver here. (It needs the NVM, which needs the default constants
 * declared with the rest of the weight vocabulary, hence a module of its own.)
 */
module WeightCalibration {
  import opened Ints
  import Float32
  import Flash
  import HangmanNonvolatile

  /**
   * m and then b go to the cache and the cache is flushed: afterwards the driver reads back the
   * new constants, the page holds them, and loading the page again (after a reset) gives them.
   */
  method WriteCalibration(nvm: HangmanNonvolatile.Nvm, m: Float32.F32, b: i32)
    requires nvm.Valid()
    modifies nvm, nvm.flash
    ensures nvm.Valid() && nvm.dirty
    ensures nvm.cache == HangmanNonvolatile.Cache(m, b)
    ensures nvm.ReadCalM() == m && nvm.ReadCalB() == b
    ensures nvm.flash.page == HangmanNonvolatile.FlushedPage(nvm.cache, nvm.checksum)
    ensures HangmanNonvolatile.LoadedCache(nvm.flash.page, nvm.checksum) == HangmanNonvolatile.Cache(m, b)
    ensures var raw := HangmanNonvolatile.CacheBytes(nvm.cache);
      nvm.flash.log == old(nvm.flash.log) + [Flash.Erase(HangmanNonvolatile.MinAddr(nvm.chip), HangmanNonvolatile.MaxAddr(nvm.chip)),
                                             Flash.Write(HangmanNonvolatile.MinAddr(nvm.chip), raw),
                                             Flash.Write(HangmanNonvolatile.ChecksumAddr(nvm.chip), nvm.checksum(raw))]
  {
    nvm.WriteCalM(m);
    nvm.WriteCalB(b);
    nvm.Flush();
    HangmanNonvolatile.LoadFlushed(nvm.cache, nvm.checksum);
  }
}
