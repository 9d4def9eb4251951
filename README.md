# hangman: a verified model of the load-cell dongle firmware

The hangman firmware runs on an nRF52 BLE dongle that reads a load cell through an HX711 or
ADS1230 ADC. It turns raw conversions into weights and reports them to a phone as notifications
of the Tindeq Progressor GATT service. The repository holds two revisions side by side: an older
`src/` tree, and a newer `hangman/` tree with its `hangman_utils/` library. This project models the
deterministic core of both revisions in Dafny, with one module per modelled source file, plus
shared helper modules:

- The sign extension of 20- and 24-bit ADC words (`Util`, `HangmanUtils`, and
  `ConvertI24ToI32` in `Hx711Legacy` and `WeightHx711`).
- The bit-banged ADC drivers.
  - The first HX711 driver (`Hx711Legacy`), the HX711 sample producer (`WeightHx711`) and the
    ADS1230 sample producer (`WeightAds1230`).
  - They share the DOUT/SCLK pin model in `ShiftIn` and the bounded "skip a spurious −1" rule
    in `Retry`.
- The sample pipeline of src/weight: the ADC (`Weight.Adc`), the median filter, the calibrator,
  the tarer, and the windowed averagers (`Median`, `Calibrate`, `Tare`, `Average`). `Stream`
  describes what a pipeline will deliver next.
- Two-point factory calibration, in the older unchecked form (`FactoryCalibration`) and the
  later `checked_sub` form (`TwoPointCal`).
- The checksum-guarded calibration store in one page of flash.
  - The older register array (`Nonvolatile`) and the later packed struct (`HangmanNonvolatile`).
  - Both sit over a NOR flash page (`Flash`) whose writes can only clear bits. The page keeps a log
    of the erase and write operations issued to it.
- The measurement task's state machine, in three revisions.
  - `WeightTaskLegacy` models src/weight.rs.
  - `WeightTask` models src/weight/task.rs.
  - `HangmanWeightTask` models hangman/src/weight/task.rs.
  - `MeasurementClock` holds their shared elapsed-time rule, and `WeightCalibration` holds
    `write_calibration`.
- The Progressor wire codecs: `Gatt` (src/gatt.rs), `GattTypes` (src/ble/gatt_types.rs) and
  `HangmanGattTypes` (hangman/src/ble/gatt_types.rs), over the little-endian helpers in
  `LittleEndian`.
- The battery thresholds of the later revision (`HangmanBattery`), over a set-once cell
  (`OnceCell`).

How values and state are represented:

- Stateful driver objects are classes whose methods update their fields.
- Tables and codecs are functions over datatypes.
- An f32 used in arithmetic is a `real`. An f32 that is stored or transmitted is its four bytes
  (`Float32.F32`). The task modules convert between the two through a `Float32.Codec` parameter.
- Integer widths are explicit, and an i32 subtraction that the source does not check wraps
  (`Ints.WrapI32`).

## Model

| member | source | states |
|---|---|---|
| HangmanUtils.ConvertSignedToI32 | hangman_utils/src/lib.rs:23-30 | For an input below 2^BITS: the result is negative exactly when bit BITS−1 is set. It equals the input when that bit is clear and input − 2^BITS when it is set, so it lies in [−2^(BITS−1), 2^(BITS−1)). |
| HangmanUtils.DecodeEncode | hangman_utils/src/lib.rs:23-30 | Every value of the signed BITS-bit range is recovered from its BITS-bit two's-complement word. |
| HangmanUtils.EncodeDecode | hangman_utils/src/lib.rs:23-30 | The result reduced modulo 2^BITS is the input again. |
| HangmanUtils.Bits20Vectors | hangman_utils/src/lib.rs:37-47 | The 20-bit test vectors, from 0 through 0x7FFFF → 524287, 0x80000 → −524288, 0xFFFFF → −1 and 0xFFFFE → −2. |
| HangmanUtils.Bits24Vectors | hangman_utils/src/lib.rs:50-60 | The 24-bit test vectors, from 0 through 0x7FFFFF → 8388607, 0x800000 → −8388608, 0x800001 → −8388607 and 0xFFFFFF → −1. |
| Util.ConvertSignedToI32 | src/util.rs:18-25 | The same sign extension in the older tree: unchanged below the sign bit; otherwise the bits above BITS are filled, giving input − 2^BITS. |
| Util.DecodeEncode | src/util.rs:18-25 | Every signed BITS-bit value is recovered from its two's-complement word. |
| Util.EncodeDecode | src/util.rs:18-25 | The result reduced modulo 2^BITS is the input. |
| Util.Bits20Vectors | src/util.rs:34-44 | The 20-bit test vectors hold. |
| Util.Bits24Vectors | src/util.rs:47-57 | The 24-bit test vectors hold. |
| Hx711Legacy.ConvertI24ToI32 | src/hx711.rs:104-110 | For a 24-bit word, the result is negative exactly when bit 23 is set, and it is the word's signed 24-bit value. |
| Hx711Legacy.I24SignFill | src/hx711.rs:104-110 | The test `input & (1 << 23) != 0` is bit 23, which for a 24-bit word means the word is at least 2^23. OR-ing in 0xFF000000 then adds 0xFF000000 without leaving u32. |
| Hx711Legacy.ConvertVectors | src/hx711.rs:118-128 | The listed vectors, e.g. 0x800000 → −8388608 and 0xFFFFFF → −1. |
| Hx711Legacy.Reading | src/hx711.rs:59-101 | The value of one read of DOUT lies in the signed 24-bit range. |
| Hx711Legacy.ReadingDecodes | src/hx711.rs:71-80 | The word assembled from 24 sampled bits is below 2^24. |
| Hx711Legacy.RawWordBits | src/hx711.rs:71-80 | Bit i of the assembled word is set exactly when sample 23 − i was high (MSB first). |
| Hx711Legacy.Hx711.constructor | src/hx711.rs:35-43 | A new driver is Off and not powered, with the clock line held high and no pulses issued. |
| Hx711Legacy.Hx711.IsPowered | src/hx711.rs:45-47 | True exactly in the On state, which only PowerUp sets. |
| Hx711Legacy.Hx711.PowerDown | src/hx711.rs:49-52 | The state becomes Off, `is_powered` is false and the clock is high. |
| Hx711Legacy.Hx711.PowerUp | src/hx711.rs:54-57 | The state becomes On, `is_powered` is true and the clock is low. |
| Hx711Legacy.Hx711.TakeMeasurement | src/hx711.rs:59-101 | It gives None exactly when Off, consuming nothing. Otherwise it gives the converted value of the next 24 bits, with no −1 retry: 24 bits consumed and 25 clock pulses (one trailing pulse). |
| ShiftIn.WordBound | src/weight/hx711.rs:81-90 | An n-bit word assembled from DOUT samples is below 2^n. |
| ShiftIn.WordBit | src/weight/ads1230.rs:95-104 | Bit i of an n-bit word is the DOUT sample taken n − 1 − i clocks after the first. |
| ShiftIn.PlacedIsWord | src/weight/ads1230.rs:95-104 | OR-ing `1 << i` for each high sample, from i = n − 1 down to 0, gives exactly the MSB-first word, which fits in a u32. |
| ShiftIn.Pins.ShiftInBits | src/weight/hx711.rs:81-90 | The bit loop returns the MSB-first word of the next n samples, advancing DOUT by n and issuing n clock pulses. It ends with the clock low. |
| ShiftIn.Pins.ClockPulses | src/weight/ads1230.rs:114-119 | The follow-up loop issues exactly n pulses without sampling DOUT. |
| Retry.SkipsSpec | src/weight/hx711.rs:111-117 | At most 3 attempts are skipped, and every skipped attempt read −1. The returned attempt is not −1 unless all 3 skips were used, so at most 4 words are read. |
| Retry.SkipsStops | src/weight/hx711.rs:111-117 | A measurement that skipped n attempts and then stopped returns attempt n. This connects the driver loops to Skips. |
| WeightHx711.ConvertI24ToI32 | src/weight/hx711.rs:145-151 | Negative exactly when bit 23 is set; the signed 24-bit value of the word. |
| WeightHx711.I24SignFill | src/weight/hx711.rs:145-151 | The source's mask test is bit 23, and its OR adds 0xFF000000 for a 24-bit word. |
| WeightHx711.ConvertVectors | src/weight/hx711.rs:159-170 | The test vectors hold. |
| WeightHx711.Reading | src/weight/hx711.rs:79-109 | A converted reading lies in the signed 24-bit range. |
| WeightHx711.AttemptDecodes | src/weight/hx711.rs:79-109 | Attempt n is the signed value of the 24-bit word read at the n-th conversion. |
| WeightHx711.Hx711.constructor | src/weight/hx711.rs:35-47 | A new driver is Off, with no conversions read and the clock high. |
| WeightHx711.Hx711.IsPowered | src/weight/hx711.rs:49-51 | True exactly in the On state. |
| WeightHx711.Hx711.PowerDown | src/weight/hx711.rs:53-56 | Off, not powered, clock high; no conversion consumed. |
| WeightHx711.Hx711.PowerUp | src/weight/hx711.rs:58-63 | On, powered, clock low; no conversion consumed. |
| WeightHx711.Hx711.ReadConversion | src/weight/hx711.rs:72-104 | One loop pass reads one conversion. It comes with that conversion's ready time, and its value is attempt n; 24 bits and 25 pulses are used. |
| WeightHx711.Hx711.TakeMeasurement | src/weight/hx711.rs:65-119 | None exactly when Off, and then nothing is consumed and the clock pin keeps its level. Otherwise the sample is attempt j, where j attempts were skipped by the −1 rule. It is stamped with that conversion's ready time, after j+1 conversions, 24·(j+1) bits and 25·(j+1) pulses, and the clock ends low. |
| WeightHx711.Hx711.Sample | src/weight/hx711.rs:125-130 | Powers up if Off. The chip is then On and the measurement always yields a sample, the same one TakeMeasurement describes, with the same conversions, bits and pulses consumed. The clock ends low, so the chip stays powered. |
| WeightAds1230.AttemptPulsesProduct | src/weight/ads1230.rs:109-119 | Each attempt costs 20 data pulses plus the follow-up count, which is 1 for None, 6 for OffsetCalibration and 5 for StandbyAndOffsetCalibration. |
| WeightAds1230.Decode | src/weight/ads1230.rs:126-129 | A 20-bit word decodes into [−2^19, 2^19), negative exactly when its top bit is set. |
| WeightAds1230.DecodeIsConvert | src/weight/ads1230.rs:126-129 | Decode is `convert_signed_to_i32::<20>`. |
| WeightAds1230.AttemptDecodes | src/weight/ads1230.rs:93-129 | Attempt n is the decoded 20-bit word read MSB-first at conversion n, and that word is below 2^20. |
| WeightAds1230.Ads1230.constructor | src/weight/ads1230.rs:44-58 | A new driver is Off, with the clock high and no conversions read. |
| WeightAds1230.Ads1230.IsPowered | src/weight/ads1230.rs:60-62 | True exactly in the On state. |
| WeightAds1230.Ads1230.PowerDown | src/weight/ads1230.rs:64-68 | Off, clock high and VDDA enabled pin high. |
| WeightAds1230.Ads1230.PowerUp | src/weight/ads1230.rs:70-77 | On, clock low and VDDA pin low. |
| WeightAds1230.Ads1230.ReadConversion | src/weight/ads1230.rs:86-129 | One pass is 20 bits plus the follow-up pulses. After StandbyAndOffsetCalibration the chip is powered down (Off, clock high); otherwise the state is unchanged. |
| WeightAds1230.Ads1230.TakeMeasurement | src/weight/ads1230.rs:79-139 | None exactly when Off, and then nothing is consumed and the clock and analog-supply pins keep their levels. Otherwise it returns attempt j after j skipped −1 attempts, having used j+1 conversions, 20·(j+1) bits and the follow-up pulses of j+1 attempts. It ends Off, with the clock and analog-supply pins high, exactly for StandbyAndOffsetCalibration, and otherwise with the clock low and the supply pin as it was. |
| WeightAds1230.Ads1230.ImmediateOffsetCalibration | src/weight/ads1230.rs:141-143 | When Off, None and nothing changes. Otherwise the measurement of TakeMeasurement with six follow-up pulses per attempt: j+1 conversions, 20·(j+1) bits, the clock low and the supply pin as it was. The power state is as it was. |
| WeightAds1230.Ads1230.ScheduleOffsetCalibration | src/weight/ads1230.rs:145-148 | The chip always ends Off. From Off nothing else changes. From On, one measurement with five follow-up pulses per attempt was taken first: j+1 conversions and 20·(j+1) bits, ending with the clock and analog-supply pins high. |
| WeightAds1230.Ads1230.Sample | src/weight/ads1230.rs:154-159 | Powers up if needed, always uses the single follow-up pulse, and always yields the sample TakeMeasurement describes. It ends On with the clock low, and the analog-supply pin low after a power-up or as it was otherwise. |
| Weight.Init | src/weight/mod.rs:92-96 | From an unset rate, the rate is set once and `sampling_interval_hz` then returns it. |
| Weight.SamplingIntervalHz | src/weight/mod.rs:98-102 | The rate that `init` stored. A rate must have been stored, since the source's `expect` panics otherwise. |
| OnceCell.OnceCell.Set | src/weight/mod.rs:93-95 | Stores the value only into an empty cell, and reports whether it did; a set cell keeps its contents. |
| Weight.Adc.PowerUp | src/weight/hx711.rs:58-63 | The ADC is powered and no sample is consumed. |
| Weight.Adc.PowerDown | src/weight/hx711.rs:53-56 | The ADC is unpowered and no sample is consumed. |
| Weight.Adc.Sample | src/weight/hx711.rs:125-130 | Powers up if needed and returns the producer's next sample; the ADC is left powered and exactly one sample is consumed. `Adc` counts delivered samples, not conversions: the −1 retry beneath a sample is the drivers' (Retry.SkipsSpec). |
| Weight.LockedSample | src/weight/mod.rs:138-162 | Sampling through the mutex draws exactly one inner sample and returns it unchanged. |
| Median.Median.Sample | src/weight/median.rs:46-53 | The inner sample's value is consumed by the filter. Its timestamp is kept and the value is the filter's output over everything consumed. |
| Calibrate.Calibrate | src/weight/calibrate.rs:33-37 | When raw − b fits in i32 the result is (raw − b)·m. raw == b gives 0. |
| Calibrate.CalibrateAffine | src/weight/calibrate.rs:33-37 | In range, the difference of two calibrated values is the raw difference times m. |
| Calibrate.CalibratedAt | src/weight/calibrate.rs:46-55 | A calibrated sample keeps its inner timestamp and has the calibrated value of its inner reading. |
| Calibrate.Calibrator.constructor | src/weight/calibrate.rs:24-26 | Stores the producer, m and b. |
| Calibrate.Calibrator.SetCalibration | src/weight/calibrate.rs:28-31 | Replaces m and b and leaves the producer untouched. |
| Calibrate.Calibrator.Sample | src/weight/calibrate.rs:46-55 | Draws exactly one inner sample and returns its calibrated form with the same timestamp. |
| Tare.TaredAt | src/weight/tare.rs:53-58 | A tared sample keeps the inner timestamp, its value is the inner value minus the offset, and a zero offset gives the inner sample. |
| Tare.Tarer.constructor | src/weight/tare.rs:30-38 | The offset starts at zero. |
| Tare.Tarer.SetOffset | src/weight/tare.rs:40-42 | Replaces only the offset. |
| Tare.Tarer.Sample | src/weight/tare.rs:53-58 | Draws one calibrated sample and subtracts the offset from its value. |
| Average.SumBounds | src/weight/average.rs:22-33 | The sum of a window lies between its length times its minimum and its length times its maximum. |
| Average.MeanBounds | src/weight/average.rs:22-33 | A window's truncated mean lies between its minimum and maximum sample. |
| Average.MeanIsI32 | src/weight/average.rs:26-29 | The mean of i32 samples is an i32. |
| Average.SumFitsI64 | src/weight/average.rs:23-24 | The i64 accumulator of up to 2^32 i32 samples cannot overflow. |
| Average.WindowAveragerInt.constructor | src/weight/average.rs:16-19 | An averager starts with an empty window. |
| Average.WindowAveragerInt.Reset | src/weight/average.rs:35-37 | Accumulator and count return to zero. |
| Average.WindowAveragerInt.AddSample | src/weight/average.rs:22-33 | The sample is added to the accumulator and counted. While fewer than N are held the result is None. The N-th gives Some(the truncated mean of the window) and restarts the window. With N ≤ 1 every call returns the sample itself. |
| Average.WindowAveragerFloat.AddSample | src/weight/average.rs:47-58 | The same shape over reals: the N-th sample yields the window's mean and restarts the window. |
| Average.WindowAveragerFloat.Reset | src/weight/average.rs:60-62 | Accumulator and count return to zero. |
| Average.RealMeanConstant | src/weight/average.rs:47-58 | A window of equal values averages to that value. |
| FactoryCalibration.CalConstants | src/weight/factory_calibration.rs:49-58 | Some exactly when both points are present and the wrapped difference of readings is nonzero. Then b is the zero reading, and m times that difference is the weight (times the true difference when the subtraction does not overflow). |
| FactoryCalibration.GuardIsEquality | src/weight/factory_calibration.rs:52-55 | The divide-by-zero guard rejects exactly equal readings. |
| FactoryCalibration.OverflowCounterexample | src/weight/factory_calibration.rs:52-57 | Zero point i32::MIN and (100, 1) pass the guard, yet reading −1, between the two points, weighs −100. |
| FactoryCalibration.TwoPoint.constructor | src/weight/factory_calibration.rs:25-28 | Neither point is set. |
| FactoryCalibration.TwoPoint.AddPoint | src/weight/factory_calibration.rs:40-47 | A zero weight replaces the zero reading and keeps the other point. A nonzero weight replaces the other point and keeps the zero. |
| FactoryCalibration.TwoPoint.GetCalConstants | src/weight/factory_calibration.rs:49-58 | The constants of the two stored points. |
| FactoryCalibration.CalibrateExample | src/weight/factory_calibration.rs:65-80 | With points (0, 0x1234) and (100, 0x4567), the constants calibrate the two readings to 0 and 100. |
| TwoPointCal.CalConstants | hangman_utils/src/two_point_cal.rs:49-62 | Some exactly when both points are present, the readings differ and their difference fits in i32. Then b is the zero reading and m = expected / (measured − b). |
| TwoPointCal.Interpolates | hangman_utils/src/two_point_cal.rs:49-62 | The constants map every reading between the two points to the straight-line interpolation of their values. In particular the zero reading maps to 0 and the other to its expected value. |
| TwoPointCal.TwoPoint.constructor | hangman_utils/src/two_point_cal.rs:24-28 | Neither point is set. |
| TwoPointCal.TwoPoint.AddPoint | hangman_utils/src/two_point_cal.rs:40-47 | Expected 0.0 replaces the zero measurement only; any other value replaces the other point only. |
| TwoPointCal.TwoPoint.GetCalConstants | hangman_utils/src/two_point_cal.rs:49-62 | The constants of the two stored points. |
| TwoPointCal.CalibrateExample | hangman_utils/src/two_point_cal.rs:69-85 | The test vector: (0x1234 − b)·m = 0 and (0x4567 − b)·m = 100. |
| Flash.Programmed | src/nonvolatile.rs:130-137 | Writing data at an offset changes only those bytes, each to the AND of old and new. |
| Flash.ProgrammedErased | src/nonvolatile.rs:126-137 | After an erase, two writes to disjoint ranges leave exactly the written bytes there. |
| Flash.Flash.Read | src/nonvolatile.rs:92-94 | Reading returns the page bytes at the requested address. |
| Flash.Flash.Erase | src/nonvolatile.rs:126-129 | The whole page becomes 0xFF and the erase is logged. |
| Flash.Flash.Write | src/nonvolatile.rs:130-137 | Word-aligned writes program the page and are logged. |
| Nonvolatile.Address | src/nonvolatile.rs:59-63 | A register's address is its enum index (CalibrationM 0, CalibrationB 1), below COUNT. |
| Nonvolatile.AddressBijective | src/nonvolatile.rs:38-63 | Distinct registers have distinct addresses, and every address belongs to its register. |
| Nonvolatile.Default | src/nonvolatile.rs:65-74 | Each register's default is a write to that same register. |
| Nonvolatile.PageLayout | src/nonvolatile.rs:145-149 | 4·(COUNT + 1) ≤ MAX_ADDR − MIN_ADDR, and the checksum sits in the page's last 4 bytes. |
| Nonvolatile.DefaultCache | src/nonvolatile.rs:102-107 | The cache the defaults loop produces holds each register's default bytes. |
| Nonvolatile.CacheRoundTrip | src/nonvolatile.rs:91-99 | Casting the register array to bytes and back is the identity in both directions. |
| Nonvolatile.LoadFlushed | src/nonvolatile.rs:89-138 | A page written by flush passes the checksum test, and `new` over it loads the same cache. |
| Nonvolatile.Nvm.constructor | src/nonvolatile.rs:89-109 | A matching checksum loads the cache from flash, not dirty. A mismatch gives every register its default and leaves the cache dirty. |
| Nonvolatile.Nvm.Write | src/nonvolatile.rs:111-114 | The register's slot gets the value's little-endian bytes and dirty is set. Every other register reads as before. |
| Nonvolatile.Nvm.Read | src/nonvolatile.rs:116-118 | The register's cached bytes, which are the four bytes a flush stores at the register's address; flash is not read. |
| Nonvolatile.Nvm.Flush | src/nonvolatile.rs:120-138 | Nothing happens when not dirty. Otherwise the flash receives erase, cache write at MIN_ADDR and checksum write at CHECKSUM_ADDR, in that order, and the page is the flushed page. Dirty stays set. |
| HangmanNonvolatile.PageLayout | hangman/src/nonvolatile.rs:33-43 | For both chips the page is 0x1000 bytes, page-aligned, with the checksum in its last 4 bytes past the 8-byte cache. |
| HangmanNonvolatile.CacheBytes | hangman/src/nonvolatile.rs:50-57 | The packed cache is 8 bytes. |
| HangmanNonvolatile.CacheRoundTrip | hangman/src/nonvolatile.rs:50-57 | Packing and unpacking the cache are inverse. |
| HangmanNonvolatile.LoadFlushed | hangman/src/nonvolatile.rs:80-141 | `new` over a flushed page yields the same m and b. |
| HangmanNonvolatile.Nvm.constructor | hangman/src/nonvolatile.rs:80-102 | The cache is the stored struct when the checksum matches and the defaults otherwise. Dirty is false either way. |
| HangmanNonvolatile.Nvm.WriteCalM | hangman/src/nonvolatile.rs:104-107 | Sets m and dirty and leaves b. |
| HangmanNonvolatile.Nvm.ReadCalM | hangman/src/nonvolatile.rs:109-111 | The cached m, which is the first four bytes of the page a flush writes. |
| HangmanNonvolatile.Nvm.WriteCalB | hangman/src/nonvolatile.rs:113-116 | Sets b and dirty and leaves m. |
| HangmanNonvolatile.Nvm.ReadCalB | hangman/src/nonvolatile.rs:118-120 | The cached b, which is the little-endian i32 in bytes 4 to 8 of the page a flush writes. |
| HangmanNonvolatile.Nvm.Flush | hangman/src/nonvolatile.rs:122-141 | A no-op when not dirty, including right after a defaults reset. Otherwise it erases the page, writes the cache, then writes the checksum. |
| WeightCalibration.WriteCalibration | src/weight/mod.rs:104-108 | Writes m, then b, then flushes. The NVM then reads back (m, b), and reloading the page gives (m, b). |
| MeasurementClock.CalculateDuration | hangman/src/weight/task.rs:136-143 | elapsed = timestamp − start. A timestamp before the start moves the start to it and gives elapsed 0. |
| MeasurementClock.StartIsEarliest | src/weight/task.rs:80-87 | Over a run of samples the start becomes the earliest of the first start and all timestamps. |
| Stream.ValuesSplit | src/weight/median.rs:46-53 | Model infrastructure: the values a producer consumes over consecutive runs of draws concatenate, as the median filter's history grows one sample per draw. |
| Stream.AheadAdvance | hangman/src/weight/task.rs:79-88 | Model infrastructure: drawing j samples (the warm-up) and then k more (the window) is drawing j + k. |
| WeightTaskLegacy.Adjusted | src/weight.rs:175-192 | For an in-range sum, the measurement is (reading + b)·m + offset; a zero sum gives the offset. |
| WeightTaskLegacy.TareZeroes | src/weight.rs:98-101 | After Tare the reading it was taken from measures 0. |
| WeightTaskLegacy.TareShifts | src/weight.rs:98-101 | A tare shifts every later measurement by the measurement seen at the tare. |
| WeightTaskLegacy.InitialContext | src/weight.rs:127-137 | Idle, offset 0, m decoded from its register. |
| WeightTaskLegacy.InitialContextLoadsB | src/weight.rs:127-137 | A b stored through the NVM is the b the task starts with. |
| WeightTaskLegacy.MeasureTaskInit | src/weight.rs:121-137 | The start-up context is the initial context of the NVM's cache. |
| WeightTaskLegacy.TakeMeasurement | src/weight.rs:175-192 | Powers the ADC up and returns the adjusted value of the next 24-bit read. |
| WeightTaskLegacy.HandleCommand | src/weight.rs:71-105 | No command leaves the context as it was. Start unconditionally powers up and sets Active(now). Stop powers down and sets Idle. Tare subtracts one measurement from the offset. |
| WeightTaskLegacy.Measure | src/weight.rs:111-118 | Nothing when Idle. When Active, one adjusted measurement is reported at the microseconds since the start. |
| WeightTaskLegacy.Step | src/weight.rs:71-149 | One loop pass, with two clock readings tCmd ≤ tMeas: when a Start is handled and after the conversion. The context after the command is stated for each command (none, Start, Stop, Tare); a Start's start time is tCmd. The notification is then exactly the measurement of the next 24-bit read with that context, at the microseconds from its start to tMeas (tMeas − tCmd on a Start's pass), and is present exactly when it is Active. A Tare reads one conversion and an active pass one more, and nothing else is read. A Tare while active under a steady reading notifies 0. |
| WeightTask.TaredAfterTare | src/weight/task.rs:64-68 | Tare stores −v, so every later tared value is the calibrated value plus v. |
| WeightTask.TareDoublesSteadyLoad | src/weight/task.rs:64-68 | Under a steady nonzero load v, the tared value reads 2v rather than 0. |
| WeightTask.Context.constructor | src/weight/task.rs:112-137 | Idle, the calibrator built from the NVM's m and b, and offset 0. |
| WeightTask.Context.HandleCommand | src/weight/task.rs:45-70 | Start sets Active(type, now) in any state and leaves the ADC's power as it was, because the `power_up()` future is never awaited. Stop powers down and sets Idle. Tare draws one calibrated sample and sets the offset to its negation, keeping the state. |
| WeightTask.Context.Measure | src/weight/task.rs:76-109 | Nothing when Idle. Otherwise one sample of the chosen stage is drawn and reported with a callback, with the elapsed time of `calculate_duration`. |
| WeightTask.Context.Step | src/weight/task.rs:138-149 | At most one command per pass: its effect on the offset, the power and the state (Commanded) is stated. If that leaves Idle nothing is drawn; if Active exactly one sample of the chosen stage is drawn, after the Tare's sample if any, and reported with a callback with the elapsed time and start that `calculate_duration` gives. An idle pass with no command changes nothing. |
| HangmanWeightTask.CalibrationReading | hangman/src/weight/task.rs:94-118 | The raw reading of a calibration point lies between the least and greatest median-filtered reading averaged. |
| HangmanWeightTask.TareUnderSteadyLoad | hangman/src/weight/task.rs:69-93 | Under a steady load the offset equals the load, so the tared value is 0. |
| HangmanWeightTask.SavedCalibrationReproducesPoints | hangman/src/weight/task.rs:119-128 | Saved constants calibrate the zero reading to 0 and the other reading to its weight. |
| HangmanWeightTask.Context.constructor | hangman/src/weight/task.rs:179-197 | Idle, the NVM loaded from the page, the calibrator from its m and b, offset 0 and no calibration points. |
| HangmanWeightTask.Context.StartSampling | hangman/src/weight/task.rs:57-64 | From Idle it powers up and becomes Active(type, now); otherwise it is a no-op. |
| HangmanWeightTask.Context.StopSampling | hangman/src/weight/task.rs:65-68 | Powers down and becomes Idle from any state. |
| HangmanWeightTask.Context.TareCommand | hangman/src/weight/task.rs:69-93 | Discards hz/2 calibrated samples, averages hz/2 more into the offset, then powers down and stays Idle. |
| HangmanWeightTask.Context.DiscardCalibrated | hangman/src/weight/task.rs:79-81 | n calibrated samples are drawn and dropped: the producer is n samples further on. |
| HangmanWeightTask.Context.DrawCalibrated | hangman/src/weight/task.rs:84 | One calibrated sample is drawn, and its value is the calibrated value of the producer's next sample. |
| HangmanWeightTask.Context.AddCalibrated | hangman/src/weight/task.rs:83-88 | The next calibrated value goes into the float window: None while it is filling, the mean of all values added on the n-th. |
| HangmanWeightTask.Context.AverageCalibrated | hangman/src/weight/task.rs:76-88 | The window returns None for the first n − 1 samples and the mean of n calibrated samples on the last. |
| HangmanWeightTask.Context.AddCalibrationPointCommand | hangman/src/weight/task.rs:94-118 | Discards hz calibrated samples, averages hz filtered raw readings and adds (weight, average) to the calibration. It does not power down. |
| HangmanWeightTask.Context.DrawFiltered | hangman/src/weight/task.rs:109 | One median-filtered reading is drawn: the filter's next reading. |
| HangmanWeightTask.Context.AddFiltered | hangman/src/weight/task.rs:108-113 | The next filtered reading goes into the integer window: None while it is filling, the truncated mean on the n-th. |
| HangmanWeightTask.Context.AverageFiltered | hangman/src/weight/task.rs:101-113 | The integer window yields the truncated mean of n filtered readings on the n-th. |
| HangmanWeightTask.Context.SaveCalibrationCommand | hangman/src/weight/task.rs:119-128 | With constants present the NVM and calibrator get them and the page reloads to them; otherwise nothing changes. |
| HangmanWeightTask.Context.HandleCommand | hangman/src/weight/task.rs:55-130 | Dispatches each command as above; Tare and AddCalibrationPoint outside Idle change nothing. |
| HangmanWeightTask.Context.Measure | hangman/src/weight/task.rs:132-170 | A no-op when Idle. Otherwise it draws one sample of the chosen stage and reports it with a callback, with the elapsed time and start of `calculate_duration`. |
| HangmanWeightTask.Context.Step | hangman/src/weight/task.rs:199-210 | One loop pass. The command's state (Commanded: StartSampling only from Idle, StopSampling always Idle) decides the measurement: Idle draws nothing more and reports nothing; Active draws exactly one conversion and reports the chosen stage's value of it with a callback, with the elapsed time and start of `calculate_duration`. The effects of Stop, Tare, AddCalibrationPoint and SaveCalibration are stated too, and an idle pass with no command changes nothing. |
| LittleEndian.U32RoundTrip | src/ble/gatt_types.rs:48-67 | A u32's four LE bytes decode to it, and any four bytes are the image of the u32 they decode to. |
| LittleEndian.FromToLE | hangman/src/ble/gatt_types.rs:25-38 | A number below 256^n is recovered from its n-byte LE image. |
| LittleEndian.ToFromLE | hangman/src/ble/gatt_types.rs:25-38 | Encoding a decoded byte string at its own length gives the bytes back. |
| HangmanGattTypes.DropTrailingZeros | hangman/src/ble/gatt_types.rs:30-37 | The result is a prefix of the bytes, its last byte (if any) is nonzero, and every dropped byte is zero. |
| HangmanGattTypes.ToLeBytesWithoutTrailingZeros | hangman/src/ble/gatt_types.rs:25-38 | Zero gives [0]. Otherwise 1 to 8 bytes with a nonzero last byte, decoding little-endian to x. |
| HangmanGattTypes.TrimmedLength | hangman/src/ble/gatt_types.rs:30-37 | n trimmed bytes means 256^(n−1) ≤ x < 256^n. |
| HangmanGattTypes.Value | hangman/src/ble/gatt_types.rs:73-94 | The payload buffer is zero past Length; a version longer than 12 bytes is excluded, since copying it panics. |
| HangmanGattTypes.Opcode | hangman/src/ble/gatt_types.rs:51-60 | 0x01 exactly for Weight, 0x04 exactly for LowPowerWarning, and 0x00 exactly for the responses, the calibration curve included. |
| HangmanGattTypes.Length | hangman/src/ble/gatt_types.rs:62-71 | For an encodable opcode the length fits the 12-byte buffer, and a version's length survives the cast to u8. A nonzero progressor id sent in n bytes lies in [256^(n−1), 256^n). |
| HangmanGattTypes.IsKnownOpcode | hangman/src/ble/gatt_types.rs:165-167 | False exactly for Unknown and Invalid. |
| HangmanGattTypes.FromOpcode | hangman/src/ble/gatt_types.rs:119-127 | A data point's length fits its 12-byte buffer. |
| HangmanGattTypes.ToGatt | hangman/src/ble/gatt_types.rs:138-141 | length + 2 bytes: opcode, length, then the payload prefix. |
| HangmanGattTypes.DataPointFields | hangman/src/ble/gatt_types.rs:51-94 | For each variant, the receiver reads back the opcode byte (Weight 0x01, LowPowerWarning 0x04, else 0x00), the length of the table and the LE payload. |
| HangmanGattTypes.FromGatt | hangman/src/ble/gatt_types.rs:201-235 | A size outside 1..6 is Invalid, and Unknown carries the first byte. |
| HangmanGattTypes.Code | hangman/src/ble/gatt_types.rs:207-233 | Each known command's byte is within 0x64..0x70 or 0x72. |
| HangmanGattTypes.FromGattDecodes | hangman/src/ble/gatt_types.rs:201-235 | Every known command decodes from its byte; AddCalibrationPoint from 5 bytes (float at 1..5) or 6 bytes (float at 2..6). |
| HangmanGattTypes.FromGattKnown | hangman/src/ble/gatt_types.rs:165-235 | A known command comes only from a valid size and its own byte. Unknown exactly when the size is valid and the byte is outside the table. |
| GattTypes.Value | src/ble/gatt_types.rs:48-67 | Zero past Length in the 8-byte buffer; a version longer than 8 bytes is excluded. |
| GattTypes.Opcode | src/ble/gatt_types.rs:29-37 | 0x01 exactly for Weight, 0x04 exactly for LowPowerWarning, and 0x00 exactly for the responses. |
| GattTypes.Length | src/ble/gatt_types.rs:39-46 | For an encodable opcode the length fits the 8-byte buffer, and a version's length survives the cast to u8. |
| GattTypes.IsKnownOpcode | src/ble/gatt_types.rs:137-139 | False exactly for Unknown and Invalid, the two results `from_gatt` gives a message it does not recognise (FromGattKnown). |
| GattTypes.FromOpcode | src/ble/gatt_types.rs:92-100 | A data point's length fits its 8-byte buffer. |
| GattTypes.ToGatt | src/ble/gatt_types.rs:111-114 | length + 2 bytes: opcode, length, payload prefix. |
| GattTypes.DataPointFields | src/ble/gatt_types.rs:29-67 | Per variant: the opcode byte, the length (BatteryVoltage and ProgressorId 4, Weight 8, LowPowerWarning 0, AppVersion its length) and the LE payload read back. |
| GattTypes.FromGatt | src/ble/gatt_types.rs:172-205 | Invalid outside 1..6 bytes; Unknown carries the first byte. |
| GattTypes.Code | src/ble/gatt_types.rs:178-204 | Each known command's byte is within 0x64..0x70. |
| GattTypes.FromGattDecodes | src/ble/gatt_types.rs:172-205 | Each known command decodes from its byte, AddCalibrationPoint at 5 or 6 bytes. |
| GattTypes.FromGattKnown | src/ble/gatt_types.rs:136-205 | Known only for a valid size and the command's byte. Unknown exactly for a valid size and a byte outside 0x64..0x70, 0x72 included. |
| Gatt.DataPointFromGatt | src/gatt.rs:145-155 | Copies min(len − 2, data[1], 8) payload bytes after the opcode and zeros the rest; at least 2 bytes are required. |
| Gatt.DataPointRoundTrip | src/gatt.rs:145-160 | from_gatt(to_gatt(p)) == p for a length of at most 8 and a zero tail. |
| Gatt.DataOpcodeRoundTrip | src/gatt.rs:82-160 | Every data opcode's notification parses back to its data point. |
| Gatt.DataPointReencodes | src/gatt.rs:145-160 | Parsing and re-sending reproduces a message exactly when its length byte is len − 2 ≤ 8. |
| Gatt.Opcode | src/gatt.rs:181-197 | Commands are numbered 0x64 to 0x70. |
| Gatt.FromControlOpcode | src/gatt.rs:208-216 | A control point of the opcode with length 0 and zero payload. |
| Gatt.TryFrom | src/gatt.rs:222-241 | Err(opcode) exactly for bytes outside 0x64..0x70. Ok names the command of that opcode, and AddCalibrationPoint takes the payload as its float. |
| Gatt.TryFromInverse | src/gatt.rs:181-241 | try_from(ControlPoint::from(op)) == Ok(op), except that AddCalibrationPoint returns with a zero payload. |
| Gatt.ControlPointFromGatt | src/gatt.rs:249-290 | Over 6 bytes gives the default. An omitted or zero length byte gives the opcode with a zero payload, and a mismatched length gives the default. A parsed point has length ≤ 4, a zero tail, and re-sends as the input. |
| Gatt.ControlPointToGatt | src/gatt.rs:292-295 | length + 2 bytes: opcode, length, payload prefix. |
| Gatt.LengthGuardUnreachable | src/gatt.rs:266-281 | A length byte equal to the payload size of a message of at most 6 bytes is at most 4, so the `length > 4` branch is dead. |
| Gatt.ControlPointRoundTrip | src/gatt.rs:249-295 | from_gatt(to_gatt(cp)) == cp for length ≤ 4 and a zero tail. |
| Gatt.CommandDecoding | src/gatt.rs:222-290 | A one-byte message with a command's opcode decodes to that command, and [0x69, 4] + float to AddCalibrationPoint(float). |
| HangmanBattery.CriticallyLowIsLow | hangman/src/battery_voltage.rs:36-39 | Critically low implies low, and low but not critical is exactly 2701..2750 mV. |
| HangmanBattery.BatteryVoltage.constructor | hangman/src/battery_voltage.rs:28 | Nothing is sampled at start-up. |
| HangmanBattery.BatteryVoltage.GetStartupReading | hangman/src/battery_voltage.rs:68-70 | The cell's contents: None until the one-time sample, then that reading. |
| HangmanBattery.BatteryVoltage.OneTimeSample | hangman/src/battery_voltage.rs:44-66 | Stores and returns the reading; a second call is excluded, since the source panics there. |
| HangmanBattery.BatteryVoltage.IsLow | hangman/src/battery_voltage.rs:79-81 | Holds exactly when the stored reading is ≤ 2750 mV; requires a reading, since the source panics without one. |
| HangmanBattery.BatteryVoltage.IsCriticallyLow | hangman/src/battery_voltage.rs:83-85 | Holds exactly when the stored reading is ≤ 2700 mV. |
| HangmanBattery.BatteryVoltage.CriticallyLowImpliesLow | hangman/src/battery_voltage.rs:79-85 | Whatever was stored, critically low implies low. |

## Left out

- Calibrate.Calibrate: when raw − b overflows, the model wraps as a release build does. A debug build panics instead. The contract's value is only stated for an in-range difference.
- FactoryCalibration.CalConstants: the unchecked `reading - b` wraps as a release build does. A debug build panics instead.
- WeightTaskLegacy.Adjusted: the i32 sum reading + b wraps in the same way, and its contract is stated for an in-range sum.
- WeightTask.Context.HandleCommand: StartSampling does not power the ADC up, because src/weight/task.rs:53 drops the future of the async `power_up` (src/weight/hx711.rs:58) without awaiting it. The ADC is powered by the first sample instead, and the extra settling delay that sample then takes is time, which the model does not capture. See "## Findings".
- WeightTask: src/weight/task.rs matches only the StartSampling, StopSampling and Tare commands and the Raw, Calibrated and Tared sample types. The enums of src/weight/mod.rs also have AddCalibrationPoint, SaveCalibration and FilteredRaw, which fall outside those matches. The module therefore declares its own three-command `Command` and three-stage `SampleType`, and the other cases have no behaviour in it.
- Panics that a precondition excludes, one per member:
  - Gatt.ControlPointFromGatt: an empty message is excluded. The source logs `data[0]` on the size error before returning the default, which panics on an empty slice.
  - Gatt.DataPointFromGatt: a message under 2 bytes is excluded, because the source asserts at least 2.
  - GattTypes.Value: a version longer than 8 bytes is excluded, because `copy_from_slice` panics on it. HangmanGattTypes.Value excludes one longer than 12 for the same reason.
  - HangmanWeightTask.Context.TareCommand: requires hz / 2 ≥ 1. At a rate below 2 Hz the window is empty and `filter_size - 1` underflows. HandleCommand and Step carry the same demand through `RateAllows`.
  - HangmanWeightTask.Context.AddCalibrationPointCommand: requires hz ≥ 1 for the same reason.
  - HangmanBattery.BatteryVoltage.IsLow: requires a stored reading, because the source's `expect` panics without one.
  - HangmanBattery.BatteryVoltage.IsCriticallyLow: the same.
  - HangmanBattery.BatteryVoltage.OneTimeSample: a second call is excluded, because storing into a set cell makes the `expect` panic.
  - Weight.Init: a second call is excluded in the same way, and Weight.SamplingIntervalHz requires an earlier `init`.
- Hx711Legacy.ConvertI24ToI32: the value is stated for 24-bit inputs only, which is all the drivers produce. Wider inputs are computed as the source does but not specified.
- WeightHx711.ConvertI24ToI32: the same restriction to 24-bit inputs.
- f32 arithmetic is exact real arithmetic, so rounding in the calibrator, the tarer, the two-point m and the float window is not modelled.
  - The bit layout of `f32::to_le_bytes` is not modelled: a stored f32 is four opaque bytes, read and written through an abstract codec.
  - DEFAULT_CALIBRATION_M is given by the bytes of its f32.
- The hangman task imports a calibrator, tarer, median filter and window from files that are not part of this model. The src/weight versions are used in their place.
  - The median filter's five-sample windowing comes from an external crate. It is an abstract function of everything consumed, and its output is unconstrained.
- The NVM defaults: src/weight.rs declares other defaults (0.0000021950245, 92554) than src/weight/mod.rs (4.6750380809321235e-06, −100598). Both drivers take theirs from the weight module as `crate::weight`, and the src/weight/mod.rs constants are used.
- The NVM drivers are written against the register-array and struct-cache interfaces as each revision has them.
  - src/weight/mod.rs `write_calibration` calls `write_cal_m`/`write_cal_b`, which only the later struct-cache driver has, so it is modelled against that driver.
  - src/weight/task.rs takes its constants from the same driver.
- The CRC-32C checksum of the `crc` crate is an uninterpreted function given to each NVM. Its values are not modelled.
- Flash timing and failure are not modelled. Erase and write are assumed to succeed, since the source `expect`s them to.
- Async execution is modelled as sequential calls, and the command channel is a parameter of one loop pass (`Step`).
  - Mutexes, critical sections, `wait_for_low` and microsecond delays are left out.
  - Time is a tick count. Each conversion's ready time is a supplied function, and the current time is a parameter.
  - The truncation of the oldest task's elapsed time to u32 microseconds is modelled; the Instant conversions beneath it are not.
- The DOUT line is a supplied function from sample index to level; GPIO electrical behaviour is left out.
- The boxed measurement callbacks are reduced to whether one is present. A report is what the callback would be called with.
- The SAADC battery sampling and its scale factor are left out: the measured millivolts are a parameter of `OneTimeSample`.
- The `defmt::Format` implementations and all logging are left out.
- `DataPoint::from_gatt` and `ControlOpcode::to_gatt` in hangman/src/ble/gatt_types.rs are `unimplemented!()` and have no model in `HangmanGattTypes`. `DataPoint::from_parts` is the datatype constructor.
- The BLE task, advertising, the SoftDevice configuration, the binaries, the buttons, LEDs, sleep and the console are hardware or radio plumbing and are left out. So are the random fake measurements and `disable_all_gpio_sense`.

## Findings

| source | as written | input that shows it | evidently intended | confidence | as-written member | corrected member |
|---|---|---|---|---|---|---|
| src/weight/factory_calibration.rs:52-56 | `reading - b` is an unchecked i32 subtraction: an overflowing difference passes the zero guard and yields constants with the wrong sign | zero point i32::MIN, other point (100, 1); reading −1 then weighs −100 | reject an overflowing difference, which hangman_utils/src/two_point_cal.rs does with `checked_sub` | not executed | FactoryCalibration.OverflowCounterexample | TwoPointCal.Interpolates |
| src/weight/task.rs:64-68 | Tare stores the negated calibrated value as the offset, and the tarer subtracts its offset (src/weight/tare.rs:55), so the tare adds the load instead of removing it | a steady calibrated load v ≠ 0: after Tare the tared value is 2v | the offset is the value itself, so a steady load reads 0, as hangman/src/weight/task.rs does | not executed | WeightTask.TareDoublesSteadyLoad | HangmanWeightTask.TareUnderSteadyLoad |
| src/weight/task.rs:53 | `power_up()` is an async function, and its future is dropped without `.await`, so StartSampling does not power the ADC up | Idle with the ADC powered down, then StartSampling: the ADC is still powered down after the command, and the first sample powers it up | power up on StartSampling, as hangman/src/weight/task.rs:62 does with `.await` | not executed | WeightTask.Context.HandleCommand | HangmanWeightTask.Context.StartSampling |
