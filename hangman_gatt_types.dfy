/**
 * The Progressor wire format of the later firmware (hangman/src/ble/gatt_types.rs). Outgoing
 * data points are an opcode byte, a length byte and a 12-byte payload buffer, of which only the
 * first `length` bytes are sent; incoming control messages are an opcode byte, an optional
 * length byte and, for AddCalibrationPoint, the four bytes of an f32.
 */
module HangmanGattTypes {
  import opened Ints
  import opened LittleEndian
  import Float32

  /** `DATA_PAYLOAD_SIZE`: room for the largest payload, the calibration curve. */
  const DATA_PAYLOAD_SIZE: nat := 12

  type CalibrationCurve = s: seq<byte> | |s| == 12 witness [0, 0, 0, 0, 0, 0, 0, 0, 0, 0, 0, 0]

  /** The payload buffer of a data point. */
  type PayloadBuffer = s: seq<byte> | |s| == DATA_PAYLOAD_SIZE witness [0, 0, 0, 0, 0, 0, 0, 0, 0, 0, 0, 0]

  /** What `collect` and `reverse` leave of the bytes once the zeros at the high end are skipped. */
  function DropTrailingZeros(s: seq<byte>): (r: seq<byte>)
    ensures |r| <= |s| && r == s[..|r|]
    ensures |r| > 0 ==> r[|r| - 1] != 0
    ensures forall i :: |r| <= i < |s| ==> s[i] == 0
  {
    if |s| > 0 && s[|s| - 1] == 0 then DropTrailingZeros(s[..|s| - 1]) else s
  }

  /** Zeros at the high end carry no value, so dropping them keeps the number. */
  lemma {:induction false} DropTrailingZerosValue(s: seq<byte>)
    ensures FromLE(DropTrailingZeros(s)) == FromLE(s)
    decreases |s|
  {
    if |s| > 0 && s[|s| - 1] == 0 {
      var p := s[..|s| - 1];
      DropTrailingZerosValue(p);
      assert s == p + [0];
      FromLETrailingZero(p);
    }
  }

  /**
   * `to_le_bytes_without_trailing_zeros`: zero is the single byte 0; any other number is its
   * shortest little-endian image, whose last byte is nonzero and which decodes to the number.
   */
  function ToLeBytesWithoutTrailingZeros(x: u64): (r: seq<byte>)
    ensures 1 <= |r| <= 8
    ensures x == 0 <==> r == [0]
    ensures x != 0 ==> r[|r| - 1] != 0
    ensures FromLE(r) == x
  {
    if x == 0 then [0]
    else
      Pow256Values();
      FromToLE(x, 8);
      DropTrailingZerosValue(ToLE(x, 8));
      DropTrailingZeros(ToLE(x, 8))
  }

  /** The image has exactly as many bytes as the number has significant bytes. */
  lemma TrimmedLength(x: u64)
    requires x != 0
    ensures var n := |ToLeBytesWithoutTrailingZeros(x)|;
      Pow256(n - 1) <= x < Pow256(n)
  {
    var r := ToLeBytesWithoutTrailingZeros(x);
    FromLETopByte(r);
    FromLEBound(r);
  }

  datatype DataOpcode =
    | BatteryVoltage(voltage: u32)
    | Weight(weight: Float32.F32, timestamp: u32)
    | LowPowerWarning
    | AppVersion(version: seq<byte>)
    | ProgressorId(id: u64)
    | CalibrationCurve(curve: CalibrationCurve)

  /** `DataOpcode::opcode`: weights are 0x01, the low-power warning 0x04, every response 0x00. */
  function Opcode(d: DataOpcode): (r: byte)
    ensures r == 0x01 <==> d.Weight?
    ensures r == 0x04 <==> d.LowPowerWarning?
    ensures r == 0x00 <==> !d.Weight? && !d.LowPowerWarning?
  {
    match d
    case Weight(_, _) => 0x01
    case LowPowerWarning => 0x04
    case _ => 0x00
  }

  /** `DataOpcode::length`; the version's length is cast to u8, so it is taken modulo 256. */
  function Length(d: DataOpcode): (r: byte)
    ensures Fits(d) ==> r <= DATA_PAYLOAD_SIZE
    ensures d.AppVersion? && Fits(d) ==> r == |d.version|
    ensures d.ProgressorId? && d.id != 0 ==> 1 <= r && Pow256(r - 1) <= d.id < Pow256(r)
  {
    match d
    case BatteryVoltage(_) => 4
    case Weight(_, _) => 8
    case ProgressorId(id) =>
      var n := |ToLeBytesWithoutTrailingZeros(id)|;
      if id == 0 then n else (TrimmedLength(id); n)
    case LowPowerWarning => 0
    case AppVersion(version) => |version| % U8_LIMIT
    case CalibrationCurve(curve) => |curve|
  }

  /** What `value` can encode: a version longer than the buffer makes `copy_from_slice` panic. */
  predicate Fits(d: DataOpcode) {
    d.AppVersion? ==> |d.version| <= DATA_PAYLOAD_SIZE
  }

  /**
   * `DataOpcode::value`: a zeroed buffer with the payload copied over its start. Everything
   * after the first `length` bytes stays zero.
   */
  function Value(d: DataOpcode): (r: PayloadBuffer)
    requires Fits(d)
    ensures forall i :: Length(d) <= i < DATA_PAYLOAD_SIZE ==> r[i] == 0
  {
    match d
    case BatteryVoltage(voltage) => U32Bytes(voltage) + Zeros(8)
    case Weight(weight, timestamp) => weight + U32Bytes(timestamp) + Zeros(4)
    case LowPowerWarning => Zeros(12)
    case ProgressorId(id) =>
      var bytes := ToLeBytesWithoutTrailingZeros(id);
      bytes + Zeros(12 - |bytes|)
    case AppVersion(version) => version + Zeros(12 - |version|)
    case CalibrationCurve(curve) => curve
  }

  /** The packed `DataPoint`; `from_parts` is its constructor. */
  datatype DataPoint = DataPoint(opcode: byte, length: byte, value: PayloadBuffer)

  /** `From<DataOpcode> for DataPoint`. */
  function FromOpcode(d: DataOpcode): (p: DataPoint)
    requires Fits(d)
    ensures p.length <= DATA_PAYLOAD_SIZE
  {
    DataPoint(Opcode(d), Length(d), Value(d))
  }

  /**
   * `DataPoint::to_gatt`: the first `length + 2` bytes of the packed struct. A length above 12
   * would slice past its 14 bytes and panic.
   */
  function ToGatt(p: DataPoint): (r: seq<byte>)
    requires p.length <= DATA_PAYLOAD_SIZE
    ensures |r| == p.length + 2 && r[0] == p.opcode && r[1] == p.length
    ensures r[2..] == p.value[..p.length]
  {
    ([p.opcode, p.length] + p.value)[..p.length + 2]
  }

  /**
   * What a receiver reads back from the notification of each data opcode: the opcode and
   * length bytes, then the fields in little-endian order, with nothing sent past them.
   */
  lemma DataPointFields(d: DataOpcode)
    requires Fits(d)
    ensures var r := ToGatt(FromOpcode(d));
      && r[0] == Opcode(d) && |r| == Length(d) + 2
      && (d.BatteryVoltage? ==> |r| == 6 && U32FromBytes(r[2..6]) == d.voltage)
      && (d.Weight? ==> |r| == 10 && r[2..6] == d.weight && U32FromBytes(r[6..10]) == d.timestamp)
      && (d.LowPowerWarning? ==> r == [0x04, 0])
      && (d.AppVersion? ==> r[2..] == d.version)
      && (d.ProgressorId? ==> FromLE(r[2..]) == d.id && |r| <= 10)
      && (d.CalibrationCurve? ==> r[2..] == d.curve)
  {
    var r := ToGatt(FromOpcode(d));
    match d {
      case BatteryVoltage(v) =>
        assert r[2..6] == U32Bytes(v);
        U32RoundTrip(v, r[2..6]);
      case Weight(w, t) =>
        var payload := w + U32Bytes(t);
        assert r[2..] == Value(d)[..8] == payload;
        assert r[2..6] == payload[..4] == w;
        assert r[6..10] == payload[4..] == U32Bytes(t);
        U32RoundTrip(t, r[6..10]);
      case LowPowerWarning =>
      case AppVersion(version) =>
      case ProgressorId(id) =>
        assert r[2..] == ToLeBytesWithoutTrailingZeros(id);
      case CalibrationCurve(curve) =>
    }
  }

  datatype ControlOpcode =
    | Tare
    | StartMeasurement
    | StopMeasurement
    | StartPeakRfdMeasurement
    | StartPeakRfdMeasurementSeries
    | AddCalibrationPoint(weight: Float32.F32)
    | SaveCalibration
    | GetCalibrationCurve
    | GetAppVersion
    | GetErrorInfo
    | ClearErrorInfo
    | Shutdown
    | SampleBattery
    | GetProgressorId
    | Unknown(opcode: byte)
    | Invalid

  /** `is_known_opcode`. */
  predicate IsKnownOpcode(c: ControlOpcode)
    ensures !IsKnownOpcode(c) <==> c == Invalid || c.Unknown?
  {
    !(c.Unknown? || c.Invalid?)
  }

  /** `MIN_SIZE` and `MAX_SIZE` of a control message. */
  const CONTROL_MIN_SIZE: nat := 1
  const CONTROL_MAX_SIZE: nat := 6

  /**
   * `ControlOpcode::from_gatt`. A message of the wrong size is Invalid. Otherwise its first byte
   * selects the command; AddCalibrationPoint takes its f32 from the last four bytes of a
   * 5-byte message (length byte omitted) or a 6-byte one (whose length byte is ignored), and is
   * Invalid at any other size.
   */
  function FromGatt(data: seq<byte>): (c: ControlOpcode)
    ensures |data| < CONTROL_MIN_SIZE || |data| > CONTROL_MAX_SIZE ==> c.Invalid?
    ensures c.Unknown? ==> c.opcode == data[0]
  {
    if |data| < CONTROL_MIN_SIZE || |data| > CONTROL_MAX_SIZE then Invalid
    else
      match data[0]
      case 0x64 => Tare
      case 0x65 => StartMeasurement
      case 0x66 => StopMeasurement
      case 0x67 => StartPeakRfdMeasurement
      case 0x68 => StartPeakRfdMeasurementSeries
      case 0x69 =>
        if |data| == 5 then AddCalibrationPoint(data[1..5])
        else if |data| == 6 then AddCalibrationPoint(data[2..6])
        else Invalid
      case 0x6A => SaveCalibration
      case 0x6B => GetAppVersion
      case 0x6C => GetErrorInfo
      case 0x6D => ClearErrorInfo
      case 0x6E => Shutdown
      case 0x6F => SampleBattery
      case 0x70 => GetProgressorId
      case 0x72 => GetCalibrationCurve
      case _ => Unknown(data[0])
  }

  /** The opcode bytes a command is recognised by: 0x64 to 0x70, and 0x72. */
  predicate KnownByte(b: byte) {
    0x64 <= b <= 0x70 || b == 0x72
  }

  /** The byte a client sends for each known command, as the Progressor protocol numbers them. */
  function Code(c: ControlOpcode): (b: byte)
    requires IsKnownOpcode(c)
    ensures KnownByte(b)
  {
    match c
    case Tare => 0x64
    case StartMeasurement => 0x65
    case StopMeasurement => 0x66
    case StartPeakRfdMeasurement => 0x67
    case StartPeakRfdMeasurementSeries => 0x68
    case AddCalibrationPoint(_) => 0x69
    case SaveCalibration => 0x6A
    case GetAppVersion => 0x6B
    case GetErrorInfo => 0x6C
    case ClearErrorInfo => 0x6D
    case Shutdown => 0x6E
    case SampleBattery => 0x6F
    case GetProgressorId => 0x70
    case GetCalibrationCurve => 0x72
  }

  /**
   * Every known command is decoded from its code, whatever payload bytes follow (within the
   * size limit); AddCalibrationPoint is decoded with its f32 with or without a length byte.
   */
  lemma FromGattDecodes(c: ControlOpcode, data: seq<byte>, n: byte)
    requires IsKnownOpcode(c)
    ensures !c.AddCalibrationPoint? && 1 <= |data| <= 6 && data[0] == Code(c) ==> FromGatt(data) == c
    ensures c.AddCalibrationPoint? ==>
      FromGatt([0x69] + c.weight) == c && FromGatt([0x69, n] + c.weight) == c
  {
    if c.AddCalibrationPoint? {
      assert ([0x69] + c.weight)[1..5] == c.weight;
      assert ([0x69, n] + c.weight)[2..6] == c.weight;
    }
  }

  /**
   * Conversely, a message decodes to a known command only if it has a valid size and starts
   * with that command's code, and an f32 only from the last four bytes of a 5- or 6-byte
   * message. It decodes to Unknown exactly when its size is valid and its first byte is no code.
   */
  lemma FromGattKnown(data: seq<byte>)
    ensures var c := FromGatt(data);
      IsKnownOpcode(c) ==>
        && 1 <= |data| <= 6 && data[0] == Code(c)
        && (c.AddCalibrationPoint? ==> (|data| == 5 || |data| == 6) && c.weight == data[|data| - 4..])
    ensures FromGatt(data).Unknown? <==> 1 <= |data| <= 6 && !KnownByte(data[0])
  {
  }
}
