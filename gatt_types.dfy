/**
 * The Progressor wire format of the older firmware (src/ble/gatt_types.rs): the same framing as
 * the later revision with an 8-byte payload buffer, a fixed 4-byte progressor id, no calibration
 * curve, and no command at 0x72.
 */
module GattTypes {
  import opened Ints
  import opened LittleEndian
  import Float32

  /** The size of the payload buffer of a data point. */
  const PAYLOAD_SIZE: nat := 8

  type PayloadBuffer = s: seq<byte> | |s| == PAYLOAD_SIZE witness [0, 0, 0, 0, 0, 0, 0, 0]

  datatype DataOpcode =
    | BatteryVoltage(voltage: u32)
    | Weight(weight: Float32.F32, timestamp: u32)
    | LowPowerWarning
    | AppVersion(version: seq<byte>)
    | ProgressorId(id: u32)

  /** `DataOpcode::opcode`: weights are 0x01, the low-power warning 0x04, every response 0x00. */
  function Opcode(d: DataOpcode): (r: byte)
    ensures r == 0x01 <==> d.Weight?
    ensures r == 0x04 <==> d.LowPowerWarning?
    ensures r == 0x00 <==> !d.Weight? && !d.LowPowerWarning?
  {
    match d
    case Weight(_, _) => 0x01
    case LowPowerWarning => 0x04
    case _ => 0x00
  }

  /** `DataOpcode::length`; the version's length is cast to u8, so it is taken modulo 256. */
  function Length(d: DataOpcode): (r: byte)
    ensures Fits(d) ==> r <= PAYLOAD_SIZE
    ensures d.AppVersion? && Fits(d) ==> r == |d.version|
  {
    match d
    case BatteryVoltage(_) => 4
    case ProgressorId(_) => 4
    case Weight(_, _) => 8
    case LowPowerWarning => 0
    case AppVersion(version) => |version| % U8_LIMIT
  }

  /** What `value` can encode: a version longer than the buffer makes `copy_from_slice` panic. */
  predicate Fits(d: DataOpcode) {
    d.AppVersion? ==> |d.version| <= PAYLOAD_SIZE
  }

  /** `DataOpcode::value`: a zeroed buffer with the payload copied over its start. */
  function Value(d: DataOpcode): (r: PayloadBuffer)
    requires Fits(d)
    ensures forall i :: Length(d) <= i < PAYLOAD_SIZE ==> r[i] == 0
  {
    match d
    case BatteryVoltage(voltage) => U32Bytes(voltage) + Zeros(4)
    case Weight(weight, timestamp) => weight + U32Bytes(timestamp)
    case LowPowerWarning => Zeros(8)
    case ProgressorId(id) => U32Bytes(id) + Zeros(4)
    case AppVersion(version) => version + Zeros(8 - |version|)
  }

  /** The packed `DataPoint`; `from_parts` is its constructor. */
  datatype DataPoint = DataPoint(opcode: byte, length: byte, value: PayloadBuffer)

  /** `From<DataOpcode> for DataPoint`. */
  function FromOpcode(d: DataOpcode): (p: DataPoint)
    requires Fits(d)
    ensures p.length <= PAYLOAD_SIZE
  {
    DataPoint(Opcode(d), Length(d), Value(d))
  }

  /**
   * `DataPoint::to_gatt`: the first `length + 2` bytes of the packed struct. A length above 8
   * would slice past its 10 bytes and panic.
   */
  function ToGatt(p: DataPoint): (r: seq<byte>)
    requires p.length <= PAYLOAD_SIZE
    ensures |r| == p.length + 2 && r[0] == p.opcode && r[1] == p.length
    ensures r[2..] == p.value[..p.length]
  {
    ([p.opcode, p.length] + p.value)[..p.length + 2]
  }

  /** What a receiver reads back from the notification of each data opcode. */
  lemma DataPointFields(d: DataOpcode)
    requires Fits(d)
    ensures var r := ToGatt(FromOpcode(d));
      && r[0] == Opcode(d) && |r| == Length(d) + 2
      && (d.BatteryVoltage? ==> |r| == 6 && U32FromBytes(r[2..6]) == d.voltage)
      && (d.Weight? ==> |r| == 10 && r[2..6] == d.weight && U32FromBytes(r[6..10]) == d.timestamp)
      && (d.LowPowerWarning? ==> r == [0x04, 0])
      && (d.AppVersion? ==> r[2..] == d.version)
      && (d.ProgressorId? ==> |r| == 6 && U32FromBytes(r[2..6]) == d.id)
  {
    var r := ToGatt(FromOpcode(d));
    match d {
      case BatteryVoltage(v) =>
        assert r[2..6] == U32Bytes(v);
        U32RoundTrip(v, r[2..6]);
      case Weight(w, t) =>
        assert r[2..6] == w && r[6..10] == U32Bytes(t);
        U32RoundTrip(t, r[6..10]);
      case LowPowerWarning =>
      case AppVersion(version) =>
      case ProgressorId(id) =>
        assert r[2..6] == U32Bytes(id);
        U32RoundTrip(id, r[2..6]);
    }
  }

  datatype ControlOpcode =
    | Tare
    | StartMeasurement
    | StopMeasurement
    | StartPeakRfdMeasurement
    | StartPeakRfdMeasurementSeries
    | AddCalibrationPoint(weight: Float32.F32)
    | SaveCalibration
    | GetAppVersion
    | GetErrorInfo
    | ClearErrorInfo
    | Shutdown
    | SampleBattery
    | GetProgressorId
    | Unknown(opcode: byte)
    | Invalid

  /** `is_known_opcode`. */
  predicate IsKnownOpcode(c: ControlOpcode)
    ensures !IsKnownOpcode(c) <==> c == Invalid || c.Unknown?
  {
    !(c.Unknown? || c.Invalid?)
  }

  const CONTROL_MIN_SIZE: nat := 1
  const CONTROL_MAX_SIZE: nat := 6

  /**
   * `ControlOpcode::from_gatt`: Invalid at the wrong size; otherwise the first byte selects the
   * command, and AddCalibrationPoint reads its f32 from the last four bytes of a 5- or 6-byte
   * message, being Invalid at any other size.
   */
  function FromGatt(data: seq<byte>): (c: ControlOpcode)
    ensures |data| < CONTROL_MIN_SIZE || |data| > CONTROL_MAX_SIZE ==> c.Invalid?
    ensures c.Unknown? ==> c.opcode == data[0]
  {
    if |data| < CONTROL_MIN_SIZE || |data| > CONTROL_MAX_SIZE then Invalid
    else
      match data[0]
      case 0x64 => Tare
      case 0x65 => StartMeasurement
      case 0x66 => StopMeasurement
      case 0x67 => StartPeakRfdMeasurement
      case 0x68 => StartPeakRfdMeasurementSeries
      case 0x69 =>
        if |data| == 5 then AddCalibrationPoint(data[1..5])
        else if |data| == 6 then AddCalibrationPoint(data[2..6])
        else Invalid
      case 0x6A => SaveCalibration
      case 0x6B => GetAppVersion
      case 0x6C => GetErrorInfo
      case 0x6D => ClearErrorInfo
      case 0x6E => Shutdown
      case 0x6F => SampleBattery
      case 0x70 => GetProgressorId
      case _ => Unknown(data[0])
  }

  /** The opcode bytes a command is recognised by: 0x64 to 0x70. */
  predicate KnownByte(b: byte) {
    0x64 <= b <= 0x70
  }

  /** The byte a client sends for each known command. */
  function Code(c: ControlOpcode): (b: byte)
    requires IsKnownOpcode(c)
    ensures KnownByte(b)
  {
    match c
    case Tare => 0x64
    case StartMeasurement => 0x65
    case StopMeasurement => 0x66
    case StartPeakRfdMeasurement => 0x67
    case StartPeakRfdMeasurementSeries => 0x68
    case AddCalibrationPoint(_) => 0x69
    case SaveCalibration => 0x6A
    case GetAppVersion => 0x6B
    case GetErrorInfo => 0x6C
    case ClearErrorInfo => 0x6D
    case Shutdown => 0x6E
    case SampleBattery => 0x6F
    case GetProgressorId => 0x70
  }

  /** Every known command is decoded from its code; AddCalibrationPoint with or without a length byte. */
  lemma FromGattDecodes(c: ControlOpcode, data: seq<byte>, n: byte)
    requires IsKnownOpcode(c)
    ensures !c.AddCalibrationPoint? && 1 <= |data| <= 6 && data[0] == Code(c) ==> FromGatt(data) == c
    ensures c.AddCalibrationPoint? ==>
      FromGatt([0x69] + c.weight) == c && FromGatt([0x69, n] + c.weight) == c
  {
    if c.AddCalibrationPoint? {
      assert ([0x69] + c.weight)[1..5] == c.weight;
      assert ([0x69, n] + c.weight)[2..6] == c.weight;
    }
  }

  /**
   * A message decodes to a known command only if it has a valid size and starts with that
   * command's code. It decodes to Unknown exactly when its size is valid and its first byte is
   * outside 0x64..0x70, so 0x72 (the later calibration-curve request) is Unknown here.
   */
  lemma FromGattKnown(data: seq<byte>)
    ensures var c := FromGatt(data);
      IsKnownOpcode(c) ==>
        && 1 <= |data| <= 6 && data[0] == Code(c)
        && (c.AddCalibrationPoint? ==> (|data| == 5 || |data| == 6) && c.weight == data[|data| - 4..])
    ensures FromGatt(data).Unknown? <==> 1 <= |data| <= 6 && !KnownByte(data[0])
    ensures FromGatt([0x72]) == Unknown(0x72)
  {
  }
}
