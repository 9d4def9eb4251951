/**
 * The Progressor service codecs of the first firmware (src/gatt.rs). Its data opcodes and data
 * point are laid out exactly as in src/ble/gatt_types.rs, so those definitions are shared; this
 * file adds a data point decoder, a control opcode table, and a control point that is parsed
 * first and converted to a command second.
 */
module Gatt {
  import opened Ints
  import opened Wrappers
  import opened LittleEndian
  import Float32
  import GattTypes

  /**
   * `DataPoint::from_gatt`: at least two bytes (it asserts so); the payload is as long as the
   * bytes present, the length byte and the 8-byte buffer all allow, and the rest is zero.
   */
  function DataPointFromGatt(data: seq<byte>): (p: GattTypes.DataPoint)
    requires |data| >= 2
    ensures p.opcode == data[0]
    ensures p.length as int == Min(Min(|data| - 2, data[1]), GattTypes.PAYLOAD_SIZE)
    ensures p.value[..p.length] == data[2..2 + p.length]
    ensures forall i :: p.length <= i < GattTypes.PAYLOAD_SIZE ==> p.value[i] == 0
  {
    var length := Min(Min(|data| - 2, data[1]), GattTypes.PAYLOAD_SIZE);
    var value := data[2..2 + length] + Zeros(GattTypes.PAYLOAD_SIZE - length);
    assert value[..length] == data[2..2 + length];
    GattTypes.DataPoint(data[0], length, value)
  }

  function Min(a: int, b: int): int {
    if a < b then a else b
  }

  /** A data point whose buffer is zero past its length survives being sent and parsed. */
  lemma DataPointRoundTrip(p: GattTypes.DataPoint)
    requires p.length <= GattTypes.PAYLOAD_SIZE
    requires forall i :: p.length <= i < GattTypes.PAYLOAD_SIZE ==> p.value[i] == 0
    ensures DataPointFromGatt(GattTypes.ToGatt(p)) == p
  {
    var q := DataPointFromGatt(GattTypes.ToGatt(p));
    assert q.value == p.value;
  }

  /** So every data opcode's notification parses back to the point it was built from. */
  lemma DataOpcodeRoundTrip(d: GattTypes.DataOpcode)
    requires GattTypes.Fits(d)
    ensures DataPointFromGatt(GattTypes.ToGatt(GattTypes.FromOpcode(d))) == GattTypes.FromOpcode(d)
  {
    DataPointRoundTrip(GattTypes.FromOpcode(d));
  }

  /** And a message is reproduced by parsing and sending it again exactly when its length byte is honest. */
  lemma DataPointReencodes(data: seq<byte>)
    requires |data| >= 2
    ensures GattTypes.ToGatt(DataPointFromGatt(data)) == data
        <==> data[1] == |data| - 2 <= GattTypes.PAYLOAD_SIZE
  {
    var r := GattTypes.ToGatt(DataPointFromGatt(data));
    if data[1] == |data| - 2 <= GattTypes.PAYLOAD_SIZE {
      assert r == data[..2] + data[2..];
    }
  }

  datatype ControlOpcode =
    | Tare
    | StartMeasurement
    | StopMeasurement
    | StartPeakRfdMeasurement
    | StartPeakRfdMeasurementSeries
    | AddCalibrationPoint(weight: Float32.F32)
    | SaveCalibration
    | GetAppVersion
    | GetErrorInfo
    | ClearErrorInfo
    | Shutdown
    | SampleBattery
    | GetProgressorId

  /** `ControlOpcode::opcode`: the commands are numbered 0x64 to 0x70 in declaration order. */
  function Opcode(c: ControlOpcode): (b: byte)
    ensures 0x64 <= b <= 0x70
  {
    match c
    case Tare => 0x64
    case StartMeasurement => 0x65
    case StopMeasurement => 0x66
    case StartPeakRfdMeasurement => 0x67
    case StartPeakRfdMeasurementSeries => 0x68
    case AddCalibrationPoint(_) => 0x69
    case SaveCalibration => 0x6A
    case GetAppVersion => 0x6B
    case GetErrorInfo => 0x6C
    case ClearErrorInfo => 0x6D
    case Shutdown => 0x6E
    case SampleBattery => 0x6F
    case GetProgressorId => 0x70
  }

  const ZERO_VALUE: Bytes4 := [0, 0, 0, 0]

  /** The packed `ControlPoint`: an opcode, a length and a 4-byte payload. */
  datatype ControlPoint = ControlPoint(opcode: byte, length: byte, value: Bytes4)

  /** `ControlPoint::default`: all zero. */
  const DEFAULT_CONTROL_POINT: ControlPoint := ControlPoint(0, 0, ZERO_VALUE)

  /** `From<ControlOpcode> for ControlPoint`: the opcode with no payload, so an f32 is dropped. */
  function FromControlOpcode(c: ControlOpcode): (cp: ControlPoint)
    ensures cp.opcode == Opcode(c) && cp.length == 0 && cp.value == ZERO_VALUE
  {
    ControlPoint(Opcode(c), 0, ZERO_VALUE)
  }

  /** `TryFrom<ControlPoint> for ControlOpcode`: the command numbered by the opcode, or the opcode as the error. */
  function TryFrom(cp: ControlPoint): (r: Result<ControlOpcode, byte>)
    ensures r.Err? <==> !(0x64 <= cp.opcode <= 0x70)
    ensures r.Err? ==> r.error == cp.opcode
    ensures r.Ok? ==> Opcode(r.value) == cp.opcode
    ensures r.Ok? && r.value.AddCalibrationPoint? ==> r.value.weight == cp.value
  {
    match cp.opcode
    case 0x64 => Ok(Tare)
    case 0x65 => Ok(StartMeasurement)
    case 0x66 => Ok(StopMeasurement)
    case 0x67 => Ok(StartPeakRfdMeasurement)
    case 0x68 => Ok(StartPeakRfdMeasurementSeries)
    case 0x69 => Ok(AddCalibrationPoint(cp.value))
    case 0x6A => Ok(SaveCalibration)
    case 0x6B => Ok(GetAppVersion)
    case 0x6C => Ok(GetErrorInfo)
    case 0x6D => Ok(ClearErrorInfo)
    case 0x6E => Ok(Shutdown)
    case 0x6F => Ok(SampleBattery)
    case 0x70 => Ok(GetProgressorId)
    case other => Err(other)
  }

  /**
   * Converting a command to a control point and back gives the command, except that
   * AddCalibrationPoint comes back with a zero payload.
   */
  lemma TryFromInverse(c: ControlOpcode)
    ensures TryFrom(FromControlOpcode(c))
         == Ok(if c.AddCalibrationPoint? then AddCalibrationPoint(ZERO_VALUE) else c)
  {
  }

  const CONTROL_MIN_SIZE: nat := 1
  const CONTROL_MAX_SIZE: nat := 6

  /**
   * `ControlPoint::from_gatt`. An empty message panics (the error log reads its first byte), so
   * at least one byte is required. A message over six bytes gives the default point. An omitted
   * or zero length byte gives the opcode with no payload; a length byte that differs from the
   * payload size gives the default; otherwise the payload is copied into a zeroed buffer. The
   * `length > 4` branch is kept although no message reaches it.
   */
  function ControlPointFromGatt(data: seq<byte>): (cp: ControlPoint)
    requires |data| >= CONTROL_MIN_SIZE
    ensures |data| > CONTROL_MAX_SIZE ==> cp == DEFAULT_CONTROL_POINT
    ensures |data| <= CONTROL_MAX_SIZE && (|data| == 1 || data[1] == 0) ==> cp == ControlPoint(data[0], 0, ZERO_VALUE)
    ensures |data| <= CONTROL_MAX_SIZE && |data| >= 2 && data[1] != 0 && data[1] != |data| - 2 ==> cp == DEFAULT_CONTROL_POINT
    ensures cp.length <= 4 && forall i :: cp.length <= i < 4 ==> cp.value[i] == 0
    ensures cp.length != 0 ==> ControlPointToGatt(cp) == data
  {
    if |data| < CONTROL_MIN_SIZE || |data| > CONTROL_MAX_SIZE then DEFAULT_CONTROL_POINT
    else
      var opcode := data[0];
      var length: byte := if |data| >= 2 then data[1] else 0;
      if length == 0 then ControlPoint(opcode, 0, ZERO_VALUE)
      else if length != |data| - 2 then DEFAULT_CONTROL_POINT
      else if length > 4 then DEFAULT_CONTROL_POINT.(opcode := opcode)
      else
        var value := data[2..2 + length] + Zeros(4 - length);
        assert ([opcode, length] + value)[..length + 2] == data;
        ControlPoint(opcode, length, value)
  }

  /** `ControlPoint::to_gatt`: the first `length + 2` bytes; a length above 4 would slice past the struct. */
  function ControlPointToGatt(cp: ControlPoint): (r: seq<byte>)
    requires cp.length <= 4
    ensures |r| == cp.length + 2 && r[0] == cp.opcode && r[1] == cp.length
    ensures r[2..] == cp.value[..cp.length]
  {
    ([cp.opcode, cp.length] + cp.value)[..cp.length + 2]
  }

  /** The guard `length > 4` never fires: a length equal to the payload size of at most six bytes is at most 4. */
  lemma LengthGuardUnreachable(data: seq<byte>)
    requires CONTROL_MIN_SIZE <= |data| <= CONTROL_MAX_SIZE && |data| >= 2
    requires data[1] != 0 && data[1] == |data| - 2
    ensures 0 < data[1] <= 4
    ensures ControlPointFromGatt(data).length == data[1]
  {
  }

  /** A control point whose buffer is zero past its length survives being sent and parsed. */
  lemma ControlPointRoundTrip(cp: ControlPoint)
    requires cp.length <= 4
    requires forall i :: cp.length <= i < 4 ==> cp.value[i] == 0
    ensures ControlPointFromGatt(ControlPointToGatt(cp)) == cp
  {
    var data := ControlPointToGatt(cp);
    if cp.length == 0 {
      assert cp.value == ZERO_VALUE;
    } else {
      assert ControlPointFromGatt(data).value == cp.value;
    }
  }

  /**
   * End to end: a one-byte message carrying a command's opcode is that command, and an
   * AddCalibrationPoint with its length byte 4 carries its f32.
   */
  lemma CommandDecoding(c: ControlOpcode)
    ensures !c.AddCalibrationPoint? ==> TryFrom(ControlPointFromGatt([Opcode(c)])) == Ok(c)
    ensures c.AddCalibrationPoint? ==> TryFrom(ControlPointFromGatt([0x69, 4] + c.weight)) == Ok(c)
  {
    if c.AddCalibrationPoint? {
      var data: seq<byte> := [0x69, 4] + c.weight;
      assert data[2..6] + Zeros(0) == c.weight;
    }
  }
}
