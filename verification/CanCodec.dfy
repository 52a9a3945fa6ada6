// The CAN demo protocol: frame layout, CRC, quantisation and the rolling
// counter (control_link_adapters/src/can_codec.cpp).
module CanCodec {
  import opened Common
  import opened Crc8

  type Payload = data: seq<bv8> | |data| == 8 witness [0, 0, 0, 0, 0, 0, 0, 0]

  datatype CanFrame = CanFrame(
    canId: bv32,
    dlc: uint8,
    isExtended: bool,
    isRemote: bool,
    data: Payload)

  datatype CanControlMode = Hold | Active

  datatype CanControlSignals = CanControlSignals(
    mode: CanControlMode,
    targetSpeed: Double,
    targetYawRate: Double,
    rollingCounter: uint8)

  datatype CanVehicleMode = Standby | Running | SafeStop | Fault

  datatype CanVehicleStateSignals = CanVehicleStateSignals(
    mode: CanVehicleMode,
    measuredSpeed: Double,
    measuredYawRate: Double,
    faultCode: uint8,
    stateCounter: uint8,
    echoedControlCounter: uint8)

  datatype CanCodecConfig = CanCodecConfig(
    controlCanId: bv32,
    stateCanId: bv32,
    dlc: uint8,
    speedScale: real,
    yawRateScale: real,
    speedMin: real,
    speedMax: real,
    yawRateMin: real,
    yawRateMax: real,
    modulo: uint8,
    crcPolynomial: bv8,
    crcInitialValue: bv8,
    crcFinalXor: bv8)
  {
    // What the CanCodec constructor accepts.
    predicate Valid() {
      && controlCanId <= 0x7FF && stateCanId <= 0x7FF && controlCanId != stateCanId
      && dlc == 8 && 2 <= modulo <= 16
      && speedScale > 0.0 && yawRateScale > 0.0
      && speedMin <= speedMax && yawRateMin <= yawRateMax
    }
  }

  datatype RejectReason =
    | WrongCanId | WrongDlc | ExtendedFrame | RemoteFrame | CrcMismatch
    | ReservedBitsNonzero | InvalidMode | InvalidCommandValid | HoldNonzero
    | SignalNonFinite | OutOfRange | CounterOutOfRange

  // ---------------------------------------------------------------- CRC

  function IdLow(canId: bv32): bv8 {
    (canId & 0xFF) as bv8
  }

  function IdHigh(canId: bv32): bv8 {
    ((canId >> 8) & 0xFF) as bv8
  }

  function IdBytes(canId: bv32): seq<bv8> {
    [IdLow(canId), IdHigh(canId)]
  }

  // The CRC the frame should carry in byte 7.
  function FrameCrc(cfg: CanCodecConfig, canId: bv32, data: seq<bv8>): bv8
    requires |data| >= 7
  {
    Add(AbsorbAll(cfg.crcInitialValue, IdBytes(canId) + data[..7], cfg.crcPolynomial), cfg.crcFinalXor)
  }

  method CalculateCrc(cfg: CanCodecConfig, canId: bv32, data: array<bv8>) returns (crc: bv8)
    requires data.Length == 8
    ensures crc == FrameCrc(cfg, canId, data[..])
  {
    ghost var bytes := IdBytes(canId) + data[..7];
    var polynomial := cfg.crcPolynomial;
    crc := cfg.crcInitialValue;
    crc := UpdateCrc(crc, IdLow(canId), polynomial);
    crc := UpdateCrc(crc, IdHigh(canId), polynomial);
    IdAbsorbed(cfg.crcInitialValue, canId, data[..7], polynomial);
    for index := 0 to 7
      invariant crc == AbsorbAll(cfg.crcInitialValue, bytes[..index + 2], polynomial)
    {
      crc := UpdateCrc(crc, data[index], polynomial);
      NextAbsorbed(cfg.crcInitialValue, bytes, index + 2, polynomial);
    }
    assert bytes[..9] == bytes && data[..][..7] == data[..7];
    crc := Add(crc, cfg.crcFinalXor);
  }

  lemma NextAbsorbed(start: bv8, bytes: seq<bv8>, n: nat, polynomial: bv8)
    requires n < |bytes|
    ensures AbsorbAll(start, bytes[..n + 1], polynomial) ==
            Absorb(AbsorbAll(start, bytes[..n], polynomial), bytes[n], polynomial)
  {
    assert bytes[..n + 1][..n] == bytes[..n];
  }

  lemma IdAbsorbed(start: bv8, canId: bv32, data: seq<bv8>, polynomial: bv8)
    ensures AbsorbAll(start, (IdBytes(canId) + data)[..2], polynomial) ==
            Absorb(Absorb(start, IdLow(canId), polynomial), IdHigh(canId), polynomial)
  {
    var bytes := IdBytes(canId) + data;
    NextAbsorbed(start, bytes, 0, polynomial);
    NextAbsorbed(start, bytes, 1, polynomial);
    assert bytes[..0] == [] && bytes[0] == IdLow(canId) && bytes[1] == IdHigh(canId);
  }

  // ------------------------------------------------------- signed fields

  function ByteOf(n: uint8): bv8 {
    n as bv8
  }

  function NatOf(b: bv8): uint8 {
    b as int
  }

  function LowNibble(b: bv8): uint8 {
    (b & 0x0F) as int
  }

  function HighNibble(b: bv8): uint8 {
    (b >> 4) as int
  }

  // Reads an unsigned 16-bit value as two's complement.
  function ToSigned(raw: int): int {
    if raw <= 0x7FFF then raw else raw - 0x1_0000
  }

  function Signed16(lo: bv8, hi: bv8): int {
    ToSigned(NatOf(lo) + 256 * NatOf(hi))
  }

  function DecodeSignedLe(data: seq<bv8>, offset: nat): int
    requires offset + 1 < |data|
  {
    Signed16(data[offset], data[offset + 1])
  }

  function LowByte(value: int): uint8 {
    value % 0x1_0000 % 256
  }

  function HighByte(value: int): uint8 {
    value % 0x1_0000 / 256
  }

  // Little-endian two's complement of the low 16 bits of `value`.
  function SignedLe(value: int): (bytes: seq<bv8>)
    ensures |bytes| == 2
  {
    [ByteOf(LowByte(value)), ByteOf(HighByte(value))]
  }

  method EncodeSignedLe(data: array<bv8>, offset: nat, value: int)
    requires offset + 1 < data.Length
    modifies data
    ensures data[offset..offset + 2] == SignedLe(value)
    ensures forall k :: 0 <= k < data.Length && k != offset && k != offset + 1 ==> data[k] == old(data[k])
  {
    var raw := value % 0x1_0000;
    data[offset] := ByteOf(raw % 256);
    data[offset + 1] := ByteOf(raw / 256 % 256);
  }

  // -------------------------------------------------------- quantisation

  // std::round: halves go away from zero.
  function Round(x: real): int {
    if x >= 0.0 then (x + 0.5).Floor else -((-x + 0.5).Floor)
  }

  // A physical value in steps of the scale, and back.
  function Steps(value: real, scale: real): real
    requires scale > 0.0
  {
    value / scale
  }

  function Scaled(raw: int, scale: real): real {
    raw as real * scale
  }

  predicate FitsInt16(raw: int) {
    -32768 <= raw <= 32767
  }

  function Quantize(value: Double, scale: real, minimum: real, maximum: real): Option<int>
    requires scale > 0.0
  {
    if value.NonFinite? || value.value < minimum || value.value > maximum then None
    else
      var raw := Round(Steps(value.value, scale));
      if FitsInt16(raw) then Some(raw) else None
  }

  function ValidateCommonSignals(cfg: CanCodecConfig, speed: Double, yawRate: Double): Option<RejectReason> {
    if speed.NonFinite? || yawRate.NonFinite? then Some(SignalNonFinite)
    else if || speed.value < cfg.speedMin || speed.value > cfg.speedMax
            || yawRate.value < cfg.yawRateMin || yawRate.value > cfg.yawRateMax then Some(OutOfRange)
    else None
  }

  // -------------------------------------------------------------- encode

  function ControlModeByte(mode: CanControlMode): bv8 {
    match mode case Hold => 0 case Active => 1
  }

  function VehicleModeByte(mode: CanVehicleMode): bv8 {
    match mode case Standby => 0 case Running => 1 case SafeStop => 2 case Fault => 3
  }

  function ControlModeOf(b: bv8): CanControlMode {
    if b == 0 then Hold else Active
  }

  function VehicleModeOf(b: bv8): CanVehicleMode {
    if b == 0 then Standby else if b == 1 then Running else if b == 2 then SafeStop else Fault
  }

  // A frame with the given first seven bytes and a matching CRC.
  function Sealed(cfg: CanCodecConfig, canId: bv32, body: seq<bv8>): CanFrame
    requires |body| == 7
  {
    CanFrame(canId, cfg.dlc, false, false, body + [FrameCrc(cfg, canId, body)])
  }

  function CounterNibbles(stateCounter: uint8, echoed: uint8): bv8 {
    (ByteOf(stateCounter) & 0x0F) | ((ByteOf(echoed) & 0x0F) << 4)
  }

  // What encode_control computes.
  function ControlFrameFor(cfg: CanCodecConfig, s: CanControlSignals): Result<CanFrame, RejectReason>
    requires cfg.Valid()
  {
    var reason := ValidateCommonSignals(cfg, s.targetSpeed, s.targetYawRate);
    if s.rollingCounter >= cfg.modulo then Err(CounterOutOfRange)
    else if reason.Some? then Err(reason.value)
    else if s.mode.Hold? && (s.targetSpeed != Finite(0.0) || s.targetYawRate != Finite(0.0)) then
      Err(HoldNonzero)
    else
      var speed := Quantize(s.targetSpeed, cfg.speedScale, cfg.speedMin, cfg.speedMax);
      var yawRate := Quantize(s.targetYawRate, cfg.yawRateScale, cfg.yawRateMin, cfg.yawRateMax);
      if speed.None? || yawRate.None? then Err(OutOfRange)
      else
        Ok(Sealed(cfg, cfg.controlCanId,
                  SignedLe(speed.value) + SignedLe(yawRate.value)
                  + [ControlModeByte(s.mode), ByteOf(s.rollingCounter), 0x01]))
  }

  // What encode_state computes.
  function StateFrameFor(cfg: CanCodecConfig, s: CanVehicleStateSignals): Result<CanFrame, RejectReason>
    requires cfg.Valid()
  {
    var reason := ValidateCommonSignals(cfg, s.measuredSpeed, s.measuredYawRate);
    if s.stateCounter >= cfg.modulo || s.echoedControlCounter >= cfg.modulo then Err(CounterOutOfRange)
    else if reason.Some? then Err(reason.value)
    else
      var speed := Quantize(s.measuredSpeed, cfg.speedScale, cfg.speedMin, cfg.speedMax);
      var yawRate := Quantize(s.measuredYawRate, cfg.yawRateScale, cfg.yawRateMin, cfg.yawRateMax);
      if speed.None? || yawRate.None? then Err(OutOfRange)
      else
        Ok(Sealed(cfg, cfg.stateCanId,
                  SignedLe(speed.value) + SignedLe(yawRate.value)
                  + [VehicleModeByte(s.mode), ByteOf(s.faultCode),
                     CounterNibbles(s.stateCounter, s.echoedControlCounter)]))
  }

  method EncodeControl(cfg: CanCodecConfig, s: CanControlSignals) returns (r: Result<CanFrame, RejectReason>)
    requires cfg.Valid()
    ensures r == ControlFrameFor(cfg, s)
  {
    if s.rollingCounter >= cfg.modulo {
      return Err(CounterOutOfRange);
    }
    var reason := ValidateCommonSignals(cfg, s.targetSpeed, s.targetYawRate);
    if reason.Some? {
      return Err(reason.value);
    }
    if s.mode.Hold? && (s.targetSpeed.value != 0.0 || s.targetYawRate.value != 0.0) {
      return Err(HoldNonzero);
    }
    var speed := Quantize(s.targetSpeed, cfg.speedScale, cfg.speedMin, cfg.speedMax);
    var yawRate := Quantize(s.targetYawRate, cfg.yawRateScale, cfg.yawRateMin, cfg.yawRateMax);
    if speed.None? || yawRate.None? {
      return Err(OutOfRange);
    }
    var data := new bv8[8](_ => 0);
    EncodeSignedLe(data, 0, speed.value);
    EncodeSignedLe(data, 2, yawRate.value);
    data[4] := ControlModeByte(s.mode);
    data[5] := ByteOf(s.rollingCounter);
    data[6] := 0x01;
    ghost var body := SignedLe(speed.value) + SignedLe(yawRate.value)
                      + [ControlModeByte(s.mode), ByteOf(s.rollingCounter), 0x01];
    var frame := Seal(cfg, cfg.controlCanId, data, body);
    return Ok(frame);
  }

  method EncodeState(cfg: CanCodecConfig, s: CanVehicleStateSignals) returns (r: Result<CanFrame, RejectReason>)
    requires cfg.Valid()
    ensures r == StateFrameFor(cfg, s)
  {
    if s.stateCounter >= cfg.modulo || s.echoedControlCounter >= cfg.modulo {
      return Err(CounterOutOfRange);
    }
    var reason := ValidateCommonSignals(cfg, s.measuredSpeed, s.measuredYawRate);
    if reason.Some? {
      return Err(reason.value);
    }
    var speed := Quantize(s.measuredSpeed, cfg.speedScale, cfg.speedMin, cfg.speedMax);
    var yawRate := Quantize(s.measuredYawRate, cfg.yawRateScale, cfg.yawRateMin, cfg.yawRateMax);
    if speed.None? || yawRate.None? {
      return Err(OutOfRange);
    }
    var data := new bv8[8](_ => 0);
    EncodeSignedLe(data, 0, speed.value);
    EncodeSignedLe(data, 2, yawRate.value);
    data[4] := VehicleModeByte(s.mode);
    data[5] := ByteOf(s.faultCode);
    data[6] := CounterNibbles(s.stateCounter, s.echoedControlCounter);
    ghost var body := SignedLe(speed.value) + SignedLe(yawRate.value)
                      + [VehicleModeByte(s.mode), ByteOf(s.faultCode),
                         CounterNibbles(s.stateCounter, s.echoedControlCounter)];
    var frame := Seal(cfg, cfg.stateCanId, data, body);
    return Ok(frame);
  }

  // Writes the CRC over the seven filled bytes and packs the frame.
  method Seal(cfg: CanCodecConfig, canId: bv32, data: array<bv8>, ghost body: seq<bv8>)
    returns (frame: CanFrame)
    requires data.Length == 8 && |body| == 7
    requires data[0..2] == body[0..2] && data[2..4] == body[2..4]
    requires data[4] == body[4] && data[5] == body[5] && data[6] == body[6]
    modifies data
    ensures frame == Sealed(cfg, canId, body)
  {
    assert forall k :: 0 <= k < 2 ==> data[k] == data[0..2][k] == body[0..2][k];
    assert forall k :: 2 <= k < 4 ==> data[k] == data[2..4][k - 2] == body[2..4][k - 2];
    assert data[..][..7] == body == body[..7];
    var crc := CalculateCrc(cfg, canId, data);
    data[7] := crc;
    assert data[..] == body + [crc];
    frame := CanFrame(canId, cfg.dlc, false, false, data[..]);
  }

  // -------------------------------------------------------------- decode

  function ValidateFrameShape(cfg: CanCodecConfig, frame: CanFrame, expectedId: bv32): Option<RejectReason> {
    if frame.canId != expectedId then Some(WrongCanId)
    else if frame.dlc != cfg.dlc then Some(WrongDlc)
    else if frame.isExtended then Some(ExtendedFrame)
    else if frame.isRemote then Some(RemoteFrame)
    else None
  }

  predicate ReservedBitsClear(counter: bv8, flags: bv8) {
    counter & 0xF0 == 0 && flags & 0xFE == 0
  }

  function DecodeControl(cfg: CanCodecConfig, frame: CanFrame): Result<CanControlSignals, RejectReason> {
    var shape := ValidateFrameShape(cfg, frame, cfg.controlCanId);
    if shape.Some? then Err(shape.value)
    else if !ReservedBitsClear(frame.data[5], frame.data[6]) then Err(ReservedBitsNonzero)
    else if frame.data[6] != 0x01 then Err(InvalidCommandValid)
    else if frame.data[7] != FrameCrc(cfg, frame.canId, frame.data) then Err(CrcMismatch)
    else if frame.data[4] > 1 then Err(InvalidMode)
    else
      var mode := ControlModeOf(frame.data[4]);
      var speed := Scaled(DecodeSignedLe(frame.data, 0), cfg.speedScale);
      var yawRate := Scaled(DecodeSignedLe(frame.data, 2), cfg.yawRateScale);
      var reason := ValidateCommonSignals(cfg, Finite(speed), Finite(yawRate));
      if reason.Some? then Err(reason.value)
      else if mode.Hold? && (speed != 0.0 || yawRate != 0.0) then Err(HoldNonzero)
      else Ok(CanControlSignals(mode, Finite(speed), Finite(yawRate), LowNibble(frame.data[5])))
  }

  function DecodeState(cfg: CanCodecConfig, frame: CanFrame): Result<CanVehicleStateSignals, RejectReason> {
    var shape := ValidateFrameShape(cfg, frame, cfg.stateCanId);
    if shape.Some? then Err(shape.value)
    else if frame.data[7] != FrameCrc(cfg, frame.canId, frame.data) then Err(CrcMismatch)
    else if frame.data[4] > 3 then Err(InvalidMode)
    else
      var mode := VehicleModeOf(frame.data[4]);
      var stateCounter := LowNibble(frame.data[6]);
      var echoed := HighNibble(frame.data[6]);
      if stateCounter >= cfg.modulo || echoed >= cfg.modulo then Err(CounterOutOfRange)
      else
        var speed := Scaled(DecodeSignedLe(frame.data, 0), cfg.speedScale);
        var yawRate := Scaled(DecodeSignedLe(frame.data, 2), cfg.yawRateScale);
        var reason := ValidateCommonSignals(cfg, Finite(speed), Finite(yawRate));
        if reason.Some? then Err(reason.value)
        else Ok(CanVehicleStateSignals(mode, Finite(speed), Finite(yawRate),
                                       NatOf(frame.data[5]), stateCounter, echoed))
  }
}
