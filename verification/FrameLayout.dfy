// The wire format byte by byte, for the encoder and the decoder alike, and two
// complete frames (control_link_adapters/src/can_codec.cpp,
// config/adas/can_signal_map.yaml).
module FrameLayout {
  import opened Common
  import opened Crc8
  import opened CanCodec
  import opened CodecLaws

  // Two bytes as a signed number, low byte first.
  function Word(low: bv8, high: bv8): int {
    var raw := NatOf(low) + 256 * NatOf(high);
    if raw < 0x8000 then raw else raw - 0x1_0000
  }

  // The bytes say the value to within half a step of the scale.
  predicate Says(low: bv8, high: bv8, scale: real, value: real) {
    value - scale / 2.0 <= Scaled(Word(low, high), scale) <= value + scale / 2.0
  }

  predicate Standard(f: CanFrame, canId: bv32) {
    f.canId == canId && f.dlc == 8 && !f.isExtended && !f.isRemote
  }

  predicate Motionless(f: CanFrame) {
    f.data[0] == f.data[1] == f.data[2] == f.data[3] == 0
  }

  predicate CrcMatches(cfg: CanCodecConfig, f: CanFrame) {
    f.data[7] == FrameCrc(cfg, f.canId, f.data)
  }

  // --------------------------------------------------------------- encoder

  lemma WordsOfSealed(cfg: CanCodecConfig, canId: bv32, speed: int, yawRate: int, tail: seq<bv8>)
    requires cfg.Valid() && |tail| == 3 && FitsInt16(speed) && FitsInt16(yawRate)
    ensures var f := Sealed(cfg, canId, SignedLe(speed) + SignedLe(yawRate) + tail);
            && Standard(f, canId) && CrcMatches(cfg, f)
            && Word(f.data[0], f.data[1]) == speed && Word(f.data[2], f.data[3]) == yawRate
            && f.data[4] == tail[0] && f.data[5] == tail[1] && f.data[6] == tail[2]
  {
    SealedFields(cfg, canId, speed, yawRate, tail);
    var f := Sealed(cfg, canId, SignedLe(speed) + SignedLe(yawRate) + tail);
    WordsRead(f.data);
  }

  lemma WordsRead(data: Payload)
    ensures DecodeSignedLe(data, 0) == Word(data[0], data[1]) && DecodeSignedLe(data, 2) == Word(data[2], data[3])
  {
  }

  lemma QuantizedSays(value: Double, scale: real, minimum: real, maximum: real, low: bv8, high: bv8)
    requires scale > 0.0 && Quantize(value, scale, minimum, maximum) == Some(Word(low, high))
    ensures Says(low, high, scale, value.value)
  {
    NearestMultiple(value.value, scale);
  }

  // A control frame carries speed and yaw rate in bytes 0 to 3, the mode in
  // byte 4, where 0 is HOLD and 1 is ACTIVE, the counter in byte 5, the valid
  // flag in byte 6 and the CRC in byte 7.
  lemma ControlLayout(cfg: CanCodecConfig, s: CanControlSignals)
    requires cfg.Valid() && ControlFrameFor(cfg, s).Ok?
    ensures var f := ControlFrameFor(cfg, s).value;
            && Standard(f, cfg.controlCanId) && CrcMatches(cfg, f)
            && s.targetSpeed.Finite? && Says(f.data[0], f.data[1], cfg.speedScale, s.targetSpeed.value)
            && s.targetYawRate.Finite? && Says(f.data[2], f.data[3], cfg.yawRateScale, s.targetYawRate.value)
            && (s.mode.Hold? ==> Motionless(f) && f.data[4] == 0) && (s.mode.Active? ==> f.data[4] == 1)
            && f.data[5] == s.rollingCounter as bv8 && f.data[6] == 0x01
  {
    var speed := Quantize(s.targetSpeed, cfg.speedScale, cfg.speedMin, cfg.speedMax).value;
    var yawRate := Quantize(s.targetYawRate, cfg.yawRateScale, cfg.yawRateMin, cfg.yawRateMax).value;
    var f := ControlFrameFor(cfg, s).value;
    WordsOfSealed(cfg, cfg.controlCanId, speed, yawRate, [ControlModeByte(s.mode), ByteOf(s.rollingCounter), 0x01]);
    QuantizedSays(s.targetSpeed, cfg.speedScale, cfg.speedMin, cfg.speedMax, f.data[0], f.data[1]);
    QuantizedSays(s.targetYawRate, cfg.yawRateScale, cfg.yawRateMin, cfg.yawRateMax, f.data[2], f.data[3]);
    if s.mode.Hold? {
      ZeroSteps(cfg.speedScale, cfg.speedMin, cfg.speedMax);
      ZeroSteps(cfg.yawRateScale, cfg.yawRateMin, cfg.yawRateMax);
      ZeroWord(f.data[0], f.data[1]);
      ZeroWord(f.data[2], f.data[3]);
    }
  }

  lemma ZeroSteps(scale: real, minimum: real, maximum: real)
    requires scale > 0.0
    ensures Quantize(Finite(0.0), scale, minimum, maximum).Some? ==>
              Quantize(Finite(0.0), scale, minimum, maximum) == Some(0)
  {
    assert Steps(0.0, scale) == 0.0;
  }

  lemma ZeroWord(low: bv8, high: bv8)
    ensures Word(low, high) == 0 <==> low == 0 && high == 0
  {
    ByteIsItsNumber(low);
    ByteIsItsNumber(high);
  }

  // A state frame carries the mode as 0 to 3 in byte 4, the fault code in byte
  // 5, and the two counters in the nibbles of byte 6.
  lemma StateLayout(cfg: CanCodecConfig, s: CanVehicleStateSignals)
    requires cfg.Valid() && StateFrameFor(cfg, s).Ok?
    ensures var f := StateFrameFor(cfg, s).value;
            && Standard(f, cfg.stateCanId) && CrcMatches(cfg, f)
            && s.measuredSpeed.Finite? && Says(f.data[0], f.data[1], cfg.speedScale, s.measuredSpeed.value)
            && s.measuredYawRate.Finite? && Says(f.data[2], f.data[3], cfg.yawRateScale, s.measuredYawRate.value)
            && (match s.mode
                case Standby => f.data[4] == 0
                case Running => f.data[4] == 1
                case SafeStop => f.data[4] == 2
                case Fault => f.data[4] == 3)
            && f.data[5] == s.faultCode as bv8
            && f.data[6] & 0x0F == s.stateCounter as bv8 && f.data[6] >> 4 == s.echoedControlCounter as bv8
  {
    var speed := Quantize(s.measuredSpeed, cfg.speedScale, cfg.speedMin, cfg.speedMax).value;
    var yawRate := Quantize(s.measuredYawRate, cfg.yawRateScale, cfg.yawRateMin, cfg.yawRateMax).value;
    var f := StateFrameFor(cfg, s).value;
    WordsOfSealed(cfg, cfg.stateCanId, speed, yawRate,
                  [VehicleModeByte(s.mode), ByteOf(s.faultCode), CounterNibbles(s.stateCounter, s.echoedControlCounter)]);
    QuantizedSays(s.measuredSpeed, cfg.speedScale, cfg.speedMin, cfg.speedMax, f.data[0], f.data[1]);
    QuantizedSays(s.measuredYawRate, cfg.yawRateScale, cfg.yawRateMin, cfg.yawRateMax, f.data[2], f.data[3]);
    SmallByte(s.stateCounter);
    SmallByte(s.echoedControlCounter);
    JoinNibbles(ByteOf(s.stateCounter), ByteOf(s.echoedControlCounter));
  }

  predicate InRange(value: Double, minimum: real, maximum: real) {
    value.Finite? && minimum <= value.value <= maximum
  }

  // Which commands the encoder refuses when every value in range fits 16 bits,
  // and why.
  lemma ControlEncodes(cfg: CanCodecConfig, s: CanControlSignals)
    requires cfg.Valid() && RangesFit(cfg)
    ensures ControlFrameFor(cfg, s).Ok? <==>
            && s.rollingCounter < cfg.modulo
            && InRange(s.targetSpeed, cfg.speedMin, cfg.speedMax)
            && InRange(s.targetYawRate, cfg.yawRateMin, cfg.yawRateMax)
            && (s.mode.Hold? ==> s.targetSpeed.value == 0.0 && s.targetYawRate.value == 0.0)
    ensures ControlFrameFor(cfg, s) == Err(CounterOutOfRange) <==> s.rollingCounter >= cfg.modulo
    ensures ControlFrameFor(cfg, s) == Err(SignalNonFinite) <==>
            s.rollingCounter < cfg.modulo && (s.targetSpeed.NonFinite? || s.targetYawRate.NonFinite?)
    ensures ControlFrameFor(cfg, s) == Err(HoldNonzero) <==>
            && s.rollingCounter < cfg.modulo && s.mode.Hold?
            && InRange(s.targetSpeed, cfg.speedMin, cfg.speedMax)
            && InRange(s.targetYawRate, cfg.yawRateMin, cfg.yawRateMax)
            && (s.targetSpeed.value != 0.0 || s.targetYawRate.value != 0.0)
  {
    if s.targetSpeed.Finite? && s.targetYawRate.Finite? {
      QuantizeTotal(s.targetSpeed.value, cfg.speedScale, cfg.speedMin, cfg.speedMax);
      QuantizeTotal(s.targetYawRate.value, cfg.yawRateScale, cfg.yawRateMin, cfg.yawRateMax);
    }
  }

  lemma StateEncodes(cfg: CanCodecConfig, s: CanVehicleStateSignals)
    requires cfg.Valid() && RangesFit(cfg)
    ensures StateFrameFor(cfg, s).Ok? <==>
            && s.stateCounter < cfg.modulo && s.echoedControlCounter < cfg.modulo
            && InRange(s.measuredSpeed, cfg.speedMin, cfg.speedMax)
            && InRange(s.measuredYawRate, cfg.yawRateMin, cfg.yawRateMax)
    ensures StateFrameFor(cfg, s) == Err(CounterOutOfRange) <==>
            s.stateCounter >= cfg.modulo || s.echoedControlCounter >= cfg.modulo
    ensures StateFrameFor(cfg, s) == Err(SignalNonFinite) <==>
            && s.stateCounter < cfg.modulo && s.echoedControlCounter < cfg.modulo
            && (s.measuredSpeed.NonFinite? || s.measuredYawRate.NonFinite?)
  {
    if s.measuredSpeed.Finite? && s.measuredYawRate.Finite? {
      QuantizeTotal(s.measuredSpeed.value, cfg.speedScale, cfg.speedMin, cfg.speedMax);
      QuantizeTotal(s.measuredYawRate.value, cfg.yawRateScale, cfg.yawRateMin, cfg.yawRateMax);
    }
  }

  // Halves go away from zero.
  lemma HalvesRoundAway(n: nat)
    ensures Round(n as real + 0.5) == n + 1 && Round(-(n as real + 0.5)) == -(n + 1)
  {
  }

  // --------------------------------------------------------------- decoder

  lemma ReservedBits(counter: bv8, flags: bv8)
    ensures ReservedBitsClear(counter, flags) <==> counter <= 0x0F && flags <= 0x01
    ensures counter <= 0x0F ==> counter & 0x0F == counter
  {
  }

  predicate WithinRanges(cfg: CanCodecConfig, f: CanFrame) {
    && cfg.speedMin <= Scaled(Word(f.data[0], f.data[1]), cfg.speedScale) <= cfg.speedMax
    && cfg.yawRateMin <= Scaled(Word(f.data[2], f.data[3]), cfg.yawRateScale) <= cfg.yawRateMax
  }

  lemma MotionlessExactly(cfg: CanCodecConfig, f: CanFrame)
    requires cfg.Valid()
    ensures Motionless(f) <==>
            && Scaled(Word(f.data[0], f.data[1]), cfg.speedScale) == 0.0
            && Scaled(Word(f.data[2], f.data[3]), cfg.yawRateScale) == 0.0
  {
    ZeroProduct(Word(f.data[0], f.data[1]), cfg.speedScale);
    ZeroProduct(Word(f.data[2], f.data[3]), cfg.yawRateScale);
    ZeroWord(f.data[0], f.data[1]);
    ZeroWord(f.data[2], f.data[3]);
  }

  lemma ZeroProduct(n: int, scale: real)
    requires scale > 0.0
    ensures Scaled(n, scale) == 0.0 <==> n == 0
  {
    StepsOfScaled(n, scale);
    assert Steps(0.0, scale) == 0.0;
  }

  // Exactly which frames are taken for a control frame, and what they say.
  lemma ControlRead(cfg: CanCodecConfig, f: CanFrame)
    requires cfg.Valid()
    ensures DecodeControl(cfg, f).Ok? <==>
            && Standard(f, cfg.controlCanId) && f.data[5] <= 0x0F && f.data[6] == 0x01 && CrcMatches(cfg, f)
            && f.data[4] <= 1 && WithinRanges(cfg, f) && (f.data[4] == 0 ==> Motionless(f))
    ensures DecodeControl(cfg, f).Ok? ==>
              DecodeControl(cfg, f).value ==
              CanControlSignals(if f.data[4] == 1 then Active else Hold,
                                Finite(Scaled(Word(f.data[0], f.data[1]), cfg.speedScale)),
                                Finite(Scaled(Word(f.data[2], f.data[3]), cfg.yawRateScale)), f.data[5] as int)
  {
    ReservedBits(f.data[5], f.data[6]);
    MotionlessExactly(cfg, f);
    WordsRead(f.data);
  }

  // The same for a state frame, whose reserved bits and rest are not checked.
  lemma StateRead(cfg: CanCodecConfig, f: CanFrame)
    requires cfg.Valid()
    ensures DecodeState(cfg, f).Ok? <==>
            && Standard(f, cfg.stateCanId) && CrcMatches(cfg, f) && f.data[4] <= 3 && WithinRanges(cfg, f)
            && (f.data[6] & 0x0F) as int < cfg.modulo && (f.data[6] >> 4) as int < cfg.modulo
    ensures DecodeState(cfg, f).Ok? ==>
              DecodeState(cfg, f).value ==
              CanVehicleStateSignals(
                if f.data[4] == 0 then Standby else if f.data[4] == 1 then Running
                else if f.data[4] == 2 then SafeStop else Fault,
                Finite(Scaled(Word(f.data[0], f.data[1]), cfg.speedScale)),
                Finite(Scaled(Word(f.data[2], f.data[3]), cfg.yawRateScale)),
                f.data[5] as int, (f.data[6] & 0x0F) as int, (f.data[6] >> 4) as int)
  {
    WordsRead(f.data);
  }

  // The parts of a control frame that are checked before its CRC.
  predicate FlagsRead(f: CanFrame) {
    f.data[5] <= 0x0F && f.data[6] == 0x01
  }

  // The reason is that of the first check that fails.
  lemma ControlRefused(cfg: CanCodecConfig, f: CanFrame)
    requires cfg.Valid()
    ensures DecodeControl(cfg, f).Err? ==>
              match DecodeControl(cfg, f).error
              case WrongCanId => f.canId != cfg.controlCanId
              case WrongDlc => f.canId == cfg.controlCanId && f.dlc != 8
              case ExtendedFrame => f.canId == cfg.controlCanId && f.dlc == 8 && f.isExtended
              case RemoteFrame => f.canId == cfg.controlCanId && f.dlc == 8 && !f.isExtended && f.isRemote
              case ReservedBitsNonzero => Standard(f, cfg.controlCanId) && (f.data[5] > 0x0F || f.data[6] > 0x01)
              case InvalidCommandValid => Standard(f, cfg.controlCanId) && f.data[5] <= 0x0F && f.data[6] == 0x00
              case CrcMismatch => Standard(f, cfg.controlCanId) && FlagsRead(f) && !CrcMatches(cfg, f)
              case InvalidMode => FlagsRead(f) && CrcMatches(cfg, f) && f.data[4] > 1
              case OutOfRange => FlagsRead(f) && CrcMatches(cfg, f) && f.data[4] <= 1 && !WithinRanges(cfg, f)
              case HoldNonzero => CrcMatches(cfg, f) && WithinRanges(cfg, f) && f.data[4] == 0 && !Motionless(f)
              case SignalNonFinite => false
              case CounterOutOfRange => false
  {
    ReservedBits(f.data[5], f.data[6]);
    MotionlessExactly(cfg, f);
    WordsRead(f.data);
  }

  lemma StateRefused(cfg: CanCodecConfig, f: CanFrame)
    requires cfg.Valid()
    ensures DecodeState(cfg, f).Err? ==>
              match DecodeState(cfg, f).error
              case WrongCanId => f.canId != cfg.stateCanId
              case WrongDlc => f.canId == cfg.stateCanId && f.dlc != 8
              case ExtendedFrame => f.canId == cfg.stateCanId && f.dlc == 8 && f.isExtended
              case RemoteFrame => f.canId == cfg.stateCanId && f.dlc == 8 && !f.isExtended && f.isRemote
              case CrcMismatch => Standard(f, cfg.stateCanId) && !CrcMatches(cfg, f)
              case InvalidMode => Standard(f, cfg.stateCanId) && CrcMatches(cfg, f) && f.data[4] > 3
              case CounterOutOfRange =>
                && CrcMatches(cfg, f) && f.data[4] <= 3
                && ((f.data[6] & 0x0F) as int >= cfg.modulo || (f.data[6] >> 4) as int >= cfg.modulo)
              case OutOfRange =>
                && CrcMatches(cfg, f) && f.data[4] <= 3 && !WithinRanges(cfg, f)
                && (f.data[6] & 0x0F) as int < cfg.modulo && (f.data[6] >> 4) as int < cfg.modulo
              case _ => false
  {
    WordsRead(f.data);
  }

  // -------------------------------------------------- two complete frames

  // config/adas/can_signal_map.yaml
  const DEMO_MAP := CanCodecConfig(0x180, 0x280, 8, 0.01, 0.001, -1.0, 1.0, -1.5, 1.5, 16, 0x1D, 0xFF, 0xFF)

  // The register after one byte, shift by shift.
  function Shifted8(start: bv8): bv8 {
    var a := Shift(Shift(start, 0x1D), 0x1D);
    var b := Shift(Shift(a, 0x1D), 0x1D);
    var c := Shift(Shift(b, 0x1D), 0x1D);
    Shift(Shift(c, 0x1D), 0x1D)
  }

  lemma EightShifts(start: bv8)
    ensures ShiftTimes(start, 0x1D, 8) == Shifted8(start)
  {
    TwoShifts(start, 0);
    TwoShifts(start, 2);
    TwoShifts(start, 4);
    TwoShifts(start, 6);
  }

  lemma TwoShifts(start: bv8, n: nat)
    ensures ShiftTimes(start, 0x1D, n + 2) == Shift(Shift(ShiftTimes(start, 0x1D, n), 0x1D), 0x1D)
  {
    assert ShiftTimes(start, 0x1D, n + 2) == Shift(ShiftTimes(start, 0x1D, n + 1), 0x1D);
    assert ShiftTimes(start, 0x1D, n + 1) == Shift(ShiftTimes(start, 0x1D, n), 0x1D);
  }

  function OneByte(crc: bv8, input: bv8): (r: bv8)
    ensures r == Absorb(crc, input, 0x1D)
  {
    EightShifts(crc ^ input);
    Shifted8(crc ^ input)
  }

  // The register before each byte and after the last, for any byte step.
  predicate Registers(step: (bv8, bv8) -> bv8, bytes: seq<bv8>, register: seq<bv8>) {
    && |register| == |bytes| + 1
    && forall k :: 0 <= k < |bytes| ==> register[k + 1] == step(register[k], bytes[k])
  }

  lemma NineRegisters(step: (bv8, bv8) -> bv8, b: seq<bv8>, r: seq<bv8>)
    requires |b| == 9 && |r| == 10
    requires step(r[0], b[0]) == r[1] && step(r[1], b[1]) == r[2] && step(r[2], b[2]) == r[3]
    requires step(r[3], b[3]) == r[4] && step(r[4], b[4]) == r[5] && step(r[5], b[5]) == r[6]
    requires step(r[6], b[6]) == r[7] && step(r[7], b[7]) == r[8] && step(r[8], b[8]) == r[9]
    ensures Registers(step, b, r)
  {
  }

  lemma {:induction false} RegisterAt(bytes: seq<bv8>, register: seq<bv8>, n: nat)
    requires Registers(OneByte, bytes, register) && n <= |bytes|
    ensures AbsorbAll(register[0], bytes[..n], 0x1D) == register[n]
  {
    if n == 0 {
      assert bytes[..0] == [];
    } else {
      RegisterAt(bytes, register, n - 1);
      NextAbsorbed(register[0], bytes, n - 1, 0x1D);
      assert register[n] == OneByte(register[n - 1], bytes[n - 1]);
    }
  }

  lemma CrcOf(canId: bv32, data: Payload, register: seq<bv8>)
    requires Registers(OneByte, IdBytes(canId) + data[..7], register) && register[0] == 0xFF
    ensures FrameCrc(DEMO_MAP, canId, data) == register[9] ^ 0xFF
  {
    var bytes := IdBytes(canId) + data[..7];
    RegisterAt(bytes, register, 9);
    assert bytes[..9] == bytes;
  }

  const CONTROL_BYTES: Payload := [0x2A, 0x00, 0x83, 0xFF, 0x01, 0x0F, 0x01, 0xDE]

  lemma ControlCrc()
    ensures FrameCrc(DEMO_MAP, 0x180, CONTROL_BYTES) == 0xDE
  {
    var bytes: seq<bv8> := [0x80, 0x01, 0x2A, 0x00, 0x83, 0xFF, 0x01, 0x0F, 0x01];
    var register: seq<bv8> := [0xFF, 0xE2, 0x95, 0xD7, 0xAB, 0x6F, 0xEB, 0x60, 0x2F, 0x21];
    NineRegisters(OneByte, bytes, register);
    assert IdBytes(0x180) + CONTROL_BYTES[..7] == bytes;
    CrcOf(0x180, CONTROL_BYTES, register);
  }

  const STATE_BYTES: Payload := [0xDB, 0xFF, 0x82, 0x02, 0x01, 0x17, 0x9F, 0x8A]

  lemma StateCrc()
    ensures FrameCrc(DEMO_MAP, 0x280, STATE_BYTES) == 0x8A
  {
    var bytes: seq<bv8> := [0x80, 0x02, 0xDB, 0xFF, 0x82, 0x02, 0x01, 0x17, 0x9F];
    var register: seq<bv8> := [0xFF, 0xE2, 0xB2, 0x61, 0x4D, 0x8E, 0xBA, 0xA3, 0x18, 0x75];
    NineRegisters(OneByte, bytes, register);
    assert IdBytes(0x280) + STATE_BYTES[..7] == bytes;
    CrcOf(0x280, STATE_BYTES, register);
  }

  // ACTIVE at 0.42 m/s and -0.125 rad/s with counter 15, and a vehicle that is
  // running at -0.37 m/s and 0.642 rad/s with fault code 23 and counters 15 and
  // 9: both frames in full, read and written.
  lemma ControlGolden()
    ensures var f := CanFrame(0x180, 8, false, false, [0x2A, 0x00, 0x83, 0xFF, 0x01, 0x0F, 0x01, 0xDE]);
            var s := CanControlSignals(Active, Finite(0.42), Finite(-0.125), 15);
            DecodeControl(DEMO_MAP, f) == Ok(s) && ControlFrameFor(DEMO_MAP, s) == Ok(f)
  {
    var f := CanFrame(0x180, 8, false, false, CONTROL_BYTES);
    ControlCrc();
    ControlRead(DEMO_MAP, f);
    assert Word(0x2A, 0x00) == 42 && Word(0x83, 0xFF) == -125;
    EncodeDecodedControl(DEMO_MAP, f);
  }

  lemma StateGolden()
    ensures var f := CanFrame(0x280, 8, false, false, [0xDB, 0xFF, 0x82, 0x02, 0x01, 0x17, 0x9F, 0x8A]);
            var s := CanVehicleStateSignals(Running, Finite(-0.37), Finite(0.642), 23, 15, 9);
            DecodeState(DEMO_MAP, f) == Ok(s) && StateFrameFor(DEMO_MAP, s) == Ok(f)
  {
    var f := CanFrame(0x280, 8, false, false, STATE_BYTES);
    StateCrc();
    StateRead(DEMO_MAP, f);
    assert Word(0xDB, 0xFF) == -37 && Word(0x82, 0x02) == 642;
    EncodeDecodedState(DEMO_MAP, f);
  }
}
