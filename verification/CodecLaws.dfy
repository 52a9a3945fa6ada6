// The encoder and the decoder are inverse to each other.
module CodecLaws {
  import opened Common
  import opened CanCodec

  // ------------------------------------------------------- signed fields

  lemma ByteIsItsNumber(b: bv8)
    ensures ByteOf(NatOf(b)) == b
  {
  }

  lemma NextByte(b: bv8)
    requires NatOf(b) < 255
    ensures NatOf(b + 1) == NatOf(b) + 1
  {
  }

  // Every number below 256 is the value of some byte.
  lemma {:induction false} SomeByte(n: uint8) returns (b: bv8)
    ensures NatOf(b) == n
    decreases n
  {
    if n == 0 {
      b := 0;
    } else {
      b := SomeByte(n - 1);
      NextByte(b);
      b := b + 1;
    }
  }

  lemma NumberIsItsByte(n: uint8)
    ensures NatOf(ByteOf(n)) == n
  {
    var b := SomeByte(n);
    ByteIsItsNumber(b);
  }

  lemma SignedRoundTrip(value: int, data: seq<bv8>, offset: nat)
    requires FitsInt16(value) && offset + 1 < |data|
    requires data[offset..offset + 2] == SignedLe(value)
    ensures DecodeSignedLe(data, offset) == value
  {
    assert data[offset..offset + 2][0] == data[offset] && data[offset..offset + 2][1] == data[offset + 1];
    FieldRoundTrip(value);
  }

  lemma FieldRoundTrip(value: int)
    requires FitsInt16(value)
    ensures Signed16(SignedLe(value)[0], SignedLe(value)[1]) == value
  {
    SplitValue(value);
    NumberIsItsByte(LowByte(value));
    NumberIsItsByte(HighByte(value));
  }

  lemma SplitValue(value: int)
    requires FitsInt16(value)
    ensures ToSigned(LowByte(value) + 256 * HighByte(value)) == value
  {
  }

  lemma TwosComplement(lo: uint8, hi: uint8)
    ensures FitsInt16(ToSigned(lo + 256 * hi))
    ensures LowByte(ToSigned(lo + 256 * hi)) == lo && HighByte(ToSigned(lo + 256 * hi)) == hi
  {
  }

  lemma SignedParts(l: uint8, h: uint8)
    ensures SignedLe(ToSigned(l + 256 * h)) == [ByteOf(l), ByteOf(h)]
  {
    TwosComplement(l, h);
  }

  lemma SignedBytes(lo: bv8, hi: bv8)
    ensures SignedLe(Signed16(lo, hi)) == [lo, hi]
  {
    SignedParts(NatOf(lo), NatOf(hi));
    ByteIsItsNumber(lo);
    ByteIsItsNumber(hi);
  }

  lemma PairSlice<T>(s: seq<T>, i: nat)
    requires i + 1 < |s|
    ensures s[i..i + 2] == [s[i], s[i + 1]]
  {
  }

  lemma SignedUnique(data: seq<bv8>, offset: nat)
    requires offset + 1 < |data|
    ensures FitsInt16(DecodeSignedLe(data, offset))
    ensures SignedLe(DecodeSignedLe(data, offset)) == data[offset..offset + 2]
  {
    var lo, hi := data[offset], data[offset + 1];
    TwosComplement(NatOf(lo), NatOf(hi));
    SignedBytes(lo, hi);
    PairSlice(data, offset);
  }

  // -------------------------------------------------------- quantisation

  lemma RoundNearest(x: real)
    ensures x - 0.5 <= Round(x) as real <= x + 0.5
  {
  }

  lemma RoundExact(n: int)
    ensures Round(n as real) == n
  {
  }

  lemma RoundMonotone(x: real, y: real)
    requires x <= y
    ensures Round(x) <= Round(y)
  {
    if x < 0.0 && y >= 0.0 {
    } else if y < 0.0 {
      assert (-y + 0.5).Floor <= (-x + 0.5).Floor;
    } else {
      assert (x + 0.5).Floor <= (y + 0.5).Floor;
    }
  }

  lemma StepsMonotone(x: real, y: real, scale: real)
    requires scale > 0.0 && x <= y
    ensures Steps(x, scale) <= Steps(y, scale)
  {
  }

  lemma ScaleMonotone(a: int, b: int, scale: real)
    requires scale > 0.0 && a <= b
    ensures Scaled(a, scale) <= Scaled(b, scale)
  {
  }

  lemma StepsOfScaled(n: int, scale: real)
    requires scale > 0.0
    ensures Steps(Scaled(n, scale), scale) == n as real
  {
  }

  // The nearest multiple of the scale is at most half a step away.
  lemma NearestMultiple(v: real, scale: real)
    requires scale > 0.0
    ensures Abs(Scaled(Round(Steps(v, scale)), scale) - v) <= scale / 2.0
  {
    var q := Steps(v, scale);
    RoundNearest(q);
    StepsTimes(v, scale);
    Distribute(Round(q) as real, q, scale);
    HalfStep(Round(q) as real - q, scale);
  }

  lemma Distribute(n: real, q: real, scale: real)
    ensures (n - q) * scale == n * scale - q * scale
  {
  }

  lemma StepsTimes(v: real, scale: real)
    requires scale > 0.0
    ensures Steps(v, scale) * scale == v
  {
  }

  lemma HalfStep(d: real, scale: real)
    requires scale > 0.0 && -0.5 <= d <= 0.5
    ensures -scale / 2.0 <= d * scale <= scale / 2.0
  {
  }

  // Rounding the two ends of a range to the scale does not leave the range.
  predicate RangeClosed(scale: real, minimum: real, maximum: real)
    requires scale > 0.0
  {
    && minimum <= Scaled(Round(Steps(minimum, scale)), scale)
    && Scaled(Round(Steps(maximum, scale)), scale) <= maximum
  }

  lemma MultiplesAreClosed(scale: real, minimum: real, maximum: real, lo: int, hi: int)
    requires scale > 0.0 && minimum == Scaled(lo, scale) && maximum == Scaled(hi, scale)
    ensures RangeClosed(scale, minimum, maximum)
  {
    StepsOfScaled(lo, scale);
    StepsOfScaled(hi, scale);
    RoundExact(lo);
    RoundExact(hi);
  }

  lemma QuantizedInRange(v: real, scale: real, minimum: real, maximum: real)
    requires scale > 0.0 && minimum <= v <= maximum && RangeClosed(scale, minimum, maximum)
    ensures minimum <= Scaled(Round(Steps(v, scale)), scale) <= maximum
  {
    StepsMonotone(minimum, v, scale);
    StepsMonotone(v, maximum, scale);
    RoundMonotone(Steps(minimum, scale), Steps(v, scale));
    RoundMonotone(Steps(v, scale), Steps(maximum, scale));
    ScaleMonotone(Round(Steps(minimum, scale)), Round(Steps(v, scale)), scale);
    ScaleMonotone(Round(Steps(v, scale)), Round(Steps(maximum, scale)), scale);
  }

  // What the signal map parser guarantees: the range ends fit 16 bits, so
  // every value of the range does.
  predicate EndsFit(scale: real, minimum: real, maximum: real)
    requires scale > 0.0
  {
    Round(Steps(minimum, scale)) >= -32768 && Round(Steps(maximum, scale)) <= 32767
  }

  lemma QuantizeTotal(v: real, scale: real, minimum: real, maximum: real)
    requires scale > 0.0 && EndsFit(scale, minimum, maximum)
    ensures Quantize(Finite(v), scale, minimum, maximum) ==
            if minimum <= v <= maximum then Some(Round(Steps(v, scale))) else None
  {
    if minimum <= v <= maximum {
      StepsMonotone(minimum, v, scale);
      StepsMonotone(v, maximum, scale);
      RoundMonotone(Steps(minimum, scale), Steps(v, scale));
      RoundMonotone(Steps(v, scale), Steps(maximum, scale));
    }
  }

  lemma QuantizeDecoded(n: int, scale: real, minimum: real, maximum: real)
    requires scale > 0.0 && FitsInt16(n) && minimum <= Scaled(n, scale) <= maximum
    ensures Quantize(Finite(Scaled(n, scale)), scale, minimum, maximum) == Some(n)
  {
    StepsOfScaled(n, scale);
    RoundExact(n);
  }

  // ------------------------------------------- encode after decode

  lemma CleanNibble(b: bv8, flags: bv8)
    requires ReservedBitsClear(b, flags)
    ensures ByteOf(LowNibble(b)) == b && LowNibble(b) < 16
  {
    assert b & 0x0F == b;
  }

  lemma NibblesRoundTrip(b: bv8)
    ensures CounterNibbles(LowNibble(b), HighNibble(b)) == b
    ensures LowNibble(b) < 16 && HighNibble(b) < 16
  {
    NibbleBytes(b);
    NibbleBits(b);
  }

  lemma NibbleBytes(b: bv8)
    ensures ByteOf(LowNibble(b)) == b & 0x0F && ByteOf(HighNibble(b)) == b >> 4
  {
  }

  lemma NibbleBits(b: bv8)
    ensures ((b & 0x0F) & 0x0F) | (((b >> 4) & 0x0F) << 4) == b
    ensures b & 0x0F <= 15 && b >> 4 <= 15
  {
  }

  // The first seven bytes, read as the two signed fields and three more.
  lemma BodyOf(data: Payload)
    ensures data[..7] == SignedLe(DecodeSignedLe(data, 0)) + SignedLe(DecodeSignedLe(data, 2))
                         + [data[4], data[5], data[6]]
  {
    SignedUnique(data, 0);
    SignedUnique(data, 2);
    assert data[0..2] + data[2..4] + [data[4], data[5], data[6]] == data[..7];
  }

  lemma SealedIs(cfg: CanCodecConfig, f: CanFrame, body: seq<bv8>)
    requires |body| == 7 && f.data[..7] == body
    requires f.dlc == cfg.dlc && !f.isExtended && !f.isRemote
    requires f.data[7] == FrameCrc(cfg, f.canId, f.data)
    ensures Sealed(cfg, f.canId, body) == f
  {
    assert body[..7] == body;
    assert f.data == f.data[..7] + [f.data[7]];
  }

  // The body of an accepted control frame, from what it says.
  lemma ControlBody(cfg: CanCodecConfig, f: CanFrame)
    requires cfg.Valid() && DecodeControl(cfg, f).Ok?
    ensures var s := DecodeControl(cfg, f).value;
            f.data[..7] == SignedLe(DecodeSignedLe(f.data, 0)) + SignedLe(DecodeSignedLe(f.data, 2))
                           + [ControlModeByte(s.mode), ByteOf(s.rollingCounter), 0x01]
  {
    BodyOf(f.data);
    CleanNibble(f.data[5], f.data[6]);
    ModeByteOf(f.data[4]);
  }

  lemma EncodeAgain(cfg: CanCodecConfig, f: CanFrame)
    requires cfg.Valid() && DecodeControl(cfg, f).Ok? && DecodeControl(cfg, f).value.rollingCounter < cfg.modulo
    ensures ControlFrameFor(cfg, DecodeControl(cfg, f).value) == Ok(f)
  {
    DecodedControl(cfg, f);
    ControlFrameIs(cfg, DecodeControl(cfg, f).value, DecodeSignedLe(f.data, 0), DecodeSignedLe(f.data, 2));
    ControlBody(cfg, f);
    SealedIs(cfg, f, f.data[..7]);
  }

  // The signals of an accepted control frame quantise to its fields.
  lemma DecodedControl(cfg: CanCodecConfig, f: CanFrame)
    requires cfg.Valid() && DecodeControl(cfg, f).Ok?
    ensures var s := DecodeControl(cfg, f).value;
            && Quantize(s.targetSpeed, cfg.speedScale, cfg.speedMin, cfg.speedMax) == Some(DecodeSignedLe(f.data, 0))
            && Quantize(s.targetYawRate, cfg.yawRateScale, cfg.yawRateMin, cfg.yawRateMax) ==
                 Some(DecodeSignedLe(f.data, 2))
            && (s.mode.Hold? ==> s.targetSpeed == s.targetYawRate == Finite(0.0))
    ensures f.canId == cfg.controlCanId && f.dlc == cfg.dlc && !f.isExtended && !f.isRemote
    ensures f.data[7] == FrameCrc(cfg, f.canId, f.data)
  {
    SignedUnique(f.data, 0);
    SignedUnique(f.data, 2);
    QuantizeDecoded(DecodeSignedLe(f.data, 0), cfg.speedScale, cfg.speedMin, cfg.speedMax);
    QuantizeDecoded(DecodeSignedLe(f.data, 2), cfg.yawRateScale, cfg.yawRateMin, cfg.yawRateMax);
  }

  lemma ControlFrameIs(cfg: CanCodecConfig, s: CanControlSignals, speed: int, yawRate: int)
    requires cfg.Valid() && s.rollingCounter < cfg.modulo
    requires Quantize(s.targetSpeed, cfg.speedScale, cfg.speedMin, cfg.speedMax) == Some(speed)
    requires Quantize(s.targetYawRate, cfg.yawRateScale, cfg.yawRateMin, cfg.yawRateMax) == Some(yawRate)
    requires s.mode.Hold? ==> s.targetSpeed == s.targetYawRate == Finite(0.0)
    ensures ControlFrameFor(cfg, s) ==
            Ok(Sealed(cfg, cfg.controlCanId,
                      SignedLe(speed) + SignedLe(yawRate) + [ControlModeByte(s.mode), ByteOf(s.rollingCounter), 0x01]))
  {
  }

  lemma CounterRefused(cfg: CanCodecConfig, s: CanControlSignals)
    requires cfg.Valid() && s.rollingCounter >= cfg.modulo
    ensures ControlFrameFor(cfg, s) == Err(CounterOutOfRange)
  {
  }

  // Encoding what an accepted control frame says gives back that very frame,
  // exactly when its counter is one the sender could have used.
  lemma EncodeDecodedControl(cfg: CanCodecConfig, f: CanFrame)
    requires cfg.Valid() && DecodeControl(cfg, f).Ok?
    ensures ControlFrameFor(cfg, DecodeControl(cfg, f).value) == Ok(f)
            <==> DecodeControl(cfg, f).value.rollingCounter < cfg.modulo
  {
    if DecodeControl(cfg, f).value.rollingCounter < cfg.modulo {
      EncodeAgain(cfg, f);
    } else {
      CounterRefused(cfg, DecodeControl(cfg, f).value);
    }
  }

  lemma ModeByteOf(b: bv8)
    ensures b <= 1 ==> ControlModeByte(ControlModeOf(b)) == b
    ensures b <= 3 ==> VehicleModeByte(VehicleModeOf(b)) == b
  {
  }

  lemma EncodeDecodedState(cfg: CanCodecConfig, f: CanFrame)
    requires cfg.Valid() && DecodeState(cfg, f).Ok?
    ensures StateFrameFor(cfg, DecodeState(cfg, f).value) == Ok(f)
  {
    var s := DecodeState(cfg, f).value;
    var speed, yawRate := DecodeSignedLe(f.data, 0), DecodeSignedLe(f.data, 2);
    BodyOf(f.data);
    SignedUnique(f.data, 0);
    SignedUnique(f.data, 2);
    QuantizeDecoded(speed, cfg.speedScale, cfg.speedMin, cfg.speedMax);
    QuantizeDecoded(yawRate, cfg.yawRateScale, cfg.yawRateMin, cfg.yawRateMax);
    NibblesRoundTrip(f.data[6]);
    ByteIsItsNumber(f.data[5]);
    ModeByteOf(f.data[4]);
    var body := SignedLe(speed) + SignedLe(yawRate)
                + [VehicleModeByte(s.mode), ByteOf(s.faultCode),
                   CounterNibbles(s.stateCounter, s.echoedControlCounter)];
    SealedIs(cfg, f, body);
  }

  // No two accepted frames carry the same signals when the counter uses its
  // whole nibble.
  lemma AcceptedFramesDiffer(cfg: CanCodecConfig, f: CanFrame, g: CanFrame)
    requires cfg.Valid() && cfg.modulo == 16
    requires || (DecodeControl(cfg, f).Ok? && DecodeControl(cfg, f) == DecodeControl(cfg, g))
             || (DecodeState(cfg, f).Ok? && DecodeState(cfg, f) == DecodeState(cfg, g))
    ensures f == g
  {
    if DecodeControl(cfg, f).Ok? && DecodeControl(cfg, f) == DecodeControl(cfg, g) {
      CleanNibble(f.data[5], f.data[6]);
      EncodeDecodedControl(cfg, f);
      EncodeDecodedControl(cfg, g);
    } else {
      EncodeDecodedState(cfg, f);
      EncodeDecodedState(cfg, g);
    }
  }

  // ------------------------------------------- decode after encode

  // The ranges come through quantisation unharmed.
  predicate RangesClosed(cfg: CanCodecConfig)
    requires cfg.Valid()
  {
    && RangeClosed(cfg.speedScale, cfg.speedMin, cfg.speedMax)
    && RangeClosed(cfg.yawRateScale, cfg.yawRateMin, cfg.yawRateMax)
  }

  predicate RangesFit(cfg: CanCodecConfig)
    requires cfg.Valid()
  {
    && EndsFit(cfg.speedScale, cfg.speedMin, cfg.speedMax)
    && EndsFit(cfg.yawRateScale, cfg.yawRateMin, cfg.yawRateMax)
  }

  function Nearest(cfg: CanCodecConfig, speed: Double, yawRate: Double): (real, real)
    requires cfg.Valid() && speed.Finite? && yawRate.Finite?
  {
    (Scaled(Round(Steps(speed.value, cfg.speedScale)), cfg.speedScale),
     Scaled(Round(Steps(yawRate.value, cfg.yawRateScale)), cfg.yawRateScale))
  }

  predicate NearestInRange(cfg: CanCodecConfig, speed: Double, yawRate: Double)
    requires cfg.Valid() && speed.Finite? && yawRate.Finite?
  {
    var (v, w) := Nearest(cfg, speed, yawRate);
    cfg.speedMin <= v <= cfg.speedMax && cfg.yawRateMin <= w <= cfg.yawRateMax
  }

  // The bytes a sealed frame carries, and the values they decode to.
  lemma SealedFields(cfg: CanCodecConfig, canId: bv32, speed: int, yawRate: int, tail: seq<bv8>)
    requires |tail| == 3 && FitsInt16(speed) && FitsInt16(yawRate)
    ensures var f := Sealed(cfg, canId, SignedLe(speed) + SignedLe(yawRate) + tail);
            && f.data[4] == tail[0] && f.data[5] == tail[1] && f.data[6] == tail[2]
            && f.data[7] == FrameCrc(cfg, canId, f.data)
            && DecodeSignedLe(f.data, 0) == speed && DecodeSignedLe(f.data, 2) == yawRate
  {
    var body := SignedLe(speed) + SignedLe(yawRate) + tail;
    var f := Sealed(cfg, canId, body);
    assert f.data[..7] == body == body[..7];
    assert f.data[0..2] == SignedLe(speed) && f.data[2..4] == SignedLe(yawRate);
    SignedRoundTrip(speed, f.data, 0);
    SignedRoundTrip(yawRate, f.data, 2);
  }

  lemma CounterByte(n: uint8)
    requires n < 16
    ensures LowNibble(ByteOf(n)) == n && ReservedBitsClear(ByteOf(n), 0x01)
  {
    SmallByte(n);
  }

  lemma SmallByte(n: uint8)
    requires n < 16
    ensures ByteOf(n) & 0x0F == ByteOf(n) && ByteOf(n) & 0xF0 == 0 && NatOf(ByteOf(n)) == n
  {
    NumberIsItsByte(n);
  }

  // An encoded control frame is accepted exactly when the nearest multiples of
  // the scales are still in range, and then mode and counter come back exactly
  // and each physical value within half a step.
  lemma DecodeEncodedControl(cfg: CanCodecConfig, s: CanControlSignals)
    requires cfg.Valid() && ControlFrameFor(cfg, s).Ok?
    ensures var r := DecodeControl(cfg, ControlFrameFor(cfg, s).value);
            && s.targetSpeed.Finite? && s.targetYawRate.Finite?
            && (NearestInRange(cfg, s.targetSpeed, s.targetYawRate) ==>
                  && r.Ok? && r.value.mode == s.mode && r.value.rollingCounter == s.rollingCounter
                  && r.value.targetSpeed.Finite? && r.value.targetYawRate.Finite?
                  && Abs(r.value.targetSpeed.value - s.targetSpeed.value) <= cfg.speedScale / 2.0
                  && Abs(r.value.targetYawRate.value - s.targetYawRate.value) <= cfg.yawRateScale / 2.0)
            && (!NearestInRange(cfg, s.targetSpeed, s.targetYawRate) ==> r == Err(OutOfRange))
  {
    var speed := Quantize(s.targetSpeed, cfg.speedScale, cfg.speedMin, cfg.speedMax).value;
    var yawRate := Quantize(s.targetYawRate, cfg.yawRateScale, cfg.yawRateMin, cfg.yawRateMax).value;
    SealedFields(cfg, cfg.controlCanId, speed, yawRate,
                 [ControlModeByte(s.mode), ByteOf(s.rollingCounter), 0x01]);
    CounterByte(s.rollingCounter);
    NearestMultiple(s.targetSpeed.value, cfg.speedScale);
    NearestMultiple(s.targetYawRate.value, cfg.yawRateScale);
    if s.mode.Hold? {
      HoldEncodesZero(cfg.speedScale);
      HoldEncodesZero(cfg.yawRateScale);
    }
  }

  lemma HoldEncodesZero(scale: real)
    requires scale > 0.0
    ensures Scaled(Round(Steps(0.0, scale)), scale) == 0.0
  {
    assert Steps(0.0, scale) == 0.0;
  }

  lemma NibblesOf(a: uint8, b: uint8)
    requires a < 16 && b < 16
    ensures LowNibble(CounterNibbles(a, b)) == a && HighNibble(CounterNibbles(a, b)) == b
  {
    SmallByte(a);
    SmallByte(b);
    JoinNibbles(ByteOf(a), ByteOf(b));
  }

  lemma JoinNibbles(x: bv8, y: bv8)
    requires x & 0xF0 == 0 && y & 0xF0 == 0
    ensures ((x & 0x0F) | ((y & 0x0F) << 4)) & 0x0F == x
    ensures ((x & 0x0F) | ((y & 0x0F) << 4)) >> 4 == y
  {
  }

  lemma DecodeEncodedState(cfg: CanCodecConfig, s: CanVehicleStateSignals)
    requires cfg.Valid() && StateFrameFor(cfg, s).Ok?
    ensures var r := DecodeState(cfg, StateFrameFor(cfg, s).value);
            && s.measuredSpeed.Finite? && s.measuredYawRate.Finite?
            && (NearestInRange(cfg, s.measuredSpeed, s.measuredYawRate) ==>
                  && r.Ok? && r.value.mode == s.mode && r.value.faultCode == s.faultCode
                  && r.value.stateCounter == s.stateCounter
                  && r.value.echoedControlCounter == s.echoedControlCounter
                  && r.value.measuredSpeed.Finite? && r.value.measuredYawRate.Finite?
                  && Abs(r.value.measuredSpeed.value - s.measuredSpeed.value) <= cfg.speedScale / 2.0
                  && Abs(r.value.measuredYawRate.value - s.measuredYawRate.value) <= cfg.yawRateScale / 2.0)
            && (!NearestInRange(cfg, s.measuredSpeed, s.measuredYawRate) ==> r == Err(OutOfRange))
  {
    var speed := Quantize(s.measuredSpeed, cfg.speedScale, cfg.speedMin, cfg.speedMax).value;
    var yawRate := Quantize(s.measuredYawRate, cfg.yawRateScale, cfg.yawRateMin, cfg.yawRateMax).value;
    SealedFields(cfg, cfg.stateCanId, speed, yawRate,
                 [VehicleModeByte(s.mode), ByteOf(s.faultCode),
                  CounterNibbles(s.stateCounter, s.echoedControlCounter)]);
    NibblesOf(s.stateCounter, s.echoedControlCounter);
    NumberIsItsByte(s.faultCode);
    NearestMultiple(s.measuredSpeed.value, cfg.speedScale);
    NearestMultiple(s.measuredYawRate.value, cfg.yawRateScale);
  }

  // ------------------------------- which configurations lose no frame

  ghost predicate EveryEncodedControlDecodes(cfg: CanCodecConfig)
    requires cfg.Valid()
  {
    forall s: CanControlSignals :: ControlFrameFor(cfg, s).Ok? ==>
      DecodeControl(cfg, ControlFrameFor(cfg, s).value).Ok?
  }

  lemma ClosedRangesLoseNothing(cfg: CanCodecConfig, speed: Double, yawRate: Double)
    requires cfg.Valid() && RangesClosed(cfg) && ValidateCommonSignals(cfg, speed, yawRate).None?
    ensures NearestInRange(cfg, speed, yawRate)
  {
    QuantizedInRange(speed.value, cfg.speedScale, cfg.speedMin, cfg.speedMax);
    QuantizedInRange(yawRate.value, cfg.yawRateScale, cfg.yawRateMin, cfg.yawRateMax);
  }

  ghost predicate EveryEncodedStateDecodes(cfg: CanCodecConfig)
    requires cfg.Valid()
  {
    forall s: CanVehicleStateSignals :: StateFrameFor(cfg, s).Ok? ==>
      DecodeState(cfg, StateFrameFor(cfg, s).value).Ok?
  }

  lemma ClosedControlDecodes(cfg: CanCodecConfig, s: CanControlSignals)
    requires cfg.Valid() && RangesClosed(cfg) && ControlFrameFor(cfg, s).Ok?
    ensures DecodeControl(cfg, ControlFrameFor(cfg, s).value).Ok?
  {
    ClosedRangesLoseNothing(cfg, s.targetSpeed, s.targetYawRate);
    DecodeEncodedControl(cfg, s);
  }

  lemma ClosedStateDecodes(cfg: CanCodecConfig, s: CanVehicleStateSignals)
    requires cfg.Valid() && RangesClosed(cfg) && StateFrameFor(cfg, s).Ok?
    ensures DecodeState(cfg, StateFrameFor(cfg, s).value).Ok?
  {
    ClosedRangesLoseNothing(cfg, s.measuredSpeed, s.measuredYawRate);
    DecodeEncodedState(cfg, s);
  }

  // Both ends of both ranges, as the nearest multiples see them.
  lemma EndsDecide(cfg: CanCodecConfig)
    requires cfg.Valid()
    ensures RangesClosed(cfg) <==>
            && NearestInRange(cfg, Finite(cfg.speedMin), Finite(cfg.yawRateMin))
            && NearestInRange(cfg, Finite(cfg.speedMax), Finite(cfg.yawRateMax))
  {
    if RangesClosed(cfg) {
      ClosedRangesLoseNothing(cfg, Finite(cfg.speedMin), Finite(cfg.yawRateMin));
      ClosedRangesLoseNothing(cfg, Finite(cfg.speedMax), Finite(cfg.yawRateMax));
    }
  }

  function ActiveAt(speed: real, yawRate: real): CanControlSignals {
    CanControlSignals(Active, Finite(speed), Finite(yawRate), 0)
  }

  lemma ControlEndEncodes(cfg: CanCodecConfig, speed: real, yawRate: real)
    requires cfg.Valid() && RangesFit(cfg)
    requires ValidateCommonSignals(cfg, Finite(speed), Finite(yawRate)).None?
    ensures ControlFrameFor(cfg, ActiveAt(speed, yawRate)).Ok?
    ensures DecodeControl(cfg, ControlFrameFor(cfg, ActiveAt(speed, yawRate)).value).Ok? ==>
              NearestInRange(cfg, Finite(speed), Finite(yawRate))
  {
    QuantizeTotal(speed, cfg.speedScale, cfg.speedMin, cfg.speedMax);
    QuantizeTotal(yawRate, cfg.yawRateScale, cfg.yawRateMin, cfg.yawRateMax);
    DecodeEncodedControl(cfg, ActiveAt(speed, yawRate));
  }

  function RunningAt(speed: real, yawRate: real): CanVehicleStateSignals {
    CanVehicleStateSignals(Running, Finite(speed), Finite(yawRate), 0, 0, 0)
  }

  lemma StateEndEncodes(cfg: CanCodecConfig, speed: real, yawRate: real)
    requires cfg.Valid() && RangesFit(cfg)
    requires ValidateCommonSignals(cfg, Finite(speed), Finite(yawRate)).None?
    ensures StateFrameFor(cfg, RunningAt(speed, yawRate)).Ok?
    ensures DecodeState(cfg, StateFrameFor(cfg, RunningAt(speed, yawRate)).value).Ok? ==>
              NearestInRange(cfg, Finite(speed), Finite(yawRate))
  {
    QuantizeTotal(speed, cfg.speedScale, cfg.speedMin, cfg.speedMax);
    QuantizeTotal(yawRate, cfg.yawRateScale, cfg.yawRateMin, cfg.yawRateMax);
    DecodeEncodedState(cfg, RunningAt(speed, yawRate));
  }

  lemma DecodedControlsClose(cfg: CanCodecConfig)
    requires cfg.Valid() && RangesFit(cfg) && EveryEncodedControlDecodes(cfg)
    ensures RangesClosed(cfg)
  {
    ControlEndEncodes(cfg, cfg.speedMin, cfg.yawRateMin);
    ControlEndEncodes(cfg, cfg.speedMax, cfg.yawRateMax);
    EndsDecide(cfg);
  }

  lemma DecodedStatesClose(cfg: CanCodecConfig)
    requires cfg.Valid() && RangesFit(cfg) && EveryEncodedStateDecodes(cfg)
    ensures RangesClosed(cfg)
  {
    StateEndEncodes(cfg, cfg.speedMin, cfg.yawRateMin);
    StateEndEncodes(cfg, cfg.speedMax, cfg.yawRateMax);
    EndsDecide(cfg);
  }

  // Every encodable command decodes again if and only if rounding the ends of
  // both ranges to the scale keeps them in range.
  lemma ControlRangesDecide(cfg: CanCodecConfig)
    requires cfg.Valid() && RangesFit(cfg)
    ensures EveryEncodedControlDecodes(cfg) <==> RangesClosed(cfg)
  {
    if RangesClosed(cfg) {
      forall s: CanControlSignals | ControlFrameFor(cfg, s).Ok?
        ensures DecodeControl(cfg, ControlFrameFor(cfg, s).value).Ok?
      {
        ClosedControlDecodes(cfg, s);
      }
    } else if EveryEncodedControlDecodes(cfg) {
      DecodedControlsClose(cfg);
    }
  }

  // And so does every encodable vehicle state.
  lemma StateRangesDecide(cfg: CanCodecConfig)
    requires cfg.Valid() && RangesFit(cfg)
    ensures EveryEncodedStateDecodes(cfg) <==> RangesClosed(cfg)
  {
    if RangesClosed(cfg) {
      forall s: CanVehicleStateSignals | StateFrameFor(cfg, s).Ok?
        ensures DecodeState(cfg, StateFrameFor(cfg, s).value).Ok?
      {
        ClosedStateDecodes(cfg, s);
      }
    } else if EveryEncodedStateDecodes(cfg) {
      DecodedStatesClose(cfg);
    }
  }

  // Range ends that are multiples of their scale lose no frame.
  lemma MultiplesLoseNothing(cfg: CanCodecConfig, speedLo: int, speedHi: int, yawLo: int, yawHi: int)
    requires cfg.Valid() && RangesFit(cfg)
    requires cfg.speedMin == Scaled(speedLo, cfg.speedScale) && cfg.speedMax == Scaled(speedHi, cfg.speedScale)
    requires cfg.yawRateMin == Scaled(yawLo, cfg.yawRateScale) && cfg.yawRateMax == Scaled(yawHi, cfg.yawRateScale)
    ensures EveryEncodedControlDecodes(cfg) && EveryEncodedStateDecodes(cfg)
  {
    MultiplesAreClosed(cfg.speedScale, cfg.speedMin, cfg.speedMax, speedLo, speedHi);
    MultiplesAreClosed(cfg.yawRateScale, cfg.yawRateMin, cfg.yawRateMax, yawLo, yawHi);
    ControlRangesDecide(cfg);
    StateRangesDecide(cfg);
  }

  // A range end that is not a multiple of the scale can lose a legal command:
  // with scale 1 and maximum 0.6, the command 0.6 goes out as 1 and is refused.
  lemma RangeEndLost(cfg: CanCodecConfig)
    requires cfg.Valid() && cfg.speedScale == 1.0 && cfg.speedMin == 0.0 && cfg.speedMax == 0.6
    requires cfg.yawRateScale == 1.0 && cfg.yawRateMin == 0.0 && cfg.yawRateMax == 1.0
    ensures var s := CanControlSignals(Active, Finite(0.6), Finite(0.0), 0);
            && ControlFrameFor(cfg, s).Ok?
            && DecodeControl(cfg, ControlFrameFor(cfg, s).value) == Err(OutOfRange)
  {
    var s := CanControlSignals(Active, Finite(0.6), Finite(0.0), 0);
    assert Steps(0.6, 1.0) == 0.6 && Steps(0.0, 1.0) == 0.0;
    assert Round(0.6) == 1 && Round(0.0) == 0;
    DecodeEncodedControl(cfg, s);
  }

  // ----------------------------------------- counters beyond the modulo

  predicate ZeroInRange(cfg: CanCodecConfig) {
    cfg.speedMin <= 0.0 <= cfg.speedMax && cfg.yawRateMin <= 0.0 <= cfg.yawRateMax
  }

  // A HOLD whose counter is the modulo itself.
  function OverCounted(cfg: CanCodecConfig): CanFrame {
    Sealed(cfg, cfg.controlCanId, SignedLe(0) + SignedLe(0) + [ControlModeByte(Hold), ByteOf(cfg.modulo), 0x01])
  }

  lemma LargeCounterAccepted(cfg: CanCodecConfig)
    requires cfg.Valid() && cfg.modulo < 16 && ZeroInRange(cfg)
    ensures var s := CanControlSignals(Hold, Finite(0.0), Finite(0.0), cfg.modulo);
            && DecodeControl(cfg, OverCounted(cfg)) == Ok(s)
            && ControlFrameFor(cfg, s) == Err(CounterOutOfRange)
  {
    SealedFields(cfg, cfg.controlCanId, 0, 0, [ControlModeByte(Hold), ByteOf(cfg.modulo), 0x01]);
    CounterByte(cfg.modulo);
  }

  ghost predicate EveryAcceptedControlEncodes(cfg: CanCodecConfig)
    requires cfg.Valid()
  {
    forall f: CanFrame :: DecodeControl(cfg, f).Ok? ==> ControlFrameFor(cfg, DecodeControl(cfg, f).value) == Ok(f)
  }

  // Every accepted control frame is one that the encoder makes if and only if
  // the counter uses its whole nibble, as every parsed signal map demands.
  lemma ModuloDecides(cfg: CanCodecConfig)
    requires cfg.Valid() && ZeroInRange(cfg)
    ensures EveryAcceptedControlEncodes(cfg) <==> cfg.modulo == 16
  {
    if cfg.modulo == 16 {
      forall f: CanFrame | DecodeControl(cfg, f).Ok?
        ensures ControlFrameFor(cfg, DecodeControl(cfg, f).value) == Ok(f)
      {
        NibblesRoundTrip(f.data[5]);
        EncodeDecodedControl(cfg, f);
      }
    } else {
      LargeCounterAccepted(cfg);
    }
  }
}
