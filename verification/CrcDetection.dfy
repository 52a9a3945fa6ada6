// Which transmission errors the CRC of a frame detects. The payload is read as
// 64 bits, byte 0 first and the most significant bit of each byte first, which
// is the order on the bus; bit 63 is the last bit of the CRC.
module CrcDetection {
  import opened Common
  import opened Crc8
  import opened CanCodec

  predicate BitOf(b: bv8, j: nat)
    requires j < 8
  {
    (b >> (7 - j)) & 1 == 1
  }

  predicate Bit(e: Payload, k: nat)
    requires k < 64
  {
    BitOf(e[k / 8], k % 8)
  }

  // The error touches only the eight bits that start at bit `p`.
  ghost predicate WithinWindow(e: Payload, p: nat) {
    forall k: nat | k < 64 && Bit(e, k) :: p <= k < p + 8
  }

  // The error touches bit `a` and bit `b` and no other; one bit when a == b.
  ghost predicate TouchesExactly(e: Payload, a: nat, b: nat) {
    forall k: nat | k < 64 :: Bit(e, k) <==> k == a || k == b
  }

  ghost predicate SomeError(e: Payload) {
    exists k: nat | k < 64 :: Bit(e, k)
  }

  function Corrupt(f: CanFrame, e: Payload): CanFrame {
    f.(data := Flip(f.data, e))
  }

  predicate CrcHolds(cfg: CanCodecConfig, f: CanFrame) {
    f.data[7] == FrameCrc(cfg, f.canId, f.data)
  }

  // The register over bytes 0..k with byte k merely added.
  function Mix(polynomial: bv8, e: Payload, k: nat): bv8
    requires k < 8
  {
    Add(AbsorbAll(0, e[..k], polynomial), e[k])
  }

  // What an error pattern adds to the CRC check, whatever frame it hits.
  function Syndrome(polynomial: bv8, e: Payload): bv8 {
    Mix(polynomial, e, 7)
  }

  // --------------------------------------------- the syndrome decides

  function Zeros(n: nat): (z: seq<bv8>)
    ensures |z| == n && forall k :: 0 <= k < n ==> z[k] == 0
  {
    seq(n, _ => 0)
  }

  lemma AddCancels(c: bv8, s: bv8, d: bv8, e: bv8)
    ensures Add(Add(c, s), d) == Add(Add(c, d), s)
    ensures c == d ==> (Add(c, s) == Add(d, e) <==> s == e)
  {
  }

  // A frame whose CRC holds still has a matching CRC after the bits of `e`
  // flip exactly when the syndrome of `e` is zero: identifier, initial value
  // and final xor play no part.
  lemma SyndromeDecides(cfg: CanCodecConfig, f: CanFrame, e: Payload)
    requires CrcHolds(cfg, f)
    ensures CrcHolds(cfg, Corrupt(f, e)) <==> Syndrome(cfg.crcPolynomial, e) == 0
  {
    var id := IdBytes(f.canId);
    var p := cfg.crcPolynomial;
    var bytes, errors := id + f.data[..7], Zeros(2) + e[..7];
    AddZero(id[0]);
    AddZero(id[1]);
    AddZero(cfg.crcInitialValue);
    assert id + Flip(f.data, e)[..7] == Flip(bytes, errors);
    AbsorbAllLinear(cfg.crcInitialValue, 0, bytes, errors, p);
    LeadingZeros(e[..7], p);
    var c, s := AbsorbAll(cfg.crcInitialValue, bytes, p), AbsorbAll(0, e[..7], p);
    AddCancels(c, s, cfg.crcFinalXor, e[7]);
    AddCancels(Add(c, cfg.crcFinalXor), s, f.data[7], e[7]);
    AddIsZero(s, e[7]);
  }

  lemma {:induction false} LeadingZeros(s: seq<bv8>, p: bv8)
    ensures AbsorbAll(0, Zeros(2) + s, p) == AbsorbAll(0, s, p)
    decreases |s|
  {
    var z := Zeros(2) + s;
    if s == [] {
      ZeroRegister(z, p);
    } else {
      assert z[..|z| - 1] == Zeros(2) + s[..|s| - 1];
      LeadingZeros(s[..|s| - 1], p);
    }
  }

  lemma {:induction false} ZeroRegister(s: seq<bv8>, p: bv8)
    requires forall k :: 0 <= k < |s| ==> s[k] == 0
    ensures AbsorbAll(0, s, p) == 0
    decreases |s|
  {
    if s != [] {
      ZeroRegister(s[..|s| - 1], p);
      AddZero(0);
      ZeroShifts(p, BITS_PER_BYTE);
    }
  }

  lemma {:induction false} ZeroShifts(p: bv8, n: nat)
    ensures ShiftTimes(0, p, n) == 0
    decreases n
  {
    if n > 0 {
      ZeroShifts(p, n - 1);
      ShiftZero(p);
    }
  }

  // ------------------------------------------ following one error along

  lemma MixStart(p: bv8, e: Payload, k: nat)
    requires k < 8 && forall j :: 0 <= j < k ==> e[j] == 0
    ensures Mix(p, e, k) == e[k]
  {
    ZeroRegister(e[..k], p);
    AddZero(e[k]);
  }

  lemma MixStep(p: bv8, e: Payload, k: nat)
    requires k < 7
    ensures Mix(p, e, k + 1) == Add(ShiftTimes(Mix(p, e, k), p, BITS_PER_BYTE), e[k + 1])
  {
    assert e[..k + 1][..k] == e[..k];
  }

  // A register that is not zero stays so over error-free bytes.
  lemma {:induction false} MixSurvives(p: bv8, e: Payload, k: nat)
    requires Odd(p) && k < 8 && Mix(p, e, k) != 0
    requires forall j :: k < j < 8 ==> e[j] == 0
    ensures Syndrome(p, e) != 0
    decreases 8 - k
  {
    if k < 7 {
      MixStep(p, e, k);
      ShiftTimesKernel(Mix(p, e, k), p, BITS_PER_BYTE);
      AddZero(ShiftTimes(Mix(p, e, k), p, BITS_PER_BYTE));
      MixSurvives(p, e, k + 1);
    }
  }

  // --------------------------------------------------- bits of one byte

  lemma ByteZero(b: bv8)
    requires forall j: nat | j < 8 :: !BitOf(b, j)
    ensures b == 0
  {
    assert !BitOf(b, 0) && !BitOf(b, 1) && !BitOf(b, 2) && !BitOf(b, 3);
    assert !BitOf(b, 4) && !BitOf(b, 5) && !BitOf(b, 6) && !BitOf(b, 7);
  }

  lemma HighBitZero(b: bv8, s: nat)
    requires s < 8 && Right(b, 8 - s) == 0 && !BitOf(b, s)
    ensures Right(b, 7 - s) == 0
  {
  }

  lemma {:induction false} HighBitsZero(b: bv8, s: nat)
    requires s <= 8 && forall j: nat | j < s :: !BitOf(b, j)
    ensures Right(b, 8 - s) == 0
    decreases s
  {
    if s == 0 {
      NoShift(b);
    } else {
      HighBitsZero(b, s - 1);
      HighBitZero(b, s - 1);
    }
  }

  lemma LowBitZero(b: bv8, s: nat)
    requires s < 8 && Left(b, s + 1) == 0 && !BitOf(b, s)
    ensures Left(b, s) == 0
  {
  }

  lemma LeftAll(b: bv8)
    ensures Left(b, 8) == 0
  {
  }

  lemma {:induction false} LowBitsZero(b: bv8, s: nat)
    requires s <= 8 && forall j: nat | s <= j < 8 :: !BitOf(b, j)
    ensures Left(b, s) == 0
    decreases 8 - s
  {
    if s == 8 {
      LeftAll(b);
    } else {
      LowBitsZero(b, s + 1);
      LowBitZero(b, s);
    }
  }

  lemma ByteBits(e: Payload, m: nat)
    requires m < 8
    ensures forall j: nat | j < 8 :: BitOf(e[m], j) <==> Bit(e, 8 * m + j)
  {
    forall j: nat | j < 8 ensures BitOf(e[m], j) <==> Bit(e, 8 * m + j) {
      assert (8 * m + j) / 8 == m && (8 * m + j) % 8 == j;
    }
  }

  lemma ByteSilent(e: Payload, m: nat)
    requires m < 8 && forall k: nat | 8 * m <= k < 8 * m + 8 :: !Bit(e, k)
    ensures e[m] == 0
  {
    ByteBits(e, m);
    ByteZero(e[m]);
  }

  lemma BitMeansNonzero(b: bv8, j: nat)
    requires j < 8 && BitOf(b, j)
    ensures b != 0
  {
  }

  // ------------------------------------------------------------- bursts

  lemma WindowBytes(e: Payload, pos: nat, i: nat, s: nat)
    requires WithinWindow(e, pos) && pos == 8 * i + s && s < 8 && i < 8
    ensures forall m: nat | m < 8 && m != i && m != i + 1 :: e[m] == 0
    ensures Right(e[i], 8 - s) == 0
    ensures i < 7 ==> Left(e[i + 1], s) == 0
  {
    forall m: nat | m < 8 && m != i && m != i + 1 ensures e[m] == 0 {
      ByteSilent(e, m);
    }
    ByteBits(e, i);
    HighBitsZero(e[i], s);
    if i < 7 {
      ByteBits(e, i + 1);
      LowBitsZero(e[i + 1], s);
    }
  }

  lemma SomeByteHit(e: Payload)
    requires SomeError(e)
    ensures exists m: nat :: m < 8 && e[m] != 0
  {
    var k: nat :| k < 64 && Bit(e, k);
    ByteBits(e, k / 8);
    BitMeansNonzero(e[k / 8], k % 8);
  }

  // An error over the low 8 - s bits of byte i and the high s bits of the next.
  lemma TwoBytesDetected(p: bv8, e: Payload, i: nat, s: nat)
    requires Odd(p) && i < 8 && s < 8 && Right(e[i], 8 - s) == 0 && (i < 7 ==> Left(e[i + 1], s) == 0)
    requires forall m: nat | m < 8 && m != i && m != i + 1 :: e[m] == 0
    requires e[i] != 0 || (i < 7 && e[i + 1] != 0)
    ensures Syndrome(p, e) != 0
  {
    MixStart(p, e, i);
    if i < 7 {
      MixStep(p, e, i);
      BurstSurvives(e[i], e[i + 1], p, s);
      AddIsZero(ShiftTimes(e[i], p, BITS_PER_BYTE), e[i + 1]);
      MixSurvives(p, e, i + 1);
    }
  }

  // Any error confined to eight consecutive bits leaves a non-zero syndrome,
  // for every polynomial with a constant term.
  lemma BurstDetected(p: bv8, e: Payload, pos: nat)
    requires Odd(p) && WithinWindow(e, pos) && SomeError(e)
    ensures Syndrome(p, e) != 0
  {
    WindowStarts(e, pos);
    var i, s := pos / 8, pos % 8;
    WindowBytes(e, pos, i, s);
    SomeByteHit(e);
    TwoBytesDetected(p, e, i, s);
  }

  lemma WindowStarts(e: Payload, pos: nat)
    requires WithinWindow(e, pos) && SomeError(e)
    ensures pos < 64
  {
  }

  // ----------------------------------------------------------- two bits

  lemma OneBitByte(b: bv8, q: nat)
    requires q < 8 && forall j: nat | j < 8 :: BitOf(b, j) <==> j == q
    ensures SingleBit(b)
  {
    assert BitOf(b, 0) <==> q == 0;
    assert BitOf(b, 1) <==> q == 1;
    assert BitOf(b, 2) <==> q == 2;
    assert BitOf(b, 3) <==> q == 3;
    assert BitOf(b, 4) <==> q == 4;
    assert BitOf(b, 5) <==> q == 5;
    assert BitOf(b, 6) <==> q == 6;
    assert BitOf(b, 7) <==> q == 7;
  }

  lemma MixByteStep(e: Payload, k: nat)
    requires k < 7
    ensures Mix(SAE_J1850, e, k + 1) == Add(ByteStep(Mix(SAE_J1850, e, k)), e[k + 1])
  {
    MixStep(SAE_J1850, e, k);
    ByteStepIsShifts(Mix(SAE_J1850, e, k));
  }

  lemma {:induction false} MixRolls(e: Payload, i: nat, d: nat)
    requires i + d < 8
    requires forall m :: 0 <= m < i + d && m != i ==> e[m] == 0
    requires d > 0
    ensures Mix(SAE_J1850, e, i + d) == Add(ByteSteps(e[i], d), e[i + d])
    decreases d
  {
    MixByteStep(e, i + d - 1);
    if d == 1 {
      MixStart(SAE_J1850, e, i);
    } else {
      MixRolls(e, i, d - 1);
      AddZero(ByteSteps(e[i], d - 1));
    }
  }

  // With the SAE J1850 polynomial no error in one or two bits, however far
  // apart in the frame, leaves a zero syndrome.
  lemma TwoBitsDetected(e: Payload, a: nat, b: nat)
    requires a <= b < 64 && TouchesExactly(e, a, b)
    ensures Syndrome(SAE_J1850, e) != 0
  {
    var i, j := a / 8, b / 8;
    forall m: nat | m < 8 && m != i && m != j ensures e[m] == 0 {
      ByteSilent(e, m);
    }
    ByteBits(e, i);
    ByteBits(e, j);
    if i == j {
      BitMeansNonzero(e[i], a % 8);
      MixStart(SAE_J1850, e, i);
      MixSurvives(SAE_J1850, e, i);
    } else {
      OneBitByte(e[i], a % 8);
      OneBitByte(e[j], b % 8);
      SingleBitsDetected(e, i, j);
    }
  }

  lemma SingleBitsDetected(e: Payload, i: nat, j: nat)
    requires i < j < 8 && SingleBit(e[i]) && SingleBit(e[j])
    requires forall m: nat | m < 8 && m != i && m != j :: e[m] == 0
    ensures Syndrome(SAE_J1850, e) != 0
  {
    MixRolls(e, i, j - i);
    PowersOfSingleBit(e[i]);
    AddIsZero(ByteSteps(e[i], j - i), e[j]);
    MixSurvives(SAE_J1850, e, j);
  }

  // ---------------------------------------------------- at the receiver

  ghost predicate Detectable(e: Payload) {
    || (SomeError(e) && exists pos: nat :: WithinWindow(e, pos))
    || exists a: nat, b: nat :: a <= b < 64 && TouchesExactly(e, a, b)
  }

  // A frame that a receiver with the parsed polynomial would accept is never
  // accepted again after a burst of up to eight bits or one or two bit errors.
  lemma CorruptedControlRejected(cfg: CanCodecConfig, f: CanFrame, e: Payload)
    requires cfg.crcPolynomial == SAE_J1850 && DecodeControl(cfg, f).Ok? && Detectable(e)
    ensures DecodeControl(cfg, Corrupt(f, e)).Err?
  {
    SyndromeDecides(cfg, f, e);
    DetectableHasSyndrome(e);
  }

  lemma CorruptedStateRejected(cfg: CanCodecConfig, f: CanFrame, e: Payload)
    requires cfg.crcPolynomial == SAE_J1850 && DecodeState(cfg, f).Ok? && Detectable(e)
    ensures DecodeState(cfg, Corrupt(f, e)) == Err(CrcMismatch)
  {
    SyndromeDecides(cfg, f, e);
    DetectableHasSyndrome(e);
  }

  lemma DetectableHasSyndrome(e: Payload)
    requires Detectable(e)
    ensures Syndrome(SAE_J1850, e) != 0
  {
    if SomeError(e) && exists pos: nat :: WithinWindow(e, pos) {
      var pos: nat :| WithinWindow(e, pos);
      BurstDetected(SAE_J1850, e, pos);
    } else {
      var a: nat, b: nat :| a <= b < 64 && TouchesExactly(e, a, b);
      TwoBitsDetected(e, a, b);
    }
  }

  // The bound is tight: the nine-bit burst that spells the generator itself,
  // laid over the last byte of the payload and the CRC, goes unseen.
  lemma NineBitBurstUnseen()
    ensures Syndrome(SAE_J1850, [0, 0, 0, 0, 0, 0, 0x01, 0x1D]) == 0
  {
    var e: Payload := [0, 0, 0, 0, 0, 0, 0x01, 0x1D];
    MixStart(SAE_J1850, e, 6);
    MixStep(SAE_J1850, e, 6);
    ByteStepIsShifts(e[6]);
    assert ByteStep(0x01) == 0x1D;
    AddIsZero(ByteStep(e[6]), e[7]);
  }
}
