// The 8-bit CRC register of the SAE J1850 CRC (section 7.2.1.1 of the AUTOSAR
// Specification of CRC Routines): most significant bit first, no reflection.
module Crc8 {

  const BITS_PER_BYTE: nat := 8

  // Addition over GF(2), bit by bit.
  function Add(a: bv8, b: bv8): bv8 {
    a ^ b
  }

  // One shift of the CRC register.
  function Shift(crc: bv8, polynomial: bv8): bv8 {
    if crc & 0x80 != 0 then (crc << 1) ^ polynomial else crc << 1
  }

  function ShiftTimes(crc: bv8, polynomial: bv8, n: nat): bv8
    decreases n
  {
    if n == 0 then crc else Shift(ShiftTimes(crc, polynomial, n - 1), polynomial)
  }

  // The register after absorbing one byte.
  function Absorb(crc: bv8, input: bv8, polynomial: bv8): bv8 {
    ShiftTimes(Add(crc, input), polynomial, BITS_PER_BYTE)
  }

  // The register after absorbing `bytes` in order.
  function AbsorbAll(crc: bv8, bytes: seq<bv8>, polynomial: bv8): bv8 {
    if bytes == [] then crc
    else Absorb(AbsorbAll(crc, bytes[..|bytes| - 1], polynomial), bytes[|bytes| - 1], polynomial)
  }

  method UpdateCrc(crc0: bv8, input: bv8, polynomial: bv8) returns (crc: bv8)
    ensures crc == Absorb(crc0, input, polynomial)
  {
    crc := Add(crc0, input);
    for bit := 0 to BITS_PER_BYTE
      invariant crc == ShiftTimes(Add(crc0, input), polynomial, bit)
    {
      crc := Shift(crc, polynomial);
    }
  }

  // ---------------------------------------------------------- addition

  lemma AddAssociative(a: bv8, b: bv8, c: bv8)
    ensures Add(Add(a, b), c) == Add(a, Add(b, c))
  {
  }

  lemma AddCommutative(a: bv8, b: bv8)
    ensures Add(a, b) == Add(b, a)
  {
  }

  lemma AddZero(a: bv8)
    ensures Add(a, 0) == a && Add(0, a) == a && Add(a, a) == 0
  {
  }

  lemma AddIsZero(a: bv8, b: bv8)
    ensures Add(a, b) == 0 <==> a == b
  {
  }

  lemma Regroup(a: bv8, b: bv8, c: bv8, d: bv8)
    ensures Add(Add(a, b), Add(c, d)) == Add(Add(a, c), Add(b, d))
  {
    AddAssociative(a, b, Add(c, d));
    AddAssociative(b, c, d);
    AddCommutative(b, c);
    AddAssociative(c, b, d);
    AddAssociative(a, c, Add(b, d));
  }

  // ---------------------------------------------------------- linearity

  // The bytes of `a` with the bits of `e` flipped.
  function Flip(a: seq<bv8>, e: seq<bv8>): (r: seq<bv8>)
    requires |a| == |e|
    ensures |r| == |a|
    ensures forall k :: 0 <= k < |a| ==> r[k] == Add(a[k], e[k])
  {
    seq(|a|, k requires 0 <= k < |a| => Add(a[k], e[k]))
  }

  lemma DoubleLinear(a: bv8, b: bv8)
    ensures (a ^ b) << 1 == (a << 1) ^ (b << 1)
  {
  }

  lemma TopBitLinear(a: bv8, b: bv8)
    ensures (a ^ b) & 0x80 == (a & 0x80) ^ (b & 0x80)
  {
  }

  lemma TopBitCases(a: bv8)
    ensures a & 0x80 == 0 || a & 0x80 == 0x80
  {
  }

  lemma ShiftLinear(a: bv8, b: bv8, p: bv8)
    ensures Shift(Add(a, b), p) == Add(Shift(a, p), Shift(b, p))
  {
    DoubleLinear(a, b);
    TopBitLinear(a, b);
    TopBitCases(a);
    TopBitCases(b);
    if a & 0x80 == 0 {
      if b & 0x80 == 0 {} else {}
    } else {
      if b & 0x80 == 0 {} else {}
    }
  }

  lemma {:induction false} ShiftTimesLinear(a: bv8, b: bv8, p: bv8, n: nat)
    ensures ShiftTimes(Add(a, b), p, n) == Add(ShiftTimes(a, p, n), ShiftTimes(b, p, n))
    decreases n
  {
    if n > 0 {
      ShiftTimesLinear(a, b, p, n - 1);
      ShiftLinear(ShiftTimes(a, p, n - 1), ShiftTimes(b, p, n - 1), p);
    }
  }

  lemma AbsorbLinear(c: bv8, d: bv8, x: bv8, y: bv8, p: bv8)
    ensures Absorb(Add(c, d), Add(x, y), p) == Add(Absorb(c, x, p), Absorb(d, y, p))
  {
    Regroup(c, d, x, y);
    ShiftTimesLinear(Add(c, x), Add(d, y), p, BITS_PER_BYTE);
  }

  lemma FlipLast(s: seq<bv8>, t: seq<bv8>)
    requires |s| == |t| > 0
    ensures Flip(s, t)[..|s| - 1] == Flip(s[..|s| - 1], t[..|s| - 1])
    ensures Flip(s, t)[|s| - 1] == Add(s[|s| - 1], t[|s| - 1])
  {
  }

  // Adding two registers run side by side is running one register over the
  // added bytes.
  lemma {:induction false} AbsorbAllLinear(c: bv8, d: bv8, s: seq<bv8>, t: seq<bv8>, p: bv8)
    requires |s| == |t|
    ensures AbsorbAll(Add(c, d), Flip(s, t), p) == Add(AbsorbAll(c, s, p), AbsorbAll(d, t, p))
    decreases |s|
  {
    var n := |s|;
    if n > 0 {
      AbsorbAllLinear(c, d, s[..n - 1], t[..n - 1], p);
      FlipLast(s, t);
      AbsorbLinear(AbsorbAll(c, s[..n - 1], p), AbsorbAll(d, t[..n - 1], p), s[n - 1], t[n - 1], p);
    }
  }

  // ------------------------------------------------------- trivial kernel

  predicate Odd(polynomial: bv8) {
    polynomial & 1 == 1
  }

  lemma ShiftKernel(d: bv8, p: bv8)
    requires Odd(p) && d != 0
    ensures Shift(d, p) != 0
  {
  }

  lemma ShiftZero(p: bv8)
    ensures Shift(0, p) == 0
  {
  }

  // A non-zero register never shifts to zero, and a zero one stays zero.
  lemma {:induction false} ShiftTimesKernel(d: bv8, p: bv8, n: nat)
    requires Odd(p)
    ensures ShiftTimes(d, p, n) == 0 <==> d == 0
    decreases n
  {
    if n > 0 {
      ShiftTimesKernel(d, p, n - 1);
      ShiftZero(p);
      if d != 0 {
        ShiftKernel(ShiftTimes(d, p, n - 1), p);
      }
    }
  }

  // ----------------------------------------------------- bursts of 8 bits

  function Left(x: bv8, k: nat): bv8
    requires k <= 8
  {
    x << k
  }

  function Right(x: bv8, k: nat): bv8
    requires k <= 8
  {
    x >> k
  }

  lemma NoShift(x: bv8)
    ensures Left(x, 0) == x && Right(x, 8) == 0 && Left(0, 8) == 0
  {
  }

  lemma GrowStep(x: bv8, p: bv8, s: nat, k: nat)
    requires k < s <= 8 && Right(x, 8 - s) == 0
    ensures Shift(Left(x, k), p) == Left(x, k + 1)
  {
  }

  // While the top bits are clear the register only moves left.
  lemma {:induction false} Grow(x: bv8, p: bv8, s: nat, k: nat)
    requires k <= s <= 8 && Right(x, 8 - s) == 0
    ensures ShiftTimes(x, p, k) == Left(x, k)
    decreases k
  {
    if k == 0 {
      NoShift(x);
    } else {
      Grow(x, p, s, k - 1);
      GrowStep(x, p, s, k - 1);
    }
  }

  lemma EvenResult(w: bv8, y: bv8, p: bv8, m: nat)
    requires 0 < m <= 8 && Left(y, 8 - m) == 0 && Odd(p) && Shift(w, p) == y
    ensures Left(w, 1) == y && w & 0x80 == 0 && Left(w, 9 - m) == 0
  {
  }

  lemma OneMoreDouble(z: bv8, m: nat)
    requires 0 < m <= 8
    ensures Left(Left(z, m - 1), 1) == Left(z, m)
  {
  }

  lemma ClearOneMore(z: bv8, m: nat)
    requires 0 < m <= 8 && Right(z, 9 - m) == 0 && Left(z, m - 1) & 0x80 == 0
    ensures Right(z, 8 - m) == 0
  {
  }

  // An odd polynomial sets the low bit whenever it is added, so a result with
  // clear low bits was reached by doubling alone.
  lemma {:induction false} Shrink(z: bv8, p: bv8, m: nat)
    requires Odd(p) && m <= 8 && Left(ShiftTimes(z, p, m), 8 - m) == 0
    ensures Left(z, m) == ShiftTimes(z, p, m) && Right(z, 8 - m) == 0
    decreases m
  {
    if m == 0 {
      NoShift(z);
    } else {
      EvenResult(ShiftTimes(z, p, m - 1), ShiftTimes(z, p, m), p, m);
      Shrink(z, p, m - 1);
      OneMoreDouble(z, m);
      ClearOneMore(z, m);
    }
  }

  lemma {:induction false} ShiftTimesSum(x: bv8, p: bv8, m: nat, n: nat)
    ensures ShiftTimes(x, p, m + n) == ShiftTimes(ShiftTimes(x, p, m), p, n)
    decreases n
  {
    if n > 0 {
      ShiftTimesSum(x, p, m, n - 1);
    }
  }

  lemma NothingLeft(x: bv8, s: nat)
    requires s <= 8 && Right(x, 8 - s) == 0 && Right(Left(x, s), s) == 0
    ensures x == 0
  {
  }

  // A burst over the low 8 - s bits of one byte and the high s bits of the
  // next never cancels in the register.
  lemma BurstSurvives(x: bv8, y: bv8, p: bv8, s: nat)
    requires Odd(p) && s <= 8
    requires Right(x, 8 - s) == 0 && Left(y, s) == 0 && (x != 0 || y != 0)
    ensures ShiftTimes(x, p, BITS_PER_BYTE) != y
  {
    if ShiftTimes(x, p, BITS_PER_BYTE) == y {
      Grow(x, p, s, s);
      ShiftTimesSum(x, p, s, 8 - s);
      Shrink(Left(x, s), p, 8 - s);
      NothingLeft(x, s);
      ShiftTimesKernel(x, p, BITS_PER_BYTE);
    }
  }

  // --------------------------------------------------- two distant bits

  const SAE_J1850: bv8 := 0x1D

  predicate SingleBit(u: bv8) {
    u != 0 && u & (u - 1) == 0
  }

  // Eight shifts with the SAE J1850 polynomial, written out.
  function ByteStep(c: bv8): bv8 {
    Shift(Shift(Shift(Shift(Shift(Shift(Shift(Shift(c, 0x1D), 0x1D), 0x1D), 0x1D), 0x1D), 0x1D), 0x1D), 0x1D)
  }

  lemma ByteStepIsShifts(c: bv8)
    ensures ShiftTimes(c, SAE_J1850, BITS_PER_BYTE) == ByteStep(c)
  {
    assert ShiftTimes(c, SAE_J1850, 1) == Shift(c, SAE_J1850);
    assert ShiftTimes(c, SAE_J1850, 3) == Shift(Shift(Shift(c, 0x1D), 0x1D), 0x1D);
    assert ShiftTimes(c, SAE_J1850, 5) ==
      Shift(Shift(Shift(Shift(Shift(c, 0x1D), 0x1D), 0x1D), 0x1D), 0x1D);
    assert ShiftTimes(c, SAE_J1850, 6) ==
      Shift(Shift(Shift(Shift(Shift(Shift(c, 0x1D), 0x1D), 0x1D), 0x1D), 0x1D), 0x1D);
  }

  function ByteSteps(c: bv8, d: nat): bv8
    decreases d
  {
    if d == 0 then c else ByteStep(ByteSteps(c, d - 1))
  }

  // Multiplying a single bit by x^8, x^16, ..., x^56 never gives a single bit.
  lemma PowersOfSingleBit(u: bv8)
    requires SingleBit(u)
    ensures forall d | 1 <= d <= 7 :: !SingleBit(ByteSteps(u, d))
  {
    var w1 := ByteStep(u);
    var w2 := ByteStep(w1);
    var w3 := ByteStep(w2);
    var w4 := ByteStep(w3);
    var w5 := ByteStep(w4);
    var w6 := ByteStep(w5);
    var w7 := ByteStep(w6);
    assert !SingleBit(w1) && !SingleBit(w2) && !SingleBit(w3) && !SingleBit(w4);
    assert !SingleBit(w5) && !SingleBit(w6) && !SingleBit(w7);
    assert ByteSteps(u, 1) == w1 && ByteSteps(u, 2) == w2 && ByteSteps(u, 3) == w3;
    assert ByteSteps(u, 4) == w4 && ByteSteps(u, 5) == w5 && ByteSteps(u, 6) == w6;
  }
}
