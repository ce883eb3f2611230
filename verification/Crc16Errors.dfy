/**
 What the checksum detects. Every statement is about two payloads of one length and the positions,
 in transmission order, where their bits differ.
 */
module Crc16Errors {
  import opened ShiftRegister
  import opened Crc16

  // ---------- The register as sixteen bits ----------

  function Odd(r: bv16): bool {
    r & 1 == 1
  }

  function Half(r: bv16): bv16 {
    r >> 1
  }

  predicate IsXor(a: bv16, b: bv16, c: bv16) {
    c == a ^ b
  }

  function RegisterBits(r: bv16): (bits: seq<bool>)
    ensures |bits| == 16
  {
    Digits(Odd, Half, r, 16)
  }

  lemma HalvesAdd(a: bv16, b: bv16, c: bv16)
    requires IsXor(a, b, c)
    ensures Odd(c) == (Odd(a) != Odd(b)) && IsXor(Half(a), Half(b), Half(c))
  {
  }

  lemma RegisterBitsAdd(a: bv16, b: bv16, c: bv16, n: nat)
    requires IsXor(a, b, c)
    ensures Digits(Odd, Half, c, n) == Difference(Digits(Odd, Half, a, n), Digits(Odd, Half, b, n))
  {
    forall x, y, z ensures DigitAdds(Odd, Half, IsXor, x, y, z) {
      if IsXor(x, y, z) { HalvesAdd(x, y, z); }
    }
    DigitsAdd(Odd, Half, IsXor, a, b, c, n);
  }

  lemma EightHalves(r: bv16, h: bv16)
    requires h == Halved(Half, r, 8)
    ensures h == r >> 8
  {
  }

  lemma SixteenHalves(r: bv16, m: bv16, h: bv16)
    requires m == Halved(Half, r, 8) && h == Halved(Half, m, 8)
    ensures !Odd(h)
  {
    EightHalves(r, m);
    EightHalves(m, h);
  }

  /** Halving drops the first bit. */
  lemma RegisterBitsOfHalf(r: bv16)
    ensures RegisterBits(Half(r)) == RegisterBits(r)[1..] + [false]
  {
    DigitsSnoc(Odd, Half, r, 16);
    HalvedCompose(Half, r, 8, 8);
    SixteenHalves(r, Halved(Half, r, 8), Halved(Half, r, 16));
    assert Digits(Odd, Half, r, 17)[1..] == RegisterBits(Half(r));
  }

  lemma StepBits(r: bv16, stepped: bv16)
    requires stepped == BitStep(r)
    ensures !Odd(r) ==> stepped == Half(r)
    ensures Odd(r) ==> IsXor(Half(r), 0xA001, stepped)
  {
  }

  /** A shift, on the bits. */
  lemma RegisterShiftsAs(r: bv16, stepped: bv16)
    requires stepped == BitStep(r)
    ensures ShiftsAs(RegisterBits(r), RegisterBits(stepped), RegisterBits(0xA001))
  {
    StepBits(r, stepped);
    RegisterBitsOfHalf(r);
    if Odd(r) {
      RegisterBitsAdd(Half(r), 0xA001, stepped, 16);
    }
  }

  // ---------- Squaring, and the order of the generator ----------

  /**
   The register value 0x8000 stands for 1 and a shift multiplies by x, so that `n` shifts of it are
   x^n modulo the generator. Squaring is linear: it doubles every exponent.
   */
  function Square(v: bv16): bv16 {
    Combine(REGISTER, RegisterBits(v), 0x6001)
  }

  /** The images of the sixteen bits, each two shifts back from the one before. */
  function Image(j: nat): bv16 {
    if j < 4 then Image4(0x6001, 0xC007, 0xC019, 0xC061, j)
    else if j < 8 then Image4(0xC181, 0xC601, 0xD801, 0xA001, j - 4)
    else if j < 12 then Image4(0x0002, 0x0008, 0x0020, 0x0080, j - 8)
    else Image4(0x0200, 0x0800, 0x2000, 0x8000, j - 12)
  }

  function Image4(i0: bv16, i1: bv16, i2: bv16, i3: bv16, j: nat): bv16 {
    if j == 0 then i0 else if j == 1 then i1 else if j == 2 then i2 else i3
  }

  lemma FourBack(i0: bv16, i1: bv16, i2: bv16, i3: bv16, i4: bv16, j: nat)
    requires j < 4
    requires i1 == BitBack(BitBack(i0)) && i2 == BitBack(BitBack(i1))
    requires i3 == BitBack(BitBack(i2)) && i4 == BitBack(BitBack(i3))
    ensures (if j == 3 then i4 else Image4(i0, i1, i2, i3, j + 1)) == BitBack(BitBack(Image4(i0, i1, i2, i3, j)))
  {
  }

  lemma ImageStepsBack(j: nat)
    requires j < 15
    ensures StepsBack(REGISTER, Image, j)
  {
    if j < 4 { FourBack(0x6001, 0xC007, 0xC019, 0xC061, 0xC181, j); }
    else if j < 8 { FourBack(0xC181, 0xC601, 0xD801, 0xA001, 0x0002, j - 4); }
    else if j < 12 { FourBack(0x0002, 0x0008, 0x0020, 0x0080, 0x0200, j - 8); }
    else { FourBack(0x0200, 0x0800, 0x2000, 0x8000, BitBack(BitBack(0x8000)), j - 12); }
  }

  function SquareTable(v: bv16): bv16 {
    Sixteen(REGISTER, Odd, Half, v, Image)
  }

  lemma SquareIsTable(v: bv16, square: bv16)
    requires square == Square(v)
    ensures square == SquareTable(v)
  {
    forall j | 0 <= j < 15 ensures StepsBack(REGISTER, Image, j) {
      ImageStepsBack(j);
    }
    CombineIsSixteen(REGISTER, Odd, Half, v, Image);
  }

  lemma SquareOfPolynomial()
    ensures Square(0xA001) == BitStep(BitStep(0x6001))
  {
    SquareIsTable(0xA001, Square(0xA001));
  }

  lemma SquareDoubles(v: bv16, stepped: bv16)
    requires stepped == BitStep(v)
    ensures Square(stepped) == REGISTER.step(REGISTER.step(Square(v)))
  {
    RegisterIsLawful();
    RegisterShiftsAs(v, stepped);
    SquareOfPolynomial();
    CombineDoubles(REGISTER, RegisterBits(v), RegisterBits(stepped), RegisterBits(0xA001), 0x6001);
  }

  /** x^n modulo the generator. */
  ghost function Power(n: nat): bv16 {
    Shifts(REGISTER, 0x8000, n)
  }

  lemma Advance(n: nat, p: bv16, q: bv16)
    requires p == Power(n) && q == BitStep(p)
    ensures q == Power(n + 1)
  {
    ShiftsCompose(REGISTER, 0x8000, n, 1);
    assert Shifts(REGISTER, p, 1) == Shifts(REGISTER, REGISTER.step(p), 0);
  }

  lemma SquareOfOne()
    ensures Square(0x8000) == 0x8000
  {
    SquareIsTable(0x8000, Square(0x8000));
  }

  lemma PowerDoubles(n: nat)
    ensures Power(2 * n) == Square(Power(n))
  {
    forall v ensures Square(REGISTER.step(v)) == REGISTER.step(REGISTER.step(Square(v))) {
      SquareDoubles(v, REGISTER.step(v));
    }
    DoubledShifts(REGISTER, Square, 0x8000, n);
    SquareOfOne();
  }

  lemma Double(n: nat, p: bv16, q: bv16)
    requires p == Power(n) && q == SquareTable(p)
    ensures q == Power(2 * n)
  {
    PowerDoubles(n);
    SquareIsTable(p, Square(p));
  }

  lemma Power217()
    ensures Power(217) == 0x3E55
  {
    Advance(0, 0x8000, 0x4000);
    Double(1, 0x4000, 0x2000);
    Advance(2, 0x2000, 0x1000);
    Double(3, 0x1000, 0x0200);
    Double(6, 0x0200, 0x0008);
    Advance(12, 0x0008, 0x0004);
    Double(13, 0x0004, 0xC019);
    Advance(26, 0xC019, 0xC00D);
    Double(27, 0xC00D, 0xC079);
    Double(54, 0xC079, 0xDFE1);
    Double(108, 0xDFE1, 0x7CAA);
    Advance(216, 0x7CAA, 0x3E55);
  }

  lemma Power1057()
    ensures Power(1057) == 0xCE41
  {
    Advance(0, 0x8000, 0x4000);
    Double(1, 0x4000, 0x2000);
    Double(2, 0x2000, 0x0800);
    Double(4, 0x0800, 0x0080);
    Double(8, 0x0080, 0xA001);
    Double(16, 0xA001, 0xE801);
    Advance(32, 0xE801, 0xD401);
    Double(33, 0xD401, 0xC221);
    Double(66, 0xC221, 0x0608);
    Double(132, 0x0608, 0xC049);
    Double(264, 0xC049, 0xD861);
    Double(528, 0xD861, 0xDC81);
    Advance(1056, 0xDC81, 0xCE41);
  }

  lemma Power4681()
    ensures Power(4681) == 0x8C69
  {
    Advance(0, 0x8000, 0x4000);
    Double(1, 0x4000, 0x2000);
    Double(2, 0x2000, 0x0800);
    Double(4, 0x0800, 0x0080);
    Advance(8, 0x0080, 0x0040);
    Double(9, 0x0040, 0xD801);
    Double(18, 0xD801, 0xC281);
    Double(36, 0xC281, 0x6008);
    Advance(72, 0x6008, 0x3004);
    Double(73, 0x3004, 0xCA19);
    Double(146, 0xCA19, 0xC169);
    Double(292, 0xC169, 0x1E62);
    Advance(584, 0x1E62, 0x0F31);
    Double(585, 0x0F31, 0x672B);
    Double(1170, 0x672B, 0x8E4C);
    Double(2340, 0x8E4C, 0x58D1);
    Advance(4680, 0x58D1, 0x8C69);
  }

  lemma Power512()
    ensures Power(512) == 0xE081
  {
    Advance(0, 0x8000, 0x4000);
    Double(1, 0x4000, 0x2000);
    Double(2, 0x2000, 0x0800);
    Double(4, 0x0800, 0x0080);
    Double(8, 0x0080, 0xA001);
    Double(16, 0xA001, 0xE801);
    Double(32, 0xE801, 0xC881);
    Double(64, 0xC881, 0x6080);
    Double(128, 0x6080, 0x8801);
    Double(256, 0x8801, 0xE081);
  }

  lemma Power32768()
    ensures Power(32768) == 0x4000
  {
    Power512();
    Double(512, 0xE081, 0x6800);
    Double(1024, 0x6800, 0x2880);
    Double(2048, 0x2880, 0xA881);
    Double(4096, 0xA881, 0x4880);
    Double(8192, 0x4880, 0x8081);
    Double(16384, 0x8081, 0x4000);
  }

  lemma Power32767()
    ensures Power(32767) == 0x8000
  {
    Power32768();
    RegisterIsLawful();
    var p := Power(32767);
    Advance(32767, p, BitStep(p));
    assert BitStep(p) == 0x4000 == BitStep(0x8000);
    BackUndoesStep(p, 0x4000, BitBack(0x4000));
    BackUndoesStep(0x8000, 0x4000, BitBack(0x4000));
  }

  /** 32767 = 7 * 31 * 151, so a proper divisor divides it with one of the three primes left out. */
  lemma ProperDivisors(p: nat)
    requires 0 < p < 32767 && 32767 % p == 0
    ensures 4681 % p == 0 || 1057 % p == 0 || 217 % p == 0
  {
    var k := 32767 / p;
    assert p * k == 32767;
    if p <= 181 {
      SmallDivisors(p, k);
    } else {
      assert k <= 181 by {
        if k > 181 { MulGrows(p, 182, k, 182); }
      }
      SmallDivisors(k, p);
    }
  }

  lemma MulGrows(a: nat, b: nat, c: nat, d: nat)
    requires a >= b && c >= d
    ensures a * c >= b * d
  {
  }

  lemma SmallDivisors(p: nat, k: nat)
    requires 0 < p <= 181 && p * k == 32767
    ensures p == 1 || p == 7 || p == 31 || p == 151
  {
  }

  lemma MultipleIsNotOne(p: nat, n: nat)
    requires p > 0 && n % p == 0 && Power(n) != 0x8000
    ensures Power(p) != 0x8000
  {
    if Power(p) == 0x8000 {
      assert (n / p) * p == n;
      MultiplesOfAPeriod(REGISTER, 0x8000, p, n / p);
    }
  }

  lemma DivisorIsNotAPeriod(p: nat)
    requires 0 < p < 32767 && 32767 % p == 0
    ensures Power(p) != 0x8000
  {
    ProperDivisors(p);
    if 4681 % p == 0 {
      Power4681();
      MultipleIsNotOne(p, 4681);
    } else if 1057 % p == 0 {
      Power1057();
      MultipleIsNotOne(p, 1057);
    } else {
      Power217();
      MultipleIsNotOne(p, 217);
    }
  }

  /** No positive power below 32767 is 1: every such exponent reduces to a proper divisor. */
  lemma {:induction false} NoSmallerPeriod(p: nat)
    requires 0 < p < 32767
    ensures Power(p) != 0x8000
    decreases p
  {
    if Power(p) == 0x8000 {
      Power32767();
      RemainderOfPeriods(REGISTER, 0x8000, 32767, p);
      if 32767 % p > 0 {
        NoSmallerPeriod(32767 % p);
      } else {
        DivisorIsNotAPeriod(p);
      }
    }
  }

  /** The generator has order 32767 exactly. */
  lemma OrderOfTheGenerator(n: nat)
    ensures Power(n) == 0x8000 <==> n % 32767 == 0
  {
    Power32767();
    if n % 32767 == 0 {
      MultiplesOfAPeriod(REGISTER, 0x8000, 32767, n / 32767);
    } else if Power(n) == 0x8000 {
      RemainderOfPeriods(REGISTER, 0x8000, n, 32767);
      NoSmallerPeriod(n % 32767);
    }
  }

  lemma OneIsFifteenShifts()
    ensures Shifts(REGISTER, 0x8000, 15) == 1
  {
    assert Shifts(REGISTER, 0x8000, 8) == 0x0080;
    ShiftsCompose(REGISTER, 0x8000, 8, 7);
  }

  /** The same order, seen from the register value 1. */
  lemma SingleBitReturnsIff(gap: nat)
    ensures Shifts(REGISTER, 1, gap) == 1 <==> gap % 32767 == 0
  {
    OneIsFifteenShifts();
    RegisterIsLawful();
    ShiftsCompose(REGISTER, 0x8000, 15, gap);
    ShiftsCompose(REGISTER, 0x8000, gap, 15);
    OrderOfTheGenerator(gap);
    if Shifts(REGISTER, 1, gap) == 1 {
      ShiftsInjective(REGISTER, Power(gap), 0x8000, 15);
    }
  }

  // ---------- Payloads ----------

  /** The positions, in transmission order, where two payloads of one length differ. */
  function BitDifference(a: seq<bv8>, b: seq<bv8>): (d: seq<bool>)
    requires |a| == |b|
    ensures |d| == 8 * |a|
  {
    Difference(Bits(a), Bits(b))
  }

  lemma SameChecksumIff(a: seq<bv8>, b: seq<bv8>)
    requires |a| == |b|
    ensures SerialCrc(a) == SerialCrc(b) <==> Feed(REGISTER, 0, BitDifference(a, b)) == 0
  {
    RegisterIsLawful();
    UndetectedIffDifferenceVanishes(REGISTER, INITIAL, Bits(a), Bits(b));
  }

  lemma ByteBitsInjective(a: bv8, b: bv8)
    requires ByteBits(a) == ByteBits(b)
    ensures a == b
  {
    ByteSpells(a);
    ByteSpells(b);
    assert (a as int) as bv8 == a && (b as int) as bv8 == b;
  }

  lemma LastByteApart(a: seq<bv8>, b: seq<bv8>, n: nat)
    requires |a| == |b| == n + 1 && Bits(a) == Bits(b)
    ensures Bits(a[..n]) == Bits(b[..n]) && ByteBits(a[n]) == ByteBits(b[n])
  {
    SplitsAgree(Bits(a[..n]), ByteBits(a[n]), Bits(b[..n]), ByteBits(b[n]));
  }

  lemma {:induction false} BitsInjective(a: seq<bv8>, b: seq<bv8>)
    requires |a| == |b| && Bits(a) == Bits(b)
    ensures a == b
    decreases |a|
  {
    if a != [] {
      var n := |a| - 1;
      LastByteApart(a, b, n);
      BitsInjective(a[..n], b[..n]);
      ByteBitsInjective(a[n], b[n]);
      assert a == a[..n] + [a[n]] && b == b[..n] + [b[n]];
    }
  }

  lemma {:induction false} NonzeroWindowSpellsNonzero(window: seq<bool>, k: nat)
    requires k < |window| && window[k]
    ensures PackInt(window) > 0
    decreases |window|
  {
    if !window[0] {
      NonzeroWindowSpellsNonzero(window[1..], k - 1);
    }
  }

  lemma WindowPacks(window: seq<bool>, k: nat)
    requires k < |window| <= 16 && window[k]
    ensures Pack(REGISTER, window) != 0
  {
    NonzeroWindowSpellsNonzero(window, k);
    PackIsInt(window, Pack(REGISTER, window));
  }

  lemma BurstDoesNotVanish(d: seq<bool>, start: nat, k: nat)
    requires k < |d| && d[k]
    requires forall j :: 0 <= j < |d| && !(start <= j < start + 16) ==> !d[j]
    ensures Feed(REGISTER, 0, d) != 0
  {
    var end := if start + 16 <= |d| then start + 16 else |d|;
    WindowPacks(d[start..end], k - start);
    RegisterIsLawful();
    WindowVanishesIff(REGISTER, d, start, end);
  }

  lemma BurstShows(x: seq<bool>, y: seq<bool>, start: nat)
    requires |x| == |y| && x != y
    requires forall k :: 0 <= k < |x| && !(start <= k < start + 16) ==> x[k] == y[k]
    ensures Feed(REGISTER, INITIAL, x) != Feed(REGISTER, INITIAL, y)
  {
    var k :| 0 <= k < |x| && x[k] != y[k];
    BurstDoesNotVanish(Difference(x, y), start, k);
    RegisterIsLawful();
    UndetectedIffDifferenceVanishes(REGISTER, INITIAL, x, y);
  }

  /** Burst errors: a change confined to sixteen consecutive bits is always detected. */
  lemma BurstIsDetected(a: seq<bv8>, b: seq<bv8>, start: nat)
    requires |a| == |b| && a != b
    requires forall k :: 0 <= k < 8 * |a| && !(start <= k < start + 16) ==> Bits(a)[k] == Bits(b)[k]
    ensures SerialCrc(a) != SerialCrc(b)
  {
    if Bits(a) == Bits(b) {
      BitsInjective(a, b);
    }
    BurstShows(Bits(a), Bits(b), start);
  }

  lemma TwoOnesVanish(d: seq<bool>, i: nat, j: nat)
    requires i < j < |d| && forall k :: 0 <= k < |d| ==> (d[k] <==> k == i || k == j)
    ensures Feed(REGISTER, 0, d) == 0 <==> (j - i) % 32767 == 0
  {
    RegisterIsLawful();
    TwoOnesVanishIff(REGISTER, d, i, j);
    SingleBitReturnsIff(j - i);
  }

  lemma TwoBitsOff(x: seq<bool>, y: seq<bool>, i: nat, j: nat)
    requires |x| == |y| && i < j < |x|
    requires forall k :: 0 <= k < |x| ==> (x[k] != y[k] <==> k == i || k == j)
    ensures Feed(REGISTER, INITIAL, x) == Feed(REGISTER, INITIAL, y) <==> (j - i) % 32767 == 0
  {
    RegisterIsLawful();
    UndetectedIffDifferenceVanishes(REGISTER, INITIAL, x, y);
    TwoOnesVanish(Difference(x, y), i, j);
  }

  /** Two flipped bits go unnoticed exactly when their distance is a multiple of 32767. */
  lemma TwoBitErrorUndetectedIff(a: seq<bv8>, b: seq<bv8>, i: nat, j: nat)
    requires |a| == |b| && i < j < 8 * |a|
    requires forall k :: 0 <= k < 8 * |a| ==> (Bits(a)[k] != Bits(b)[k] <==> k == i || k == j)
    ensures SerialCrc(a) == SerialCrc(b) <==> (j - i) % 32767 == 0
  {
    TwoBitsOff(Bits(a), Bits(b), i, j);
  }

  /** So every double-bit error of a payload the library can send is detected. */
  lemma TwoBitErrorIsDetected(a: seq<bv8>, b: seq<bv8>, i: nat, j: nat)
    requires |a| == |b| <= 1024 && i < j < 8 * |a|
    requires forall k :: 0 <= k < 8 * |a| ==> (Bits(a)[k] != Bits(b)[k] <==> k == i || k == j)
    ensures SerialCrc(a) != SerialCrc(b)
  {
    TwoBitErrorUndetectedIff(a, b, i, j);
  }

  // ---------- Parity ----------

  predicate Parity(r: bv16) {
    OddOnes(RegisterBits(r))
  }

  lemma CountDigit(v: bv16, n: nat)
    requires n > 0
    ensures CountOnes(Digits(Odd, Half, v, n))
         == (if Odd(v) then 1 else 0) + CountOnes(Digits(Odd, Half, Half(v), n - 1))
  {
    assert Digits(Odd, Half, v, n)[1..] == Digits(Odd, Half, Half(v), n - 1);
  }

  lemma PolynomialHighByte()
    ensures CountOnes(Digits(Odd, Half, 0x00A0, 8)) == 2
  {
    CountDigit(0x00A0, 8);
    CountDigit(0x0050, 7);
    CountDigit(0x0028, 6);
    CountDigit(0x0014, 5);
    CountDigit(0x000A, 4);
    CountDigit(0x0005, 3);
    CountDigit(0x0002, 2);
    CountDigit(0x0001, 1);
  }

  lemma PolynomialLowByte()
    ensures CountOnes(Digits(Odd, Half, 0xA001, 16)) == 1 + CountOnes(Digits(Odd, Half, 0x00A0, 8))
  {
    CountDigit(0xA001, 16);
    CountDigit(0x5000, 15);
    CountDigit(0x2800, 14);
    CountDigit(0x1400, 13);
    CountDigit(0x0A00, 12);
    CountDigit(0x0500, 11);
    CountDigit(0x0280, 10);
    CountDigit(0x0140, 9);
  }

  lemma PolynomialIsOdd()
    ensures Parity(0xA001)
  {
    PolynomialHighByte();
    PolynomialLowByte();
  }

  lemma ParityAdds(a: bv16, b: bv16, c: bv16)
    requires IsXor(a, b, c)
    ensures Parity(c) == (Parity(a) != Parity(b))
  {
    RegisterBitsAdd(a, b, c, 16);
    OddOnesOfDifference(RegisterBits(a), RegisterBits(b));
  }

  /** A shift keeps the parity of the register: a one that falls out brings in three. */
  lemma ShiftKeepsParity(r: bv16, stepped: bv16)
    requires stepped == BitStep(r)
    ensures Parity(stepped) == Parity(r)
  {
    RegisterShiftsAs(r, stepped);
    PolynomialIsOdd();
    ShiftKeepsOddOnes(RegisterBits(r), RegisterBits(stepped), RegisterBits(0xA001));
  }

  lemma {:induction false} DigitsOfZero(n: nat)
    ensures Digits(Odd, Half, 0, n) == Zeros(n)
    decreases n
  {
    if n > 0 {
      assert Half(0) == 0 && !Odd(0);
      DigitsOfZero(n - 1);
    }
  }

  lemma ParityOfInputs()
    ensures !Parity(0) && Parity(1)
  {
    DigitsOfZero(16);
    CountOnesOfZeros(16);
    DigitsOfZero(15);
    CountOnesOfZeros(15);
    CountDigit(1, 16);
  }

  /** Any change of an odd number of bits is detected. */
  lemma OddErrorIsDetected(a: seq<bv8>, b: seq<bv8>)
    requires |a| == |b|
    requires CountOnes(BitDifference(a, b)) % 2 == 1
    ensures SerialCrc(a) != SerialCrc(b)
  {
    forall x, y ensures Parity(REGISTER.add(x, y)) == (Parity(x) != Parity(y)) {
      ParityAdds(x, y, REGISTER.add(x, y));
    }
    forall x ensures Parity(REGISTER.step(x)) == Parity(x) {
      ShiftKeepsParity(x, REGISTER.step(x));
    }
    ParityOfInputs();
    FeedParity(REGISTER, Parity, 0, BitDifference(a, b));
    SameChecksumIff(a, b);
  }
}
