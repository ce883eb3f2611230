/**
 The payload checksum: CRC-16/MODBUS, polynomial 0x8005 fed least significant bit first (0xA001
 reflected), initial register 0xFFFF, no final inversion.

 The reference definition is the bit-serial register of section 6.2.2 of the MODBUS over Serial Line
 Specification and Implementation Guide V1.02. The library's table, the generator that printed it and
 the table-driven loop are proved equal to it.
 */
module Crc16 {
  import opened ShiftRegister

  const INITIAL: bv16 := 0xFFFF

  // ---------- Reference definition: the bit-serial register ----------

  /** One shift: the bit that falls out decides whether the polynomial is added. */
  function BitStep(r: bv16): bv16 {
    if r & 1 == 1 then (r >> 1) ^ 0xA001 else r >> 1
  }

  /** The shift undone. */
  function BitBack(r: bv16): bv16 {
    if r & 0x8000 != 0 then ((r ^ 0xA001) << 1) | 1 else r << 1
  }

  function Xor(a: bv16, b: bv16): bv16 {
    a ^ b
  }

  const REGISTER: Machine<bv16> := Machine(Xor, 0, 1, BitStep, BitBack)

  /** The `n` low bits of a number, least significant first. */
  function LowBits(x: nat, n: nat): (bits: seq<bool>)
    ensures |bits| == n
  {
    if n == 0 then [] else [x % 2 == 1] + LowBits(x / 2, n - 1)
  }

  function ByteBits(b: bv8): (bits: seq<bool>)
    ensures |bits| == 8
  {
    LowBits(b as int, 8)
  }

  /** The bits of a payload in the order the register absorbs them. */
  function Bits(data: seq<bv8>): (bits: seq<bool>)
    ensures |bits| == 8 * |data|
  {
    if data == [] then [] else Bits(data[..|data| - 1]) + ByteBits(data[|data| - 1])
  }

  /** The checksum of a payload, bit by bit. */
  function SerialCrc(data: seq<bv8>): bv16 {
    Feed(REGISTER, INITIAL, Bits(data))
  }

  // ---------- One shift is linear and invertible ----------

  lemma LowBit(a: bv16, b: bv16)
    ensures a & 1 == 0 || a & 1 == 1
    ensures (a ^ b) & 1 == (a & 1) ^ (b & 1)
    ensures (a ^ b) >> 1 == (a >> 1) ^ (b >> 1)
  {
  }

  lemma XorConstant(a: bv16, b: bv16, c: bv16)
    ensures (a ^ c) ^ (b ^ c) == a ^ b
    ensures (a ^ c) ^ b == (a ^ b) ^ c
    ensures a ^ (b ^ c) == (a ^ b) ^ c
  {
  }

  // The results are parameters: the bit-vector reasoning stays inside this lemma.
  lemma BitStepLinear(a: bv16, b: bv16, c: bv16, a': bv16, b': bv16, c': bv16)
    requires c == Xor(a, b)
    requires a' == BitStep(a) && b' == BitStep(b) && c' == BitStep(c)
    ensures c' == Xor(a', b')
  {
    LowBit(a, b);
    LowBit(b, a);
    XorConstant(a >> 1, b >> 1, 0xA001);
  }

  lemma BackFromTop(r: bv16)
    requires r & 0x8000 != 0
    ensures (((r ^ 0xA001) << 1) | 1) & 1 == 1
    ensures ((((r ^ 0xA001) << 1) | 1) >> 1) ^ 0xA001 == r
  {
  }

  lemma BackFromLow(r: bv16)
    requires r & 0x8000 == 0
    ensures (r << 1) & 1 == 0 && (r << 1) >> 1 == r
  {
  }

  lemma BackUndoesStep(r: bv16, stepped: bv16, back: bv16)
    requires stepped == BitStep(r) && back == BitBack(stepped)
    ensures back == r
  {
  }

  lemma StepUndoesBack(r: bv16, back: bv16, stepped: bv16)
    requires back == BitBack(r) && stepped == BitStep(back)
    ensures stepped == r
  {
    if r & 0x8000 != 0 { BackFromTop(r); } else { BackFromLow(r); }
  }

  lemma XorAssociates(a: bv16, b: bv16, c: bv16)
    ensures Xor(Xor(a, b), c) == Xor(a, Xor(b, c))
  {
  }

  lemma XorLaws(a: bv16, b: bv16)
    ensures a ^ b == b ^ a
    ensures a ^ 0 == a && a ^ a == 0
  {
  }

  lemma XorRegroups(x: bv16, y: bv16, z: bv16)
    ensures Regroups(REGISTER, x, y, z)
  {
    XorAssociates(x, y, z);
  }

  lemma XorCommutes(x: bv16, y: bv16)
    ensures Commutes(REGISTER, x, y)
  {
    XorLaws(x, y);
  }

  lemma XorCancels(x: bv16)
    ensures SelfInverse(REGISTER, x)
  {
    XorLaws(x, x);
  }

  lemma StepIsLinear(x: bv16, y: bv16)
    ensures StepDistributes(REGISTER, x, y)
  {
    var z := REGISTER.add(x, y);
    BitStepLinear(x, y, z, REGISTER.step(x), REGISTER.step(y), REGISTER.step(z));
  }

  lemma StepIsInvertible(x: bv16)
    ensures StepInverts(REGISTER, x)
  {
    BackUndoesStep(x, REGISTER.step(x), REGISTER.back(REGISTER.step(x)));
    StepUndoesBack(x, REGISTER.back(x), REGISTER.step(REGISTER.back(x)));
  }

  lemma RegisterIsLawful()
    ensures Lawful(REGISTER)
  {
    forall x, y, z ensures Regroups(REGISTER, x, y, z) {
      XorRegroups(x, y, z);
    }
    forall x, y ensures Commutes(REGISTER, x, y) {
      XorCommutes(x, y);
    }
    forall x ensures SelfInverse(REGISTER, x) {
      XorCancels(x);
    }
    forall x, y ensures StepDistributes(REGISTER, x, y) {
      StepIsLinear(x, y);
    }
    forall x ensures StepInverts(REGISTER, x) {
      StepIsInvertible(x);
    }
  }

  // ---------- Bytes as register values ----------

  function PackInt(bits: seq<bool>): nat {
    if bits == [] then 0 else (if bits[0] then 1 else 0) + 2 * PackInt(bits[1..])
  }

  function Pow2(n: nat): nat {
    if n == 0 then 1 else 2 * Pow2(n - 1)
  }

  lemma {:induction false} PackIntBound(bits: seq<bool>, n: nat)
    requires |bits| <= n
    ensures PackInt(bits) < Pow2(n)
    decreases n
  {
    if bits != [] {
      PackIntBound(bits[1..], n - 1);
    } else if n > 0 {
      PackIntBound([], n - 1);
    }
  }

  lemma DoubleRegister(v: bv16)
    requires v as int < 0x8000
    ensures v & 0x8000 == 0
    ensures (0 ^ (v << 1)) as int == 2 * (v as int)
    ensures (1 ^ (v << 1)) as int == 2 * (v as int) + 1
  {
  }

  lemma BackDoubles(v: bv16, back: bv16)
    requires v as int < 0x8000 && back == BitBack(v)
    ensures back == v << 1
  {
    DoubleRegister(v);
  }

  lemma PackOne(v: bv16, back: bv16, packed: bv16)
    requires v as int < 0x8000 && back == v << 1 && packed == Xor(1, back)
    ensures packed as int == 2 * (v as int) + 1
  {
    DoubleRegister(v);
  }

  lemma PackZero(v: bv16, back: bv16, packed: bv16)
    requires v as int < 0x8000 && back == v << 1 && packed == Xor(0, back)
    ensures packed as int == 2 * (v as int)
  {
    DoubleRegister(v);
  }

  lemma PackStep(bit: bool, v: bv16, packed: bv16)
    requires v as int < 0x8000
    requires packed == REGISTER.add(Input(REGISTER, bit), REGISTER.back(v))
    ensures packed as int == 2 * (v as int) + (if bit then 1 else 0)
  {
    BackDoubles(v, REGISTER.back(v));
    if bit {
      PackOne(v, REGISTER.back(v), packed);
    } else {
      PackZero(v, REGISTER.back(v), packed);
    }
  }

  lemma FifteenBits()
    ensures Pow2(15) == 0x8000
  {
    assert Pow2(8) == 256;
  }

  lemma PackIntStep(bits: seq<bool>, v: bv16, packed: bv16)
    requires bits != [] && v as int == PackInt(bits[1..]) < 0x8000
    requires packed == REGISTER.add(Input(REGISTER, bits[0]), REGISTER.back(v))
    ensures packed as int == PackInt(bits)
  {
    PackStep(bits[0], v, packed);
  }

  /** Up to sixteen bits pack into the register as the number they spell. */
  lemma {:induction false} PackIsInt(bits: seq<bool>, packed: bv16)
    requires |bits| <= 16
    requires packed == Pack(REGISTER, bits)
    ensures packed as int == PackInt(bits)
    decreases |bits|
  {
    if bits != [] {
      var v := Pack(REGISTER, bits[1..]);
      PackIsInt(bits[1..], v);
      PackIntBound(bits[1..], 15);
      FifteenBits();
      PackIntStep(bits, v, packed);
    }
  }

  lemma {:induction false} LowBitsSpell(x: nat, n: nat)
    requires x < Pow2(n)
    ensures PackInt(LowBits(x, n)) == x
    decreases n
  {
    if n > 0 {
      LowBitsSpell(x / 2, n - 1);
      assert LowBits(x, n)[1..] == LowBits(x / 2, n - 1);
    }
  }

  lemma ByteSpells(b: bv8)
    ensures PackInt(ByteBits(b)) == b as int
  {
    assert Pow2(8) == 256;
    LowBitsSpell(b as int, 8);
  }

  lemma SameNumber(r: bv16, b: bv8)
    requires r as int == b as int
    ensures r == b as bv16
  {
    assert (r as int) as bv16 == r;
  }

  lemma PackOfByte(b: bv8)
    ensures Pack(REGISTER, ByteBits(b)) == b as bv16
  {
    ByteSpells(b);
    PackIsInt(ByteBits(b), Pack(REGISTER, ByteBits(b)));
    SameNumber(Pack(REGISTER, ByteBits(b)), b);
  }

  /** The guide's wording: add the byte to the low half of the register, then shift eight times. */
  lemma ByteAtOnce(r: bv16, b: bv8)
    ensures Feed(REGISTER, r, ByteBits(b)) == Shifts(REGISTER, Xor(r, b as bv16), 8)
  {
    RegisterIsLawful();
    FeedIsPackThenShift(REGISTER, r, ByteBits(b));
    PackOfByte(b);
  }

  // ---------- The table ----------

  /** The 256 constants, one line of the source a row. */
  function TableRow(row: nat): (line: seq<bv16>)
    requires row < 32
    ensures |line| == 8
  {
    match row
    case 0 => [0x0000, 0xc0c1, 0xc181, 0x0140, 0xc301, 0x03c0, 0x0280, 0xc241]
    case 1 => [0xc601, 0x06c0, 0x0780, 0xc741, 0x0500, 0xc5c1, 0xc481, 0x0440]
    case 2 => [0xcc01, 0x0cc0, 0x0d80, 0xcd41, 0x0f00, 0xcfc1, 0xce81, 0x0e40]
    case 3 => [0x0a00, 0xcac1, 0xcb81, 0x0b40, 0xc901, 0x09c0, 0x0880, 0xc841]
    case 4 => [0xd801, 0x18c0, 0x1980, 0xd941, 0x1b00, 0xdbc1, 0xda81, 0x1a40]
    case 5 => [0x1e00, 0xdec1, 0xdf81, 0x1f40, 0xdd01, 0x1dc0, 0x1c80, 0xdc41]
    case 6 => [0x1400, 0xd4c1, 0xd581, 0x1540, 0xd701, 0x17c0, 0x1680, 0xd641]
    case 7 => [0xd201, 0x12c0, 0x1380, 0xd341, 0x1100, 0xd1c1, 0xd081, 0x1040]
    case 8 => [0xf001, 0x30c0, 0x3180, 0xf141, 0x3300, 0xf3c1, 0xf281, 0x3240]
    case 9 => [0x3600, 0xf6c1, 0xf781, 0x3740, 0xf501, 0x35c0, 0x3480, 0xf441]
    case 10 => [0x3c00, 0xfcc1, 0xfd81, 0x3d40, 0xff01, 0x3fc0, 0x3e80, 0xfe41]
    case 11 => [0xfa01, 0x3ac0, 0x3b80, 0xfb41, 0x3900, 0xf9c1, 0xf881, 0x3840]
    case 12 => [0x2800, 0xe8c1, 0xe981, 0x2940, 0xeb01, 0x2bc0, 0x2a80, 0xea41]
    case 13 => [0xee01, 0x2ec0, 0x2f80, 0xef41, 0x2d00, 0xedc1, 0xec81, 0x2c40]
    case 14 => [0xe401, 0x24c0, 0x2580, 0xe541, 0x2700, 0xe7c1, 0xe681, 0x2640]
    case 15 => [0x2200, 0xe2c1, 0xe381, 0x2340, 0xe101, 0x21c0, 0x2080, 0xe041]
    case 16 => [0xa001, 0x60c0, 0x6180, 0xa141, 0x6300, 0xa3c1, 0xa281, 0x6240]
    case 17 => [0x6600, 0xa6c1, 0xa781, 0x6740, 0xa501, 0x65c0, 0x6480, 0xa441]
    case 18 => [0x6c00, 0xacc1, 0xad81, 0x6d40, 0xaf01, 0x6fc0, 0x6e80, 0xae41]
    case 19 => [0xaa01, 0x6ac0, 0x6b80, 0xab41, 0x6900, 0xa9c1, 0xa881, 0x6840]
    case 20 => [0x7800, 0xb8c1, 0xb981, 0x7940, 0xbb01, 0x7bc0, 0x7a80, 0xba41]
    case 21 => [0xbe01, 0x7ec0, 0x7f80, 0xbf41, 0x7d00, 0xbdc1, 0xbc81, 0x7c40]
    case 22 => [0xb401, 0x74c0, 0x7580, 0xb541, 0x7700, 0xb7c1, 0xb681, 0x7640]
    case 23 => [0x7200, 0xb2c1, 0xb381, 0x7340, 0xb101, 0x71c0, 0x7080, 0xb041]
    case 24 => [0x5000, 0x90c1, 0x9181, 0x5140, 0x9301, 0x53c0, 0x5280, 0x9241]
    case 25 => [0x9601, 0x56c0, 0x5780, 0x9741, 0x5500, 0x95c1, 0x9481, 0x5440]
    case 26 => [0x9c01, 0x5cc0, 0x5d80, 0x9d41, 0x5f00, 0x9fc1, 0x9e81, 0x5e40]
    case 27 => [0x5a00, 0x9ac1, 0x9b81, 0x5b40, 0x9901, 0x59c0, 0x5880, 0x9841]
    case 28 => [0x8801, 0x48c0, 0x4980, 0x8941, 0x4b00, 0x8bc1, 0x8a81, 0x4a40]
    case 29 => [0x4e00, 0x8ec1, 0x8f81, 0x4f40, 0x8d01, 0x4dc0, 0x4c80, 0x8c41]
    case 30 => [0x4400, 0x84c1, 0x8581, 0x4540, 0x8701, 0x47c0, 0x4680, 0x8641]
    case _ => [0x8201, 0x42c0, 0x4380, 0x8341, 0x4100, 0x81c1, 0x8081, 0x4040]
  }

  const CRC16_TABLE: seq<bv16> := seq(256, i requires 0 <= i < 256 => TableRow(i / 8)[i % 8])

  /** Eight shifts, written out. */
  function ByteSteps(r: bv16): bv16 {
    BitStep(BitStep(BitStep(BitStep(BitStep(BitStep(BitStep(BitStep(r))))))))
  }

  lemma EightShifts(r: bv16)
    ensures Shifts(REGISTER, r, 8) == ByteSteps(r)
  {
  }

  lemma RowsFrom0(row: nat, column: nat, x: bv16)
    requires row < 4 && column < 8 && x as int == 8 * row + column
    ensures TableRow(row)[column] == ByteSteps(x)
  {
    match row case 0 => case 1 => case 2 => case _ =>
  }

  lemma RowsFrom4(row: nat, column: nat, x: bv16)
    requires 4 <= row < 8 && column < 8 && x as int == 8 * row + column
    ensures TableRow(row)[column] == ByteSteps(x)
  {
    match row case 4 => case 5 => case 6 => case _ =>
  }

  lemma RowsFrom8(row: nat, column: nat, x: bv16)
    requires 8 <= row < 12 && column < 8 && x as int == 8 * row + column
    ensures TableRow(row)[column] == ByteSteps(x)
  {
    match row case 8 => case 9 => case 10 => case _ =>
  }

  lemma RowsFrom12(row: nat, column: nat, x: bv16)
    requires 12 <= row < 16 && column < 8 && x as int == 8 * row + column
    ensures TableRow(row)[column] == ByteSteps(x)
  {
    match row case 12 => case 13 => case 14 => case _ =>
  }

  lemma RowsFrom16(row: nat, column: nat, x: bv16)
    requires 16 <= row < 20 && column < 8 && x as int == 8 * row + column
    ensures TableRow(row)[column] == ByteSteps(x)
  {
    match row case 16 => case 17 => case 18 => case _ =>
  }

  lemma RowsFrom20(row: nat, column: nat, x: bv16)
    requires 20 <= row < 24 && column < 8 && x as int == 8 * row + column
    ensures TableRow(row)[column] == ByteSteps(x)
  {
    match row case 20 => case 21 => case 22 => case _ =>
  }

  lemma RowsFrom24(row: nat, column: nat, x: bv16)
    requires 24 <= row < 28 && column < 8 && x as int == 8 * row + column
    ensures TableRow(row)[column] == ByteSteps(x)
  {
    match row case 24 => case 25 => case 26 => case _ =>
  }

  lemma RowsFrom28(row: nat, column: nat, x: bv16)
    requires 28 <= row < 32 && column < 8 && x as int == 8 * row + column
    ensures TableRow(row)[column] == ByteSteps(x)
  {
    match row case 28 => case 29 => case 30 => case _ =>
  }

  lemma RowIsBitSerial(row: nat, column: nat, x: bv16)
    requires row < 32 && column < 8 && x as int == 8 * row + column
    ensures TableRow(row)[column] == Shifts(REGISTER, x, 8)
  {
    EightShifts(x);
    if row < 4 { RowsFrom0(row, column, x); }
    else if row < 8 { RowsFrom4(row, column, x); }
    else if row < 12 { RowsFrom8(row, column, x); }
    else if row < 16 { RowsFrom12(row, column, x); }
    else if row < 20 { RowsFrom16(row, column, x); }
    else if row < 24 { RowsFrom20(row, column, x); }
    else if row < 28 { RowsFrom24(row, column, x); }
    else { RowsFrom28(row, column, x); }
  }

  /** Every constant of the table is eight bit-serial shifts of its own index. */
  lemma TableIsBitSerial(x: bv16)
    requires x < 256
    ensures CRC16_TABLE[x as int] == Shifts(REGISTER, x, 8)
  {
    RowIsBitSerial(x as int / 8, x as int % 8, x);
  }

  lemma OneShift(r: bv16, shifted: bv16, n: nat)
    requires n > 0 && shifted == BitStep(r)
    ensures Shifts(REGISTER, r, n) == Shifts(REGISTER, shifted, n - 1)
  {
    assert shifted == REGISTER.step(r);
  }

  /** The generator's inner loop. */
  method ShiftByte(i: bv16) returns (crc: bv16)
    ensures crc == Shifts(REGISTER, i, 8)
  {
    crc := i;
    for j := 0 to 8
      invariant Shifts(REGISTER, crc, 8 - j) == Shifts(REGISTER, i, 8)
    {
      var shifted := if crc & 1 == 1 then (crc >> 1) ^ 0xA001 else crc >> 1;
      OneShift(crc, shifted, 8 - j);
      crc := shifted;
    }
  }

  /** A byte as a register value. */
  function AsRegister(k: nat): bv16
    requires k < 256
  {
    k as bv16
  }

  /** The generator the constants were printed from. */
  method GenerateTable() returns (table: array<bv16>)
    ensures fresh(table) && table.Length == 256
    ensures forall k :: 0 <= k < 256 ==> table[k] == Shifts(REGISTER, AsRegister(k), 8)
  {
    table := new bv16[256];
    for i := 0 to 256
      invariant forall k :: 0 <= k < i ==> table[k] == Shifts(REGISTER, AsRegister(k), 8)
    {
      table[i] := ShiftByte(AsRegister(i));
    }
  }

  lemma AsRegisterOfInt(x: bv16)
    requires x < 256
    ensures AsRegister(x as int) == x
  {
    assert (x as int) as bv16 == x;
  }

  /** What it prints at `x` is the constant of the table. */
  lemma GeneratedIsTable(x: bv16)
    requires x < 256
    ensures Shifts(REGISTER, AsRegister(x as int), 8) == CRC16_TABLE[x as int]
  {
    AsRegisterOfInt(x);
    TableIsBitSerial(x);
  }

  // ---------- The table-driven loop ----------

  lemma HighByteShiftsOut(r: bv16)
    ensures ByteSteps(r & 0xFF00) == r >> 8
  {
    var h := r & 0xFF00;
    assert BitStep(h) == h >> 1;
    assert BitStep(h >> 1) == h >> 2;
    assert BitStep(h >> 2) == h >> 3;
    assert BitStep(h >> 3) == h >> 4;
    assert BitStep(h >> 4) == h >> 5;
    assert BitStep(h >> 5) == h >> 6;
    assert BitStep(h >> 6) == h >> 7;
    assert BitStep(h >> 7) == h >> 8;
  }

  lemma HighByteShifts(r: bv16)
    ensures Shifts(REGISTER, r & 0xFF00, 8) == r >> 8
  {
    EightShifts(r & 0xFF00);
    HighByteShiftsOut(r);
  }

  lemma Halves(r: bv16, d: bv16)
    requires d & 0xFF00 == 0
    ensures Xor(r, d) == Xor(r & 0xFF00, (r ^ d) & 0xFF)
  {
  }

  /** One lookup does the work of eight shifts. */
  lemma TableStep(r: bv16, b: bv8, index: bv16, next: bv16)
    requires index == (r ^ (b as bv16)) & 0xFF
    requires index < 256 && next == (r >> 8) ^ CRC16_TABLE[index as int]
    ensures next == Feed(REGISTER, r, ByteBits(b))
  {
    RegisterIsLawful();
    ByteAtOnce(r, b);
    Halves(r, b as bv16);
    ShiftsLinear(REGISTER, r & 0xFF00, index, 8);
    HighByteShifts(r);
    TableIsBitSerial(index);
  }

  lemma BitsOfPrefix(data: seq<bv8>, i: nat)
    requires i < |data|
    ensures Feed(REGISTER, INITIAL, Bits(data[..i + 1]))
         == Feed(REGISTER, Feed(REGISTER, INITIAL, Bits(data[..i])), ByteBits(data[i]))
  {
    assert data[..i + 1][..i] == data[..i];
    FeedAppend(REGISTER, INITIAL, Bits(data[..i]), ByteBits(data[i]));
  }

  /** The body of the loop. */
  method AbsorbByte(crc: bv16, b: bv8) returns (next: bv16)
    ensures next == Feed(REGISTER, crc, ByteBits(b))
  {
    var index := (crc ^ (b as bv16)) & 0xFF;
    next := (crc >> 8) ^ CRC16_TABLE[index as int];
    TableStep(crc, b, index, next);
  }

  /** The table-driven loop computes the bit-serial checksum. */
  method Crc16ModbusFast(data: seq<bv8>) returns (crc: bv16)
    ensures crc == SerialCrc(data)
  {
    crc := 0xFFFF;
    for i := 0 to |data|
      invariant crc == Feed(REGISTER, INITIAL, Bits(data[..i]))
    {
      BitsOfPrefix(data, i);
      crc := AbsorbByte(crc, data[i]);
    }
    assert data[..|data|] == data;
  }

  /** A packet without a payload carries the initial register. */
  lemma EmptyPayload()
    ensures SerialCrc([]) == 0xFFFF
  {
    assert Bits([]) == [];
  }
}
