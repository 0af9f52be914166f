/** The key slots of memtier_benchmark/cluster_client.cpp: a table-driven CRC16 and the slot number of the
    Redis Cluster specification, "Key distribution model". */
module Crc16 {

  // ---------------------------------------------------------------- the bit-by-bit definition

  /** The polynomial 0x1021. */
  const POLYNOMIAL: bv16 := 0x1021

  function Xor(x: bv16, y: bv16): bv16 { x ^ y }

  /** A byte in the high half, and the low byte. */
  function Up(x: bv16): bv16 { x << 8 }

  function Low(x: bv16): bv16 { x & 0xff }

  /** One bit: shift left, and subtract the polynomial when a one falls out. */
  function Shift(x: bv16): bv16 { if x & 0x8000 != 0 then (x << 1) ^ POLYNOMIAL else x << 1 }

  function Shift8(x: bv16): bv16 { Shift(Shift(Shift(Shift(Shift(Shift(Shift(Shift(x)))))))) }

  /** The byte enters at the top and eight bits are shifted out. */
  function NextBitwise(crc: bv16, byte: bv8): bv16 { Shift8(Xor(crc, Up(byte as bv16))) }

  function CrcBitwise(bytes: seq<bv8>): bv16 {
    if bytes == [] then 0 else NextBitwise(CrcBitwise(bytes[..|bytes| - 1]), bytes[|bytes| - 1])
  }

  // ---------------------------------------------------------------- shifting is linear over xor

  lemma ShiftOne(x: bv16)
    requires x & 0x8000 != 0
    ensures Shift(x) == (x << 1) ^ POLYNOMIAL
  {
  }

  lemma ShiftZero(x: bv16)
    requires x & 0x8000 == 0
    ensures Shift(x) == x << 1
  {
  }

  lemma BothOnesBits(x: bv16, y: bv16)
    requires x & 0x8000 != 0 && y & 0x8000 != 0
    ensures Xor(x, y) & 0x8000 == 0 && Xor(x, y) << 1 == Xor((x << 1) ^ POLYNOMIAL, (y << 1) ^ POLYNOMIAL)
  {
  }

  lemma FirstOneBits(x: bv16, y: bv16)
    requires x & 0x8000 != 0 && y & 0x8000 == 0
    ensures Xor(x, y) & 0x8000 != 0 && (Xor(x, y) << 1) ^ POLYNOMIAL == Xor((x << 1) ^ POLYNOMIAL, y << 1)
  {
  }

  lemma NoOnesBit(x: bv16, y: bv16)
    requires x & 0x8000 == 0 && y & 0x8000 == 0
    ensures Xor(x, y) & 0x8000 == 0
  {
  }

  lemma XorShiftsBits(x: bv16, y: bv16)
    ensures (x ^ y) << 1 == (x << 1) ^ (y << 1)
  {
  }

  lemma XorIs(x: bv16, y: bv16)
    ensures Xor(x, y) == x ^ y
  {
  }

  lemma XorShifts(x: bv16, y: bv16)
    ensures Xor(x, y) << 1 == Xor(x << 1, y << 1)
  {
    hide Xor;
    XorShiftsBits(x, y);
    XorIs(x, y);
    XorIs(x << 1, y << 1);
  }

  lemma BothOnes(x: bv16, y: bv16)
    requires x & 0x8000 != 0 && y & 0x8000 != 0
    ensures Shift(Xor(x, y)) == Xor(Shift(x), Shift(y))
  {
    hide Shift, Xor;
    BothOnesBits(x, y);
    ShiftOne(x);
    ShiftOne(y);
    ShiftZero(Xor(x, y));
  }

  lemma FirstOne(x: bv16, y: bv16)
    requires x & 0x8000 != 0 && y & 0x8000 == 0
    ensures Shift(Xor(x, y)) == Xor(Shift(x), Shift(y))
  {
    hide Shift, Xor;
    FirstOneBits(x, y);
    ShiftOne(x);
    ShiftZero(y);
    ShiftOne(Xor(x, y));
  }

  lemma NoOnes(x: bv16, y: bv16)
    requires x & 0x8000 == 0 && y & 0x8000 == 0
    ensures Shift(Xor(x, y)) == Xor(Shift(x), Shift(y))
  {
    hide Shift, Xor;
    NoOnesBit(x, y);
    XorShifts(x, y);
    ShiftZero(x);
    ShiftZero(y);
    ShiftZero(Xor(x, y));
  }

  lemma XorCommutes(x: bv16, y: bv16)
    ensures Xor(x, y) == Xor(y, x)
  {
  }

  lemma ShiftIsLinear(x: bv16, y: bv16)
    ensures Shift(Xor(x, y)) == Xor(Shift(x), Shift(y))
  {
    hide Shift, Xor;
    if x & 0x8000 != 0 {
      if y & 0x8000 != 0 { BothOnes(x, y); } else { FirstOne(x, y); }
    } else if y & 0x8000 != 0 {
      FirstOne(y, x);
      XorCommutes(x, y);
      XorCommutes(Shift(x), Shift(y));
    } else {
      NoOnes(x, y);
    }
  }

  lemma Shift8IsLinear(x: bv16, y: bv16)
    ensures Shift8(Xor(x, y)) == Xor(Shift8(x), Shift8(y))
  {
    hide Shift, Xor;
    ShiftIsLinear(x, y);
    var x1, y1 := Shift(x), Shift(y);
    ShiftIsLinear(x1, y1);
    var x2, y2 := Shift(x1), Shift(y1);
    ShiftIsLinear(x2, y2);
    var x3, y3 := Shift(x2), Shift(y2);
    ShiftIsLinear(x3, y3);
    var x4, y4 := Shift(x3), Shift(y3);
    ShiftIsLinear(x4, y4);
    var x5, y5 := Shift(x4), Shift(y4);
    ShiftIsLinear(x5, y5);
    var x6, y6 := Shift(x5), Shift(y5);
    ShiftIsLinear(x6, y6);
    ShiftIsLinear(Shift(x6), Shift(y6));
  }

  /** Nothing falls out of a low byte in eight shifts. */
  lemma LowByte(x: bv16)
    requires x & 0xff00 == 0
    ensures Shift8(x) == Up(x)
  {
  }

  // ---------------------------------------------------------------- the table

  function Pick(k: bv16, a: bv16, b: bv16, c: bv16, d: bv16, e: bv16, f: bv16, g: bv16, h: bv16): bv16 {
    if k == 0 then a else if k == 1 then b else if k == 2 then c else if k == 3 then d
    else if k == 4 then e else if k == 5 then f else if k == 6 then g else h
  }

  /** Entry `k` of row `r` of `crc16tab`, which has eight entries a row; a quarter of the table each. */
  function First(r: bv16, k: bv16): bv16 {
    if r == 0 then Pick(k, 0x0000, 0x1021, 0x2042, 0x3063, 0x4084, 0x50a5, 0x60c6, 0x70e7)
    else if r == 1 then Pick(k, 0x8108, 0x9129, 0xa14a, 0xb16b, 0xc18c, 0xd1ad, 0xe1ce, 0xf1ef)
    else if r == 2 then Pick(k, 0x1231, 0x0210, 0x3273, 0x2252, 0x52b5, 0x4294, 0x72f7, 0x62d6)
    else if r == 3 then Pick(k, 0x9339, 0x8318, 0xb37b, 0xa35a, 0xd3bd, 0xc39c, 0xf3ff, 0xe3de)
    else if r == 4 then Pick(k, 0x2462, 0x3443, 0x0420, 0x1401, 0x64e6, 0x74c7, 0x44a4, 0x5485)
    else if r == 5 then Pick(k, 0xa56a, 0xb54b, 0x8528, 0x9509, 0xe5ee, 0xf5cf, 0xc5ac, 0xd58d)
    else if r == 6 then Pick(k, 0x3653, 0x2672, 0x1611, 0x0630, 0x76d7, 0x66f6, 0x5695, 0x46b4)
    else Pick(k, 0xb75b, 0xa77a, 0x9719, 0x8738, 0xf7df, 0xe7fe, 0xd79d, 0xc7bc)
  }

  function Second(r: bv16, k: bv16): bv16 {
    if r == 8 then Pick(k, 0x48c4, 0x58e5, 0x6886, 0x78a7, 0x0840, 0x1861, 0x2802, 0x3823)
    else if r == 9 then Pick(k, 0xc9cc, 0xd9ed, 0xe98e, 0xf9af, 0x8948, 0x9969, 0xa90a, 0xb92b)
    else if r == 10 then Pick(k, 0x5af5, 0x4ad4, 0x7ab7, 0x6a96, 0x1a71, 0x0a50, 0x3a33, 0x2a12)
    else if r == 11 then Pick(k, 0xdbfd, 0xcbdc, 0xfbbf, 0xeb9e, 0x9b79, 0x8b58, 0xbb3b, 0xab1a)
    else if r == 12 then Pick(k, 0x6ca6, 0x7c87, 0x4ce4, 0x5cc5, 0x2c22, 0x3c03, 0x0c60, 0x1c41)
    else if r == 13 then Pick(k, 0xedae, 0xfd8f, 0xcdec, 0xddcd, 0xad2a, 0xbd0b, 0x8d68, 0x9d49)
    else if r == 14 then Pick(k, 0x7e97, 0x6eb6, 0x5ed5, 0x4ef4, 0x3e13, 0x2e32, 0x1e51, 0x0e70)
    else Pick(k, 0xff9f, 0xefbe, 0xdfdd, 0xcffc, 0xbf1b, 0xaf3a, 0x9f59, 0x8f78)
  }

  function Third(r: bv16, k: bv16): bv16 {
    if r == 16 then Pick(k, 0x9188, 0x81a9, 0xb1ca, 0xa1eb, 0xd10c, 0xc12d, 0xf14e, 0xe16f)
    else if r == 17 then Pick(k, 0x1080, 0x00a1, 0x30c2, 0x20e3, 0x5004, 0x4025, 0x7046, 0x6067)
    else if r == 18 then Pick(k, 0x83b9, 0x9398, 0xa3fb, 0xb3da, 0xc33d, 0xd31c, 0xe37f, 0xf35e)
    else if r == 19 then Pick(k, 0x02b1, 0x1290, 0x22f3, 0x32d2, 0x4235, 0x5214, 0x6277, 0x7256)
    else if r == 20 then Pick(k, 0xb5ea, 0xa5cb, 0x95a8, 0x8589, 0xf56e, 0xe54f, 0xd52c, 0xc50d)
    else if r == 21 then Pick(k, 0x34e2, 0x24c3, 0x14a0, 0x0481, 0x7466, 0x6447, 0x5424, 0x4405)
    else if r == 22 then Pick(k, 0xa7db, 0xb7fa, 0x8799, 0x97b8, 0xe75f, 0xf77e, 0xc71d, 0xd73c)
    else Pick(k, 0x26d3, 0x36f2, 0x0691, 0x16b0, 0x6657, 0x7676, 0x4615, 0x5634)
  }

  function Last(r: bv16, k: bv16): bv16 {
    if r == 24 then Pick(k, 0xd94c, 0xc96d, 0xf90e, 0xe92f, 0x99c8, 0x89e9, 0xb98a, 0xa9ab)
    else if r == 25 then Pick(k, 0x5844, 0x4865, 0x7806, 0x6827, 0x18c0, 0x08e1, 0x3882, 0x28a3)
    else if r == 26 then Pick(k, 0xcb7d, 0xdb5c, 0xeb3f, 0xfb1e, 0x8bf9, 0x9bd8, 0xabbb, 0xbb9a)
    else if r == 27 then Pick(k, 0x4a75, 0x5a54, 0x6a37, 0x7a16, 0x0af1, 0x1ad0, 0x2ab3, 0x3a92)
    else if r == 28 then Pick(k, 0xfd2e, 0xed0f, 0xdd6c, 0xcd4d, 0xbdaa, 0xad8b, 0x9de8, 0x8dc9)
    else if r == 29 then Pick(k, 0x7c26, 0x6c07, 0x5c64, 0x4c45, 0x3ca2, 0x2c83, 0x1ce0, 0x0cc1)
    else if r == 30 then Pick(k, 0xef1f, 0xff3e, 0xcf5d, 0xdf7c, 0xaf9b, 0xbfba, 0x8fd9, 0x9ff8)
    else Pick(k, 0x6e17, 0x7e36, 0x4e55, 0x5e74, 0x2e93, 0x3eb2, 0x0ed1, 0x1ef0)
  }

  function Row(r: bv16, k: bv16): bv16
    requires r < 32 && k < 8
  {
    if r < 8 then First(r, k) else if r < 16 then Second(r, k) else if r < 24 then Third(r, k) else Last(r, k)
  }

  function Table(i: bv16): bv16
    requires i < 256
  {
    Row(i >> 3, i & 7)
  }

  lemma FirstIs(r: bv16, k: bv16)
    requires r < 8 && k < 8
    ensures First(r, k) == Shift8((8 * r + k) << 8)
  {
  }

  lemma SecondIs(r: bv16, k: bv16)
    requires 8 <= r < 16 && k < 8
    ensures Second(r, k) == Shift8((8 * r + k) << 8)
  {
  }

  lemma ThirdIs(r: bv16, k: bv16)
    requires 16 <= r < 24 && k < 8
    ensures Third(r, k) == Shift8((8 * r + k) << 8)
  {
  }

  lemma LastIs(r: bv16, k: bv16)
    requires 24 <= r < 32 && k < 8
    ensures Last(r, k) == Shift8((8 * r + k) << 8)
  {
  }

  /** Entry `i` is what eight shifts make of `i` in the high byte. */
  lemma TableIs(i: bv16)
    requires i < 256
    ensures Table(i) == Shift8(Up(i))
  {
    hide First, Second, Third, Last, Shift8;
    var r, k := i >> 3, i & 7;
    assert r < 32 && k < 8 && i == 8 * r + k;
    if r < 8 { FirstIs(r, k); } else if r < 16 { SecondIs(r, k); } else if r < 24 { ThirdIs(r, k); } else {
      LastIs(r, k);
    }
  }

  // ---------------------------------------------------------------- the table-driven loop

  function Index(crc: bv16, byte: bv8): (i: bv16)
    ensures i < 256
  {
    ((crc >> 8) ^ (byte as bv16)) & 0xff
  }

  function NextByTable(crc: bv16, byte: bv8): bv16 { Xor(Up(crc), Table(Index(crc, byte))) }

  lemma SplitBytes(crc: bv16, byte: bv8)
    ensures Xor(crc, Up(byte as bv16)) == Xor(Low(crc), Up(Index(crc, byte)))
  {
  }

  lemma LowGoesUp(crc: bv16)
    ensures Shift8(Low(crc)) == Up(crc)
  {
    LowByte(Low(crc));
    assert Up(Low(crc)) == Up(crc);
  }

  /** One table look-up does the work of eight shifts. */
  lemma TableStepIsBitwise(crc: bv16, byte: bv8)
    ensures NextByTable(crc, byte) == NextBitwise(crc, byte)
  {
    hide Table, Shift8, Xor, Index, Up, Low;
    SplitBytes(crc, byte);
    var i, low := Index(crc, byte), Low(crc);
    Shift8IsLinear(low, Up(i));
    TableIs(i);
    LowGoesUp(crc);
  }

  /** `crc16` */
  method Crc(buf: seq<bv8>) returns (crc: bv16)
    ensures crc == CrcBitwise(buf)
  {
    hide NextByTable, NextBitwise;
    crc := 0;
    var counter := 0;
    while counter < |buf|
      invariant counter <= |buf| && crc == CrcBitwise(buf[..counter])
    {
      TableStepIsBitwise(crc, buf[counter]);
      var more := buf[..counter + 1];
      assert more[..|more| - 1] == buf[..counter];
      crc := NextByTable(crc, buf[counter]);
      counter := counter + 1;
    }
    assert buf[..|buf|] == buf;
  }

  const MAX_CLUSTER_HSLOT: bv16 := 16383

  /** `calc_hslot_crc16_cluster`: the CRC modulo the number of slots. */
  method Slot(key: seq<bv8>) returns (slot: bv16)
    ensures slot == CrcBitwise(key) % 16384 && slot < 16384
  {
    var crc := Crc(key);
    slot := crc & MAX_CLUSTER_HSLOT;
    MaskIsModulo(crc);
  }

  lemma MaskIsModulo(x: bv16)
    ensures x & 16383 == x % 16384 && x & 16383 < 16384
  {
  }
}
