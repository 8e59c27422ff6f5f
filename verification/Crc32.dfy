/**
 The two CRC-32 implementations: table-driven for stored configuration (src/common.c:61-104) and
 bit by bit for staged firmware (src/ota.c:75-85). Both are the CRC of RFC 1952, section 8.
 */
module Crc32 {
  type byte = bv8

  const POLYNOMIAL: bv32 := 0xEDB88320

  // The table, in lines of eight entries as the firmware writes it.
  const ROW_00: seq<bv32> :=
    [0x00000000, 0x77073096, 0xEE0E612C, 0x990951BA, 0x076DC419, 0x706AF48F, 0xE963A535, 0x9E6495A3]
  const ROW_01: seq<bv32> :=
    [0x0EDB8832, 0x79DCB8A4, 0xE0D5E91E, 0x97D2D988, 0x09B64C2B, 0x7EB17CBD, 0xE7B82D07, 0x90BF1D91]
  const ROW_02: seq<bv32> :=
    [0x1DB71064, 0x6AB020F2, 0xF3B97148, 0x84BE41DE, 0x1ADAD47D, 0x6DDDE4EB, 0xF4D4B551, 0x83D385C7]
  const ROW_03: seq<bv32> :=
    [0x136C9856, 0x646BA8C0, 0xFD62F97A, 0x8A65C9EC, 0x14015C4F, 0x63066CD9, 0xFA0F3D63, 0x8D080DF5]
  const ROW_04: seq<bv32> :=
    [0x3B6E20C8, 0x4C69105E, 0xD56041E4, 0xA2677172, 0x3C03E4D1, 0x4B04D447, 0xD20D85FD, 0xA50AB56B]
  const ROW_05: seq<bv32> :=
    [0x35B5A8FA, 0x42B2986C, 0xDBBBC9D6, 0xACBCF940, 0x32D86CE3, 0x45DF5C75, 0xDCD60DCF, 0xABD13D59]
  const ROW_06: seq<bv32> :=
    [0x26D930AC, 0x51DE003A, 0xC8D75180, 0xBFD06116, 0x21B4F4B5, 0x56B3C423, 0xCFBA9599, 0xB8BDA50F]
  const ROW_07: seq<bv32> :=
    [0x2802B89E, 0x5F058808, 0xC60CD9B2, 0xB10BE924, 0x2F6F7C87, 0x58684C11, 0xC1611DAB, 0xB6662D3D]
  const ROW_08: seq<bv32> :=
    [0x76DC4190, 0x01DB7106, 0x98D220BC, 0xEFD5102A, 0x71B18589, 0x06B6B51F, 0x9FBFE4A5, 0xE8B8D433]
  const ROW_09: seq<bv32> :=
    [0x7807C9A2, 0x0F00F934, 0x9609A88E, 0xE10E9818, 0x7F6A0DBB, 0x086D3D2D, 0x91646C97, 0xE6635C01]
  const ROW_10: seq<bv32> :=
    [0x6B6B51F4, 0x1C6C6162, 0x856530D8, 0xF262004E, 0x6C0695ED, 0x1B01A57B, 0x8208F4C1, 0xF50FC457]
  const ROW_11: seq<bv32> :=
    [0x65B0D9C6, 0x12B7E950, 0x8BBEB8EA, 0xFCB9887C, 0x62DD1DDF, 0x15DA2D49, 0x8CD37CF3, 0xFBD44C65]
  const ROW_12: seq<bv32> :=
    [0x4DB26158, 0x3AB551CE, 0xA3BC0074, 0xD4BB30E2, 0x4ADFA541, 0x3DD895D7, 0xA4D1C46D, 0xD3D6F4FB]
  const ROW_13: seq<bv32> :=
    [0x4369E96A, 0x346ED9FC, 0xAD678846, 0xDA60B8D0, 0x44042D73, 0x33031DE5, 0xAA0A4C5F, 0xDD0D7CC9]
  const ROW_14: seq<bv32> :=
    [0x5005713C, 0x270241AA, 0xBE0B1010, 0xC90C2086, 0x5768B525, 0x206F85B3, 0xB966D409, 0xCE61E49F]
  const ROW_15: seq<bv32> :=
    [0x5EDEF90E, 0x29D9C998, 0xB0D09822, 0xC7D7A8B4, 0x59B33D17, 0x2EB40D81, 0xB7BD5C3B, 0xC0BA6CAD]
  const ROW_16: seq<bv32> :=
    [0xEDB88320, 0x9ABFB3B6, 0x03B6E20C, 0x74B1D29A, 0xEAD54739, 0x9DD277AF, 0x04DB2615, 0x73DC1683]
  const ROW_17: seq<bv32> :=
    [0xE3630B12, 0x94643B84, 0x0D6D6A3E, 0x7A6A5AA8, 0xE40ECF0B, 0x9309FF9D, 0x0A00AE27, 0x7D079EB1]
  const ROW_18: seq<bv32> :=
    [0xF00F9344, 0x8708A3D2, 0x1E01F268, 0x6906C2FE, 0xF762575D, 0x806567CB, 0x196C3671, 0x6E6B06E7]
  const ROW_19: seq<bv32> :=
    [0xFED41B76, 0x89D32BE0, 0x10DA7A5A, 0x67DD4ACC, 0xF9B9DF6F, 0x8EBEEFF9, 0x17B7BE43, 0x60B08ED5]
  const ROW_20: seq<bv32> :=
    [0xD6D6A3E8, 0xA1D1937E, 0x38D8C2C4, 0x4FDFF252, 0xD1BB67F1, 0xA6BC5767, 0x3FB506DD, 0x48B2364B]
  const ROW_21: seq<bv32> :=
    [0xD80D2BDA, 0xAF0A1B4C, 0x36034AF6, 0x41047A60, 0xDF60EFC3, 0xA867DF55, 0x316E8EEF, 0x4669BE79]
  const ROW_22: seq<bv32> :=
    [0xCB61B38C, 0xBC66831A, 0x256FD2A0, 0x5268E236, 0xCC0C7795, 0xBB0B4703, 0x220216B9, 0x5505262F]
  const ROW_23: seq<bv32> :=
    [0xC5BA3BBE, 0xB2BD0B28, 0x2BB45A92, 0x5CB36A04, 0xC2D7FFA7, 0xB5D0CF31, 0x2CD99E8B, 0x5BDEAE1D]
  const ROW_24: seq<bv32> :=
    [0x9B64C2B0, 0xEC63F226, 0x756AA39C, 0x026D930A, 0x9C0906A9, 0xEB0E363F, 0x72076785, 0x05005713]
  const ROW_25: seq<bv32> :=
    [0x95BF4A82, 0xE2B87A14, 0x7BB12BAE, 0x0CB61B38, 0x92D28E9B, 0xE5D5BE0D, 0x7CDCEFB7, 0x0BDBDF21]
  const ROW_26: seq<bv32> :=
    [0x86D3D2D4, 0xF1D4E242, 0x68DDB3F8, 0x1FDA836E, 0x81BE16CD, 0xF6B9265B, 0x6FB077E1, 0x18B74777]
  const ROW_27: seq<bv32> :=
    [0x88085AE6, 0xFF0F6A70, 0x66063BCA, 0x11010B5C, 0x8F659EFF, 0xF862AE69, 0x616BFFD3, 0x166CCF45]
  const ROW_28: seq<bv32> :=
    [0xA00AE278, 0xD70DD2EE, 0x4E048354, 0x3903B3C2, 0xA7672661, 0xD06016F7, 0x4969474D, 0x3E6E77DB]
  const ROW_29: seq<bv32> :=
    [0xAED16A4A, 0xD9D65ADC, 0x40DF0B66, 0x37D83BF0, 0xA9BCAE53, 0xDEBB9EC5, 0x47B2CF7F, 0x30B5FFE9]
  const ROW_30: seq<bv32> :=
    [0xBDBDF21C, 0xCABAC28A, 0x53B39330, 0x24B4A3A6, 0xBAD03605, 0xCDD70693, 0x54DE5729, 0x23D967BF]
  const ROW_31: seq<bv32> :=
    [0xB3667A2E, 0xC4614AB8, 0x5D681B02, 0x2A6F2B94, 0xB40BBE37, 0xC30C8EA1, 0x5A05DF1B, 0x2D02EF8D]

  function Row(r: bv32): (row: seq<bv32>)
    ensures |row| == 8
  {
    if r == 0 then ROW_00
    else if r == 1 then ROW_01
    else if r == 2 then ROW_02
    else if r == 3 then ROW_03
    else if r == 4 then ROW_04
    else if r == 5 then ROW_05
    else if r == 6 then ROW_06
    else if r == 7 then ROW_07
    else if r == 8 then ROW_08
    else if r == 9 then ROW_09
    else if r == 10 then ROW_10
    else if r == 11 then ROW_11
    else if r == 12 then ROW_12
    else if r == 13 then ROW_13
    else if r == 14 then ROW_14
    else if r == 15 then ROW_15
    else if r == 16 then ROW_16
    else if r == 17 then ROW_17
    else if r == 18 then ROW_18
    else if r == 19 then ROW_19
    else if r == 20 then ROW_20
    else if r == 21 then ROW_21
    else if r == 22 then ROW_22
    else if r == 23 then ROW_23
    else if r == 24 then ROW_24
    else if r == 25 then ROW_25
    else if r == 26 then ROW_26
    else if r == 27 then ROW_27
    else if r == 28 then ROW_28
    else if r == 29 then ROW_29
    else if r == 30 then ROW_30
    else ROW_31
  }

  /** Entry i of the table. */
  function Table(i: bv32): bv32
    requires i < 256
  {
    Row(i >> 3)[(i & 7) as int]
  }

  /** One bit: shift right, and take the polynomial off when a one falls out. */
  function Shift1(c: bv32): bv32 {
    (c >> 1) ^ (POLYNOMIAL & (0 - (c & 1)))
  }

  function Shift2(c: bv32): bv32 { Shift1(Shift1(c)) }

  function Shift4(c: bv32): bv32 { Shift2(Shift2(c)) }

  function Shift8(c: bv32): bv32 { Shift4(Shift4(c)) }

  function Xor(a: bv32, b: bv32): bv32 { a ^ b }

  function StepTable(crc: bv32, b: byte): bv32 {
    Xor(Table(Xor(crc, b as bv32) & 0xFF), crc >> 8)
  }

  function StepBitwise(crc: bv32, b: byte): bv32 {
    Shift8(Xor(crc, b as bv32))
  }

  // ----- the table holds what the bit loop computes

  lemma Quarter0IsShifted(r: bv32, c: bv32)
    requires r < 8 && c < 8
    ensures Row(r)[c as int] == Shift8(8 * r + c)
  {
  }

  lemma Quarter1IsShifted(r: bv32, c: bv32)
    requires 8 <= r < 16 && c < 8
    ensures Row(r)[c as int] == Shift8(8 * r + c)
  {
  }

  lemma Quarter2IsShifted(r: bv32, c: bv32)
    requires 16 <= r < 24 && c < 8
    ensures Row(r)[c as int] == Shift8(8 * r + c)
  {
  }

  lemma Quarter3IsShifted(r: bv32, c: bv32)
    requires 24 <= r < 32 && c < 8
    ensures Row(r)[c as int] == Shift8(8 * r + c)
  {
  }

  lemma TableIsShifted(i: bv32)
    requires i < 256
    ensures Table(i) == Shift8(i)
  {
    hide Shift8, Row;
    var r, c := i >> 3, i & 7;
    assert r < 32 && c < 8 && i == 8 * r + c;
    if r < 8 {
      Quarter0IsShifted(r, c);
    } else if r < 16 {
      Quarter1IsShifted(r, c);
    } else if r < 24 {
      Quarter2IsShifted(r, c);
    } else {
      Quarter3IsShifted(r, c);
    }
  }

  // ----- one bit at a time

  lemma Shift1IsLinear(a: bv32, b: bv32)
    ensures Shift1(Xor(a, b)) == Xor(Shift1(a), Shift1(b))
  {
    assert (a ^ b) & 1 == (a & 1) ^ (b & 1);
    assert (a ^ b) >> 1 == (a >> 1) ^ (b >> 1);
    MaskIsLinear(a & 1, b & 1);
  }

  lemma MaskIsLinear(x: bv32, y: bv32)
    requires (x == 0 || x == 1) && (y == 0 || y == 1)
    ensures POLYNOMIAL & (0 - (x ^ y)) == (POLYNOMIAL & (0 - x)) ^ (POLYNOMIAL & (0 - y))
  {
  }

  lemma Shift2IsLinear(a: bv32, b: bv32)
    ensures Shift2(Xor(a, b)) == Xor(Shift2(a), Shift2(b))
  {
    hide Shift1, Xor;
    Shift1IsLinear(a, b);
    Shift1IsLinear(Shift1(a), Shift1(b));
  }

  lemma Shift4IsLinear(a: bv32, b: bv32)
    ensures Shift4(Xor(a, b)) == Xor(Shift4(a), Shift4(b))
  {
    hide Shift2, Xor;
    Shift2IsLinear(a, b);
    Shift2IsLinear(Shift2(a), Shift2(b));
  }

  lemma Shift8IsLinear(a: bv32, b: bv32)
    ensures Shift8(Xor(a, b)) == Xor(Shift8(a), Shift8(b))
  {
    hide Shift4, Xor;
    Shift4IsLinear(a, b);
    Shift4IsLinear(Shift4(a), Shift4(b));
  }

  /** The polynomial's top bit says whether a one fell out, so a shift can be undone. */
  lemma Shift1IsInjective(a: bv32, b: bv32)
    requires Shift1(a) == Shift1(b)
    ensures a == b
  {
  }

  lemma Shift8IsInjective(a: bv32, b: bv32)
    requires Shift8(a) == Shift8(b)
    ensures a == b
  {
    hide Shift1;
    Shift4IsInjective(Shift4(a), Shift4(b));
    Shift4IsInjective(a, b);
  }

  lemma Shift4IsInjective(a: bv32, b: bv32)
    requires Shift4(a) == Shift4(b)
    ensures a == b
  {
    hide Shift1;
    Shift1IsInjective(Shift1(Shift2(a)), Shift1(Shift2(b)));
    Shift1IsInjective(Shift2(a), Shift2(b));
    Shift1IsInjective(Shift1(a), Shift1(b));
    Shift1IsInjective(a, b);
  }

  /** With its low byte clear a register just shifts. */
  lemma HighBytesShift(c: bv32)
    ensures Shift8(c & 0xFFFFFF00) == c >> 8
  {
  }

  lemma SplitWord(x: bv32)
    ensures x == Xor(x & 0xFF, x & 0xFFFFFF00) && x & 0xFF < 256
  {
  }

  lemma ByteIsLow(crc: bv32, b: byte)
    ensures Xor(crc, b as bv32) >> 8 == crc >> 8
  {
  }

  /** One table look-up does what eight single-bit steps do, for every register and byte. */
  lemma StepsAgree(crc: bv32, b: byte)
    ensures StepTable(crc, b) == StepBitwise(crc, b)
  {
    hide Shift8, Table, Xor;
    var x := Xor(crc, b as bv32);
    SplitWord(x);
    ByteIsLow(crc, b);
    HighBytesShift(x);
    TableIsShifted(x & 0xFF);
    Shift8IsLinear(x & 0xFF, x & 0xFFFFFF00);
  }

  /** Different registers stay different over the same byte, and different bytes move a register apart. */
  lemma StepIsInjective(c: bv32, d: bv32, a: byte, b: byte)
    ensures StepBitwise(c, a) == StepBitwise(d, a) ==> c == d
    ensures StepBitwise(c, a) == StepBitwise(c, b) ==> a == b
  {
    hide Shift8, Xor;
    if StepBitwise(c, a) == StepBitwise(d, a) {
      Shift8IsInjective(Xor(c, a as bv32), Xor(d, a as bv32));
      XorIsInjective(a as bv32, c, d);
    }
    if StepBitwise(c, a) == StepBitwise(c, b) {
      Shift8IsInjective(Xor(c, a as bv32), Xor(c, b as bv32));
      XorByteIsInjective(c, a, b);
    }
  }

  lemma XorIsInjective(x: bv32, c: bv32, d: bv32)
    requires Xor(c, x) == Xor(d, x)
    ensures c == d
  {
  }

  lemma XorByteIsInjective(c: bv32, a: byte, b: byte)
    requires Xor(c, a as bv32) == Xor(c, b as bv32)
    ensures a == b
  {
  }

  // ----- whole messages

  /** The register after a message, by single bits. */
  function Register(data: seq<byte>): bv32 {
    if data == [] then 0xFFFFFFFF else StepBitwise(Register(data[..|data| - 1]), data[|data| - 1])
  }

  /** The CRC of RFC 1952, section 8: the register's ones' complement. */
  function Crc(data: seq<byte>): bv32 {
    !Register(data)
  }

  /** Changing one byte of a message, and nothing else, changes its CRC. */
  lemma {:induction false} OneByteChangesCrc(data: seq<byte>, k: nat, b: byte)
    requires k < |data| && data[k] != b
    ensures Crc(data[k := b]) != Crc(data)
  {
    hide StepBitwise;
    RegisterMoved(data, k, b);
    assert Register(data[k := b]) != Register(data);
    ComplementIsInjective(Register(data[k := b]), Register(data));
  }

  lemma ComplementIsInjective(a: bv32, b: bv32)
    requires a != b
    ensures !a != !b
  {
  }

  lemma {:induction false} RegisterMoved(data: seq<byte>, k: nat, b: byte)
    requires k < |data| && data[k] != b
    ensures Register(data[k := b]) != Register(data)
  {
    hide StepBitwise;
    var n := |data| - 1;
    var data' := data[k := b];
    if k == n {
      assert data'[..n] == data[..n];
      StepIsInjective(Register(data[..n]), 0, data[n], b);
    } else {
      assert data'[..n] == data[..n][k := b];
      RegisterMoved(data[..n], k, b);
      StepIsInjective(Register(data[..n]), Register(data'[..n]), data[n], data[n]);
    }
  }

  // ----- the two loops

  /** software_crc32. */
  method SoftwareCrc32(data: seq<byte>) returns (r: bv32)
    ensures r == Crc(data)
  {
    hide StepTable, StepBitwise;
    var crc: bv32 := 0xFFFFFFFF;
    var i := 0;
    while i < |data|
      invariant i <= |data| && crc == Register(data[..i])
    {
      StepsAgree(crc, data[i]);
      assert data[..i + 1][..i] == data[..i];
      crc := StepTable(crc, data[i]);
      i := i + 1;
    }
    assert data[..i] == data;
    XorOnesIsComplement(crc);
    r := crc ^ 0xFFFFFFFF;
  }

  lemma XorOnesIsComplement(c: bv32)
    ensures c ^ 0xFFFFFFFF == !c
  {
  }

  /** The inner loop: eight single-bit steps. */
  method EightBits(c: bv32) returns (crc: bv32)
    ensures crc == Shift8(c)
  {
    hide Shift1;
    crc := c;
    var bit := 0;
    while bit < 8
      invariant bit <= 8 && crc == ShiftBy(c, bit)
    {
      crc := Shift1(crc);
      bit := bit + 1;
    }
    EightShifts(c);
  }

  /** crc32_flash, over the flash from `offset` on. */
  method Crc32Flash(flash: array<byte>, offset: nat, len: nat) returns (r: bv32)
    requires offset + len <= flash.Length
    ensures r == Crc(flash[offset..offset + len])
  {
    hide Shift8, Xor;
    var crc: bv32 := 0xFFFFFFFF;
    var i := 0;
    while i < len
      invariant i <= len && crc == Register(flash[offset..offset + i])
    {
      assert flash[offset..offset + i + 1][..i] == flash[offset..offset + i];
      crc := Xor(crc, flash[offset + i] as bv32);
      crc := EightBits(crc);
      i := i + 1;
    }
    r := !crc;
  }

  function ShiftBy(c: bv32, n: nat): bv32 {
    if n == 0 then c else Shift1(ShiftBy(c, n - 1))
  }

  lemma EightShifts(c: bv32)
    ensures ShiftBy(c, 8) == Shift8(c)
  {
    hide Shift1;
    ShiftByTwo(c, 0);
    ShiftByTwo(c, 2);
    ShiftByTwo(c, 4);
    ShiftByTwo(c, 6);
  }

  lemma ShiftByTwo(c: bv32, n: nat)
    ensures ShiftBy(c, n + 2) == Shift2(ShiftBy(c, n))
  {
    hide Shift1;
    assert ShiftBy(c, n + 1) == Shift1(ShiftBy(c, n));
  }
}
