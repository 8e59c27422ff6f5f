/**
 A message followed by its own CRC, low byte first, has one and the same CRC, whatever the message. With the
 CRC of the empty message this fixes the start value and the final complement of RFC 1952, section 8.
 */
module CrcResidue {
  import opened Crc32
  import opened ConfigModel

  const RESIDUE: bv32 := 0x2144DF1C

  /** A byte of a word goes into the register as if the whole word had been there. */
  lemma OneByteOff(reg: bv32, w: bv32, b: byte)
    requires b == (w & 0xFF) as bv8
    ensures Xor(StepBitwise(reg, b), w >> 8) == Shift8(Xor(reg, w))
  {
    hide Shift8, Xor;
    LowByte(reg, w, b);
    var high := w & 0xFFFFFF00;
    Shift8IsLinear(Xor(reg, b as bv32), high);
    HighBytesShift(w);
    assert Shift8(high) == w >> 8;
    assert Shift8(Xor(Xor(reg, b as bv32), high)) == Xor(Shift8(Xor(reg, b as bv32)), Shift8(high));
  }

  lemma LowByte(reg: bv32, w: bv32, b: byte)
    requires b == (w & 0xFF) as bv8
    ensures Xor(reg, w) == Xor(Xor(reg, b as bv32), w & 0xFFFFFF00)
  {
    ByteAsWord(w, b);
    SplitWord(w);
    XorRegroups(reg, w & 0xFF, w & 0xFFFFFF00);
  }

  lemma ByteAsWord(w: bv32, b: byte)
    requires b == (w & 0xFF) as bv8
    ensures b as bv32 == w & 0xFF
  {
  }

  lemma XorRegroups(a: bv32, b: bv32, c: bv32)
    ensures Xor(a, Xor(b, c)) == Xor(Xor(a, b), c)
  {
  }

  function ShiftWord(c: bv32): bv32 {
    Shift8(Shift8(Shift8(Shift8(c))))
  }

  lemma BytesOf(w: bv32)
    ensures var bs := LittleEndian(w);
            && bs[0] == (w & 0xFF) as bv8 && bs[1] == ((w >> 8) & 0xFF) as bv8
            && bs[2] == (((w >> 8) >> 8) & 0xFF) as bv8 && bs[3] == ((((w >> 8) >> 8) >> 8) & 0xFF) as bv8
    ensures (((w >> 8) >> 8) >> 8) >> 8 == 0
  {
    assert (w >> 8) >> 8 == w >> 16;
    assert (w >> 16) >> 8 == w >> 24;
    assert (w >> 24) & 0xFF == w >> 24;
  }

  /** Four bytes of a word leave the register that the word itself does. */
  lemma WordOff(reg: bv32, w: bv32)
    ensures var bs := LittleEndian(w);
            StepBitwise(StepBitwise(StepBitwise(StepBitwise(reg, bs[0]), bs[1]), bs[2]), bs[3])
            == ShiftWord(Xor(reg, w))
  {
    BytesOf(w);
    hide LittleEndian, StepBitwise, Shift8, Xor;
    var bs := LittleEndian(w);
    var w1 := w >> 8;
    var w2 := w1 >> 8;
    var w3 := w2 >> 8;
    var r1 := StepBitwise(reg, bs[0]);
    var r2 := StepBitwise(r1, bs[1]);
    var r3 := StepBitwise(r2, bs[2]);
    var r4 := StepBitwise(r3, bs[3]);
    OneByteOff(reg, w, bs[0]);
    OneByteOff(r1, w1, bs[1]);
    OneByteOff(r2, w2, bs[2]);
    OneByteOff(r3, w3, bs[3]);
    XorZero(r4);
  }

  lemma XorZero(c: bv32)
    ensures Xor(c, 0) == c
  {
  }

  lemma OnesShifted()
    ensures ShiftWord(0xFFFFFFFF) == !RESIDUE
  {
    assert Shift8(0xFFFFFFFF) == 0x2DFD1072;
    assert Shift8(0x2DFD1072) == 0xBE26ED00;
    assert Shift8(0xBE26ED00) == 0x00BE26ED;
    assert Shift8(0x00BE26ED) == 0xDEBB20E3;
  }

  lemma ComplementCancels(c: bv32)
    ensures Xor(c, !c) == 0xFFFFFFFF && !!c == c
  {
  }

  lemma RegisterOfFour(data: seq<byte>, bs: seq<byte>)
    requires |bs| == 4
    ensures Register(data + bs)
         == StepBitwise(StepBitwise(StepBitwise(StepBitwise(Register(data), bs[0]), bs[1]), bs[2]), bs[3])
  {
    hide StepBitwise;
    var n := |data|;
    var all := data + bs;
    assert all[..n + 3][..n + 2] == all[..n + 2] && all[..n + 2][..n + 1] == all[..n + 1] && all[..n + 1][..n] == data;
    assert all[..n + 4] == all;
    assert Register(all[..n + 1]) == StepBitwise(Register(data), bs[0]);
    assert Register(all[..n + 2]) == StepBitwise(Register(all[..n + 1]), bs[1]);
    assert Register(all[..n + 3]) == StepBitwise(Register(all[..n + 2]), bs[2]);
  }

  /** The CRC of any stored record, its own CRC included, is one constant; that of no bytes is zero. */
  lemma RecordHasResidue(data: seq<byte>)
    ensures Crc(Record(data)) == RESIDUE && Crc([]) == 0
  {
    hide StepBitwise, LittleEndian, Xor, Shift8;
    RegisterOfFour(data, LittleEndian(Crc(data)));
    WordOff(Register(data), Crc(data));
    ComplementCancels(Register(data));
    OnesShifted();
    ComplementCancels(RESIDUE);
    assert Register([]) == 0xFFFFFFFF;
  }
}
