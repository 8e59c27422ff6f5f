/**
 Stored configuration (src/common.c:107-217): a record is the configuration's bytes, the first two of
 which once held a revision, followed by their CRC-32, low byte first.
 */
module ConfigModel {
  import opened Crc32
  import opened EepromModel

  const CRC_BYTES: nat := 4
  const NO_REV: seq<byte> := [0, 0]

  function LittleEndian(c: bv32): (r: seq<byte>)
    ensures |r| == CRC_BYTES
  {
    [(c & 0xFF) as bv8, ((c >> 8) & 0xFF) as bv8, ((c >> 16) & 0xFF) as bv8, (c >> 24) as bv8]
  }

  function Record(cfg: seq<byte>): seq<byte> {
    cfg + LittleEndian(Crc(cfg))
  }

  /** save_config, with the bus working. */
  function Save(mem: seq<byte>, addr: nat, cfg: seq<byte>): (r: seq<byte>)
    requires |mem| == SIZE && addr + |cfg| + CRC_BYTES <= SIZE
    ensures |r| == SIZE
  {
    Write(mem, addr, Record(cfg), _ => true).mem
  }

  /** Whether a load writes the record back: an old one, or one that is not valid. */
  predicate WritesBack(mem: seq<byte>, addr: nat, n: nat, rev: seq<byte>)
    requires |mem| == SIZE && 2 <= n && addr + n + CRC_BYTES <= SIZE
  {
    var buf := mem[addr..addr + n + CRC_BYTES];
    buf[..2] == rev || buf[..2] != NO_REV || buf[n..] != LittleEndian(Crc(buf[..n]))
  }

  datatype Loaded = Loaded(mem: seq<byte>, cfg: seq<byte>)

  /** load_config, with the bus working: `rev` is the revision that an old record would carry. */
  function Load(mem: seq<byte>, addr: nat, default: seq<byte>, rev: seq<byte>): (r: Loaded)
    requires |mem| == SIZE && 2 <= |default| && addr + |default| + CRC_BYTES <= SIZE
    ensures |r.mem| == SIZE && |r.cfg| == |default|
  {
    var n := |default|;
    var buf := mem[addr..addr + n + CRC_BYTES];
    if buf[..2] == rev then
      var cfg := NO_REV + buf[2..n];
      Loaded(Save(mem, addr, cfg), cfg)
    else if buf[..2] != NO_REV || buf[n..] != LittleEndian(Crc(buf[..n])) then
      Loaded(Save(mem, addr, default), default)
    else Loaded(mem, buf[..n])
  }

  predicate Aligned(addr: nat) {
    addr % PAGE == 0
  }

  /** A record as save_config leaves it, from a configuration without a revision. */
  predicate Valid(record: seq<byte>, n: nat) {
    2 <= n && |record| == n + CRC_BYTES && record[..2] == NO_REV && record == Record(record[..n])
  }

  lemma LittleEndianIsInjective(c: bv32, d: bv32)
    requires LittleEndian(c) == LittleEndian(d)
    ensures c == d
  {
    assert LittleEndian(c)[0] == LittleEndian(d)[0] && LittleEndian(c)[1] == LittleEndian(d)[1]
        && LittleEndian(c)[2] == LittleEndian(d)[2] && LittleEndian(c)[3] == LittleEndian(d)[3];
    SameBytes(c, d);
  }

  lemma SameBytes(c: bv32, d: bv32)
    requires (c & 0xFF) as bv8 == (d & 0xFF) as bv8 && ((c >> 8) & 0xFF) as bv8 == ((d >> 8) & 0xFF) as bv8
    requires ((c >> 16) & 0xFF) as bv8 == ((d >> 16) & 0xFF) as bv8 && (c >> 24) as bv8 == (d >> 24) as bv8
    ensures c == d
  {
  }

  /** Saving at an aligned address puts the record there and leaves every other byte alone. */
  lemma SaveIsFlat(mem: seq<byte>, addr: nat, cfg: seq<byte>)
    requires |mem| == SIZE && addr + |cfg| + CRC_BYTES <= SIZE && Aligned(addr)
    ensures Save(mem, addr, cfg) == Flat(mem, addr, Record(cfg))
    ensures Save(mem, addr, cfg)[addr..addr + |cfg| + CRC_BYTES] == Record(cfg)
    ensures forall k :: 0 <= k < SIZE && (k < addr || k >= addr + |cfg| + CRC_BYTES) ==>
            Save(mem, addr, cfg)[k] == mem[k]
  {
    hide WriteFrom, LittleEndian, Crc, Flat;
    FromIsFlat(mem, addr, Record(cfg), _ => true);
    FlatPlaces(mem, addr, Record(cfg));
  }

  lemma FlatPlaces(mem: seq<byte>, base: nat, data: seq<byte>)
    requires |mem| == SIZE && base + |data| <= SIZE
    ensures Flat(mem, base, data)[base..base + |data|] == data
    ensures forall k :: 0 <= k < SIZE && (k < base || k >= base + |data|) ==> Flat(mem, base, data)[k] == mem[k]
    ensures mem[base..base + |data|] == data ==> Flat(mem, base, data) == mem
  {
  }

  /** Saving what is already there changes nothing. */
  lemma SaveAgain(mem: seq<byte>, addr: nat, cfg: seq<byte>)
    requires |mem| == SIZE && addr + |cfg| + CRC_BYTES <= SIZE && Aligned(addr)
    requires mem[addr..addr + |cfg| + CRC_BYTES] == Record(cfg)
    ensures Save(mem, addr, cfg) == mem
  {
    hide Save, Flat, LittleEndian, Crc;
    SaveIsFlat(mem, addr, cfg);
    FlatPlaces(mem, addr, Record(cfg));
  }

  /** What loading makes of a stored record, read off the record's bytes. */
  lemma LoadCases(mem: seq<byte>, addr: nat, default: seq<byte>, rev: seq<byte>, cfg: seq<byte>)
    requires |mem| == SIZE && 2 <= |cfg| == |default| && addr + |default| + CRC_BYTES <= SIZE
    requires mem[addr..addr + |default| + CRC_BYTES] == Record(cfg)
    ensures Load(mem, addr, default, rev) ==
            if cfg[..2] == rev then Loaded(Save(mem, addr, NO_REV + cfg[2..]), NO_REV + cfg[2..])
            else if cfg[..2] != NO_REV then Loaded(Save(mem, addr, default), default)
            else Loaded(mem, cfg)
  {
    hide Save, LittleEndian, Crc;
    var n := |cfg|;
    var buf := mem[addr..addr + n + CRC_BYTES];
    assert buf[..2] == cfg[..2] && buf[..n] == cfg && buf[2..n] == cfg[2..] && buf[n..] == LittleEndian(Crc(cfg));
  }

  /**
   Loading gives back what was saved exactly when the revision bytes were zero, or when the saved
   configuration was rejected for them and happens to be the default.
   */
  lemma SaveThenLoadIff(mem: seq<byte>, addr: nat, cfg: seq<byte>, default: seq<byte>, rev: seq<byte>)
    requires |mem| == SIZE && 2 <= |cfg| == |default| && addr + |cfg| + CRC_BYTES <= SIZE && Aligned(addr)
    ensures var saved := Save(mem, addr, cfg);
            var l := Load(saved, addr, default, rev);
            && (l.cfg == cfg <==> cfg[..2] == NO_REV || (cfg == default && cfg[..2] != rev))
            && (cfg[..2] == NO_REV ==> l == Loaded(saved, cfg))
  {
    hide Save, LittleEndian, Crc, Load;
    var saved := Save(mem, addr, cfg);
    SaveIsFlat(mem, addr, cfg);
    LoadCases(saved, addr, default, rev, cfg);
    if cfg[..2] == NO_REV {
      assert NO_REV + cfg[2..] == cfg;
      SaveAgain(saved, addr, cfg);
    } else {
      assert (NO_REV + cfg[2..])[..2] == NO_REV;
    }
  }

  /**
   One byte of a valid record changed: loading returns the default and stores it, unless the change
   made the first two bytes look like an old record's revision, which is taken without a check.
   */
  lemma OneByteCorrupted(mem: seq<byte>, addr: nat, default: seq<byte>, rev: seq<byte>, k: nat, b: byte)
    requires |mem| == SIZE && 2 <= |default| && addr + |default| + CRC_BYTES <= SIZE
    requires k < |default| + CRC_BYTES && mem[addr + k] != b
    requires Valid(mem[addr..addr + |default| + CRC_BYTES], |default|)
    ensures var bad := mem[addr + k := b];
            Load(bad, addr, default, rev) ==
              if bad[addr..addr + 2] == rev then
                var cfg := NO_REV + bad[addr + 2..addr + |default|];
                Loaded(Save(bad, addr, cfg), cfg)
              else Loaded(Save(bad, addr, default), default)
    ensures rev != NO_REV && k >= 2 ==> mem[addr + k := b][addr..addr + 2] != rev
  {
    hide Save, LittleEndian, Crc, Valid;
    var n := |default|;
    var good, bad := mem[addr..addr + n + CRC_BYTES], mem[addr + k := b];
    var buf := bad[addr..addr + n + CRC_BYTES];
    assert buf == good[k := b] && good[k] == mem[addr + k];
    SliceOfSlice(bad, addr, n + CRC_BYTES, 0, 2);
    SliceOfSlice(bad, addr, n + CRC_BYTES, 2, n);
    CorruptRecord(good, n, k, b);
  }

  lemma SliceOfSlice(s: seq<byte>, a: nat, n: nat, i: nat, j: nat)
    requires a + n <= |s| && i <= j <= n
    ensures s[a..a + n][i..j] == s[a + i..a + j]
  {
    var t := s[a..a + n];
    assert forall k :: i <= k < j ==> t[k] == s[a + k];
    assert |t[i..j]| == |s[a + i..a + j]| && forall k :: 0 <= k < j - i ==> t[i..j][k] == s[a + i..a + j][k];
  }

  /** A record with one byte changed is not valid any more. */
  lemma CorruptRecord(good: seq<byte>, n: nat, k: nat, b: byte)
    requires Valid(good, n) && k < |good| && good[k] != b
    ensures var buf := good[k := b];
            && (buf[..2] != NO_REV || buf[n..] != LittleEndian(Crc(buf[..n])))
            && (k >= 2 ==> buf[..2] == NO_REV)
  {
    hide LittleEndian, Crc;
    var buf := good[k := b];
    assert good[n..] == LittleEndian(Crc(good[..n]));
    if k < 2 {
      assert buf[..2][k] == b && good[..2][k] == good[k];
    } else {
      assert buf[..2] == good[..2];
      if k < n {
        assert buf[..n] == good[..n][k := b] && buf[n..] == good[n..];
        OneByteChangesCrc(good[..n], k, b);
        if buf[n..] == LittleEndian(Crc(buf[..n])) {
          LittleEndianIsInjective(Crc(buf[..n]), Crc(good[..n]));
        }
      } else {
        assert buf[..n] == good[..n] && buf[n..][k - n] != good[n..][k - n];
      }
    }
  }

  /** An old revision of [0, 1], and a record with its second byte changed to 1. */
  lemma OldRevisionIsNotChecked(mem: seq<byte>)
    requires |mem| == SIZE
    ensures var good := Save(mem, 0, [0, 0, 5, 6]);
            && Valid(good[..8], 4)
            && Load(good[1 := 1], 0, [0, 0, 0, 0], [0, 1]).cfg == [0, 0, 5, 6]
  {
    hide Save, LittleEndian, Crc;
    var cfg: seq<byte> := [0, 0, 5, 6];
    SaveIsFlat(mem, 0, cfg);
    var good := Save(mem, 0, cfg);
    var record := good[0..8];
    assert record == Record(cfg) && good[..8] == record;
    assert record[..4] == cfg && record[..2] == cfg[..2] == NO_REV;
    assert good[0] == record[0] && good[1] == record[1] && good[2] == record[2] && good[3] == record[3];
    hide Record, Load;
    OldRevisionTaken(good);
  }

  lemma OldRevisionTaken(good: seq<byte>)
    requires |good| == SIZE && good[0] == good[1] == 0 && good[2] == 5 && good[3] == 6
    ensures Load(good[1 := 1], 0, [0, 0, 0, 0], [0, 1]).cfg == [0, 0, 5, 6]
  {
    hide Save, LittleEndian, Crc;
    var buf := good[1 := 1][0..8];
    assert buf[..2] == [0, 1] && buf[2..4] == [5, 6];
  }

  /** A load leaves a valid record of what it loaded; a default's first two bytes are as they come. */
  lemma LoadLeavesRecord(mem: seq<byte>, addr: nat, default: seq<byte>, rev: seq<byte>)
    requires |mem| == SIZE && 2 <= |default| && addr + |default| + CRC_BYTES <= SIZE && Aligned(addr)
    ensures var first := Load(mem, addr, default, rev);
            && first.mem[addr..addr + |default| + CRC_BYTES] == Record(first.cfg)
            && Save(first.mem, addr, first.cfg) == first.mem
            && (first.cfg[..2] == NO_REV || first.cfg == default)
            && (first.cfg[..2] != NO_REV ==> WritesBack(mem, addr, |default|, rev) && mem[addr..addr + 2] != rev)
            && (WritesBack(mem, addr, |default|, rev) && mem[addr..addr + 2] != rev ==> first.cfg == default)
  {
    hide Save, LittleEndian, Crc;
    var n := |default|;
    var buf := mem[addr..addr + n + CRC_BYTES];
    var first := Load(mem, addr, default, rev);
    SliceOfSlice(mem, addr, n + CRC_BYTES, 0, 2);
    if buf[..2] == rev || buf[..2] != NO_REV || buf[n..] != LittleEndian(Crc(buf[..n])) {
      SaveIsFlat(mem, addr, first.cfg);
      SaveAgain(first.mem, addr, first.cfg);
    } else {
      assert buf == Record(buf[..n]);
      SaveAgain(mem, addr, first.cfg);
    }
  }

  /**
   A second load returns what the first one did, and changes nothing, unless the default itself carries
   the old revision and what was stored carried neither that nor a valid record.
   */
  lemma LoadTwiceIff(mem: seq<byte>, addr: nat, default: seq<byte>, rev: seq<byte>)
    requires |mem| == SIZE && 2 <= |default| && addr + |default| + CRC_BYTES <= SIZE && Aligned(addr)
    ensures var first := Load(mem, addr, default, rev);
            (Load(first.mem, addr, default, rev) == first) <==>
              !(default[..2] == rev && rev != NO_REV
                && WritesBack(mem, addr, |default|, rev) && mem[addr..addr + 2] != rev)
  {
    hide Save, LittleEndian, Crc, Load, Record, WritesBack;
    var first := Load(mem, addr, default, rev);
    var cfg := first.cfg;
    LoadLeavesRecord(mem, addr, default, rev);
    LoadCases(first.mem, addr, default, rev, cfg);
    if cfg[..2] == NO_REV {
      assert NO_REV + cfg[2..] == cfg;
    } else {
      assert (NO_REV + cfg[2..])[..2] == NO_REV;
    }
  }

  /** After an erase every configuration whose first two bytes the bus took loads as its default. */
  lemma EraseRestoresDefaults(mem: seq<byte>, answers: nat -> nat -> bool, addr: nat, default: seq<byte>,
                              rev: seq<byte>)
    requires |mem| == SIZE && 2 <= |default| && addr + |default| + CRC_BYTES <= SIZE && rev != [0xFF, 0xFF]
    requires answers(addr / PAGE)(0) && answers((addr + 1) / PAGE)(0)
    ensures Load(EraseFrom(mem, 0, answers), addr, default, rev).cfg == default
  {
    hide EraseFrom, Save, Crc;
    EraseBlanks(mem, 0, answers);
    var buf := EraseFrom(mem, 0, answers)[addr..addr + |default| + CRC_BYTES];
    assert buf[0] == 0xFF && buf[1] == 0xFF;
    assert buf[..2] == [0xFF, 0xFF];
  }

  // ----- saving everything

  /** A registered save handler: its record's place and the configuration it saves. */
  datatype Entry = Entry(addr: nat, cfg: seq<byte>)

  predicate Placed(e: Entry) {
    2 <= |e.cfg| && e.addr + |e.cfg| + CRC_BYTES <= SIZE && Aligned(e.addr)
  }

  predicate Apart(a: Entry, b: Entry) {
    a.addr + |a.cfg| + CRC_BYTES <= b.addr || b.addr + |b.cfg| + CRC_BYTES <= a.addr
  }

  predicate Disjoint(es: seq<Entry>) {
    (forall i :: 0 <= i < |es| ==> Placed(es[i])) && (forall i, j :: 0 <= i < j < |es| ==> Apart(es[i], es[j]))
  }

  /** The bus takes every transaction of a write. */
  ghost predicate AllTaken(acks: nat -> bool) {
    forall p :: acks(p)
  }

  /** eeprom_save_all, along the list; `answers(i)` says how the bus takes the writes of handler i. */
  function SaveAll(mem: seq<byte>, es: seq<Entry>, answers: nat -> nat -> bool): (r: seq<byte>)
    requires |mem| == SIZE && forall i :: 0 <= i < |es| ==> Placed(es[i])
    ensures |r| == SIZE
  {
    if es == [] then mem
    else
      var n := |es| - 1;
      assert Placed(es[n]);
      Write(SaveAll(mem, es[..n], answers), es[n].addr, Record(es[n].cfg), answers(n)).mem
  }

  predicate Stored(mem: seq<byte>, e: Entry)
    requires |mem| == SIZE && Placed(e)
  {
    mem[e.addr..e.addr + |e.cfg| + CRC_BYTES] == Record(e.cfg)
  }

  lemma WriteKeepsApart(mem: seq<byte>, e: Entry, f: Entry, acks: nat -> bool)
    requires |mem| == SIZE && Placed(e) && Placed(f) && Apart(e, f) && Stored(mem, f)
    ensures Stored(Write(mem, e.addr, Record(e.cfg), acks).mem, f)
  {
    hide Write, Flat, LittleEndian, Crc;
    WriteIsPrefix(mem, e.addr, Record(e.cfg), acks);
    var written := Record(e.cfg)[..Through(Record(e.cfg), 0, acks)];
    FlatPlaces(mem, e.addr, written);
  }

  lemma WriteStores(mem: seq<byte>, e: Entry, acks: nat -> bool)
    requires |mem| == SIZE && Placed(e) && AllTaken(acks)
    ensures Stored(Write(mem, e.addr, Record(e.cfg), acks).mem, e)
  {
    hide Write, Flat, LittleEndian, Crc;
    FromIsFlat(mem, e.addr, Record(e.cfg), acks);
    FlatPlaces(mem, e.addr, Record(e.cfg));
  }

  /** A record whose own writes the bus takes is stored, whatever becomes of the others. */
  lemma {:induction false} IsStored(mem: seq<byte>, es: seq<Entry>, answers: nat -> nat -> bool, i: nat)
    requires |mem| == SIZE && Disjoint(es) && i < |es| && AllTaken(answers(i))
    ensures Stored(SaveAll(mem, es, answers), es[i])
  {
    hide Write, LittleEndian, Crc, Stored;
    var n := |es| - 1;
    var before := SaveAll(mem, es[..n], answers);
    if i < n {
      assert es[..n][i] == es[i];
      IsStored(mem, es[..n], answers, i);
      WriteKeepsApart(before, es[n], es[i], answers(n));
    } else {
      WriteStores(before, es[n], answers(n));
    }
  }

  /**
   Saving all registered records and then loading one whose own writes the bus took restores it, whatever
   its default and old revision, and however the others fared.
   */
  lemma SaveAllThenLoad(mem: seq<byte>, es: seq<Entry>, answers: nat -> nat -> bool, i: nat, default: seq<byte>,
      rev: seq<byte>)
    requires |mem| == SIZE && Disjoint(es) && i < |es| && AllTaken(answers(i))
    requires es[i].cfg[..2] == NO_REV && |default| == |es[i].cfg|
    ensures var all := SaveAll(mem, es, answers); Load(all, es[i].addr, default, rev) == Loaded(all, es[i].cfg)
  {
    hide Save, SaveAll, LittleEndian, Crc, Load;
    IsStored(mem, es, answers, i);
    var all := SaveAll(mem, es, answers);
    LoadCases(all, es[i].addr, default, rev, es[i].cfg);
    assert NO_REV + es[i].cfg[2..] == es[i].cfg;
    assert Stored(all, es[i]);
    SaveAgain(all, es[i].addr, es[i].cfg);
  }

  /** The handlers' list after registering `es` in order: each new one went to the head. */
  function Registered(es: seq<Entry>): (r: seq<Entry>)
    ensures |r| == |es| && forall i :: 0 <= i < |es| ==> r[i] == es[|es| - 1 - i]
  {
    if es == [] then [] else [es[|es| - 1]] + Registered(es[..|es| - 1])
  }

  /** The first record registered is saved last: it is stored even where later ones were given the same place. */
  lemma FirstRegisteredWins(mem: seq<byte>, es: seq<Entry>, answers: nat -> nat -> bool)
    requires |mem| == SIZE && es != [] && (forall i :: 0 <= i < |es| ==> Placed(es[i])) && AllTaken(answers(|es| - 1))
    ensures Stored(SaveAll(mem, Registered(es), answers), es[0])
  {
    hide Write, LittleEndian, Crc, Stored;
    var list, n := Registered(es), |es| - 1;
    assert list[n] == es[0];
    WriteStores(SaveAll(mem, list[..n], answers), list[n], answers(n));
  }
}
