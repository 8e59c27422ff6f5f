/**
 The EEPROM, the record functions over it and the registry of save handlers, as the firmware runs
 them: bytes written into the chip one at a time.
 */
module ConfigStore {
  import opened Crc32
  import opened EepromModel
  import opened ConfigModel

  class Eeprom {
    const mem: array<byte>
    var handlers: seq<Entry>
    ghost var registered: seq<Entry>     // in order of registration

    ghost predicate Valid()
      reads this, mem
    {
      mem.Length == SIZE && handlers == Registered(registered)
    }

    constructor (contents: seq<byte>)
      requires |contents| == SIZE
      ensures Valid() && mem[..] == contents && registered == [] && fresh(mem)
    {
      mem := new byte[SIZE](i requires 0 <= i < SIZE => contents[i]);
      handlers, registered := [], [];
    }

    /** One transaction: the chip's address counter wraps inside the page. */
    method WriteTransaction(addr: nat, data: seq<byte>)
      requires Valid() && (data != [] ==> addr < SIZE)
      modifies mem
      ensures mem[..] == WritePage(old(mem[..]), addr, data)
    {
      var j := 0;
      while j < |data|
        invariant j <= |data| && mem[..] == WritePage(old(mem[..]), addr, data[..j])
      {
        ghost var before := mem[..];
        assert data[..j + 1][..j] == data[..j];
        mem[Slot(addr, j)] := data[j];
        assert mem[..] == before[Slot(addr, j) := data[j]];
        j := j + 1;
      }
      assert data[..j] == data;
    }

    /** cat24c256_write: `acks(p)` says whether the bus takes transaction p. */
    method WriteBytes(base: nat, data: seq<byte>, acks: nat -> bool) returns (ok: bool)
      requires Valid() && base + |data| <= SIZE
      modifies mem
      ensures Written(mem[..], ok) == Write(old(mem[..]), base, data, acks)
    {
      hide WritePage;
      var pages := |data| / PAGE;
      var page := 0;
      while page <= pages
        invariant page <= pages + 1
        invariant WriteFrom(mem[..], base, data, page, acks) == Write(old(mem[..]), base, data, acks)
      {
        var offset := page * PAGE;
        var size := PAGE;
        if page == pages { size := |data| % PAGE; }
        var chunk := data[offset..offset + size];
        assert chunk == Chunk(data, page);
        if !acks(page) { return false; }
        ChunkEnds(data, page);
        WriteTransaction(base + offset, chunk);
        page := page + 1;
      }
      return true;
    }

    /** cat24c256_eeprom_erase: the pages' results are not looked at. */
    method Erase(answers: nat -> nat -> bool)
      requires Valid()
      modifies mem
      ensures mem[..] == EraseFrom(old(mem[..]), 0, answers)
    {
      hide Write;
      var page := 0;
      while page < PAGES
        invariant page <= PAGES && EraseFrom(mem[..], page, answers) == EraseFrom(old(mem[..]), 0, answers)
      {
        var _ := WriteBytes(page * PAGE, Blank(), answers(page));
        page := page + 1;
      }
    }

    /** save_config. Without memory for the buffer nothing is written. */
    method SaveConfig(addr: nat, cfg: seq<byte>, memory: bool, acks: nat -> bool) returns (ok: bool)
      requires Valid() && addr + |cfg| + CRC_BYTES <= SIZE
      modifies mem
      ensures if memory then Written(mem[..], ok) == Write(old(mem[..]), addr, Record(cfg), acks)
              else !ok && mem[..] == old(mem[..])
    {
      if !memory { return false; }
      var crc := SoftwareCrc32(cfg);
      var buf := cfg + LittleEndian(crc);
      ok := WriteBytes(addr, buf, acks);
    }

    /**
     load_config. The old configuration is kept when nothing can be read. What is written back needs memory
     of its own; `memory` and `again` say whether there is any.
     */
    method LoadConfig(addr: nat, cfg: seq<byte>, default: seq<byte>, rev: seq<byte>, memory: bool, readable: bool,
                      again: bool, acks: nat -> bool)
      returns (ok: bool, loaded: seq<byte>)
      requires Valid() && 2 <= |default| == |cfg| && addr + |default| + CRC_BYTES <= SIZE
      modifies mem
      ensures !(memory && readable) ==> !ok && loaded == cfg && mem[..] == old(mem[..])
      ensures memory && readable ==> loaded == Load(old(mem[..]), addr, default, rev).cfg
      ensures memory && readable ==>
                if !WritesBack(old(mem[..]), addr, |default|, rev) then ok && mem[..] == old(mem[..])
                else if !again then !ok && mem[..] == old(mem[..])
                else Written(mem[..], ok) == Write(old(mem[..]), addr, Record(loaded), acks)
      ensures memory && readable && again && (forall p :: acks(p)) ==>
                ok && mem[..] == Load(old(mem[..]), addr, default, rev).mem
    {
      hide LittleEndian, Write;
      if !memory || !readable { return false, cfg; }
      var n := |default|;
      var buf := mem[addr..addr + n + CRC_BYTES];
      assert buf == mem[..][addr..addr + n + CRC_BYTES];
      if buf[..2] == rev {
        loaded := buf[..n];
        loaded := NO_REV + loaded[2..];
        assert loaded == NO_REV + buf[2..n];
        AllAcksAlike(mem[..], addr, Record(loaded), acks);
        ok := SaveConfig(addr, loaded, again, acks);
        return;
      }
      var crc := SoftwareCrc32(buf[..n]);
      if buf[..2] != NO_REV || buf[n..] != LittleEndian(crc) {
        loaded := default;
        AllAcksAlike(mem[..], addr, Record(loaded), acks);
        ok := SaveConfig(addr, loaded, again, acks);
        return;
      }
      return true, buf[..n];
    }

    /** A new handler goes to the head of the list. */
    method Register(e: Entry)
      requires Valid()
      modifies this
      ensures Valid() && registered == old(registered) + [e]
    {
      assert (registered + [e])[..|registered|] == registered;
      handlers := [e] + handlers;
      registered := registered + [e];
    }

    /** eeprom_save_all: the handlers' results are not looked at. */
    method SaveEverything(answers: nat -> nat -> bool)
      requires Valid() && forall i :: 0 <= i < |registered| ==> Placed(registered[i])
      modifies mem
      ensures mem[..] == SaveAll(old(mem[..]), Registered(registered), answers)
    {
      hide Write;
      var i := 0;
      while i < |handlers|
        invariant i <= |handlers| && mem[..] == SaveAll(old(mem[..]), handlers[..i], answers)
      {
        assert handlers[..i + 1][..i] == handlers[..i];
        var _ := SaveConfig(handlers[i].addr, handlers[i].cfg, true, answers(i));
        i := i + 1;
      }
      assert handlers[..i] == handlers;
    }
  }

  /** Only the answers of the bus matter, not how they are given. */
  lemma AllAcksAlike(mem: seq<byte>, base: nat, data: seq<byte>, acks: nat -> bool)
    requires |mem| == SIZE && base + |data| <= SIZE
    ensures (forall p :: acks(p)) ==>
              Write(mem, base, data, acks) == Write(mem, base, data, _ => true) && Write(mem, base, data, acks).ok
  {
    if forall p :: acks(p) {
      AllAcksAlikeFrom(mem, base, data, 0, acks);
    }
  }

  lemma {:induction false} AllAcksAlikeFrom(mem: seq<byte>, base: nat, data: seq<byte>, p: nat, acks: nat -> bool)
    requires |mem| == SIZE && base + |data| <= SIZE && p <= |data| / PAGE + 1 && forall q :: acks(q)
    ensures WriteFrom(mem, base, data, p, acks) == WriteFrom(mem, base, data, p, _ => true)
    ensures WriteFrom(mem, base, data, p, acks).ok
    decreases |data| / PAGE + 1 - p
  {
    hide WritePage, Chunk;
    if p <= |data| / PAGE {
      ChunkEnds(data, p);
      AllAcksAlikeFrom(WritePage(mem, base + p * PAGE, Chunk(data, p)), base, data, p + 1, acks);
    }
  }
}
