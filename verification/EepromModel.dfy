/**
 The EEPROM chip and the paged writes to it (src/cat24c256_eeprom.c). The chip takes a write's bytes
 into one 64-byte page: past the page's end it goes on at the page's start.
 */
module EepromModel {
  import opened Crc32

  const PAGE: nat := 64
  const PAGES: nat := 512
  const SIZE: nat := 32768

  /** Where the chip puts byte j of a write at addr. */
  function Slot(addr: nat, j: nat): nat {
    addr / PAGE * PAGE + (addr % PAGE + j) % PAGE
  }

  /** One write transaction. */
  function WritePage(mem: seq<byte>, addr: nat, data: seq<byte>): (r: seq<byte>)
    requires |mem| == SIZE && (data != [] ==> addr < SIZE)
    ensures |r| == SIZE
  {
    if data == [] then mem
    else WritePage(mem, addr, data[..|data| - 1])[Slot(addr, |data| - 1) := data[|data| - 1]]
  }

  /** The transaction for page p of a write of `len` bytes: whole pages, then what is left over. */
  function Chunk(data: seq<byte>, p: nat): seq<byte>
    requires p <= |data| / PAGE
  {
    if p == |data| / PAGE then data[p * PAGE..] else data[p * PAGE..(p + 1) * PAGE]
  }

  datatype Written = Written(mem: seq<byte>, ok: bool)

  /** Pages p and up. The first transaction the bus refuses ends the write. */
  function WriteFrom(mem: seq<byte>, base: nat, data: seq<byte>, p: nat, acks: nat -> bool): (w: Written)
    requires |mem| == SIZE && base + |data| <= SIZE && p <= |data| / PAGE + 1
    ensures |w.mem| == SIZE
    decreases |data| / PAGE + 1 - p
  {
    if p > |data| / PAGE then Written(mem, true)
    else if !acks(p) then Written(mem, false)
    else WriteFrom(WritePage(mem, base + p * PAGE, Chunk(data, p)), base, data, p + 1, acks)
  }

  function Write(mem: seq<byte>, base: nat, data: seq<byte>, acks: nat -> bool): (w: Written)
    requires |mem| == SIZE && base + |data| <= SIZE
    ensures |w.mem| == SIZE
  {
    WriteFrom(mem, base, data, 0, acks)
  }

  function Flat(mem: seq<byte>, base: nat, data: seq<byte>): (r: seq<byte>)
    requires |mem| == SIZE && base + |data| <= SIZE
    ensures |r| == SIZE
  {
    mem[..base] + data + mem[base + |data|..]
  }

  /** No page boundary of the write falls inside a transaction. */
  predicate Fits(base: nat, len: nat) {
    base % PAGE == 0 || base % PAGE + len <= PAGE
  }

  // ----- where it fits, a paged write is a flat one

  lemma SlotInPage(addr: nat, j: nat)
    requires addr % PAGE + j < PAGE
    ensures Slot(addr, j) == addr + j
  {
  }

  lemma {:induction false} PageIsFlat(mem: seq<byte>, addr: nat, data: seq<byte>)
    requires |mem| == SIZE && addr % PAGE + |data| <= PAGE && addr + |data| <= SIZE
    ensures WritePage(mem, addr, data) == Flat(mem, addr, data)
  {
    if data != [] {
      var n := |data| - 1;
      PageIsFlat(mem, addr, data[..n]);
      SlotInPage(addr, n);
      assert Flat(mem, addr, data[..n])[addr + n := data[n]] == Flat(mem, addr, data);
    } else {
      assert Flat(mem, addr, []) == mem;
    }
  }

  lemma ChunkEnds(data: seq<byte>, p: nat)
    requires p <= |data| / PAGE
    ensures p * PAGE + |Chunk(data, p)| == (if p == |data| / PAGE then |data| else (p + 1) * PAGE)
    ensures |Chunk(data, p)| <= PAGE
  {
  }

  lemma FlatGrows(mem: seq<byte>, base: nat, data: seq<byte>, a: nat, b: nat)
    requires |mem| == SIZE && base + |data| <= SIZE && a <= b <= |data|
    ensures Flat(Flat(mem, base, data[..a]), base + a, data[a..b]) == Flat(mem, base, data[..b])
  {
  }

  /** How many bytes get through, from page p on, before the bus refuses a transaction. */
  function Through(data: seq<byte>, p: nat, acks: nat -> bool): (n: nat)
    requires p <= |data| / PAGE + 1
    ensures n <= |data|
    decreases |data| / PAGE + 1 - p
  {
    if p > |data| / PAGE then |data| else if !acks(p) then p * PAGE else Through(data, p + 1, acks)
  }

  lemma ChunkWritten(mem: seq<byte>, base: nat, data: seq<byte>, p: nat)
    requires |mem| == SIZE && base + |data| <= SIZE && p <= |data| / PAGE && Fits(base, |data|)
    ensures var chunk := Chunk(data, p);
            && p * PAGE + |chunk| <= |data|
            && WritePage(Flat(mem, base, data[..p * PAGE]), base + p * PAGE, chunk)
               == Flat(mem, base, data[..p * PAGE + |chunk|])
  {
    hide WritePage, Flat;
    var addr, chunk := base + p * PAGE, Chunk(data, p);
    var end := p * PAGE + |chunk|;
    ChunkEnds(data, p);
    assert chunk == data[p * PAGE..end];
    assert addr % PAGE + |chunk| <= PAGE by {
      assert addr % PAGE == base % PAGE;
    }
    PageIsFlat(Flat(mem, base, data[..p * PAGE]), addr, chunk);
    FlatGrows(mem, base, data, p * PAGE, end);
  }

  /** Where it fits, a write that the bus breaks off is the flat write of what got through before. */
  lemma {:induction false} FromIsPrefix(mem: seq<byte>, base: nat, data: seq<byte>, p: nat, acks: nat -> bool)
    requires |mem| == SIZE && base + |data| <= SIZE && p <= |data| / PAGE && Fits(base, |data|)
    ensures var w := WriteFrom(Flat(mem, base, data[..p * PAGE]), base, data, p, acks);
            w.mem == Flat(mem, base, data[..Through(data, p, acks)]) && (w.ok ==> Through(data, p, acks) == |data|)
    ensures (forall q :: acks(q)) ==> WriteFrom(Flat(mem, base, data[..p * PAGE]), base, data, p, acks).ok
    decreases |data| / PAGE - p
  {
    hide WritePage, Flat, Fits, Chunk;
    if acks(p) {
      ChunkWritten(mem, base, data, p);
      ChunkEnds(data, p);
      if p == |data| / PAGE {
        assert data[..|data|] == data;
      } else {
        FromIsPrefix(mem, base, data, p + 1, acks);
      }
    }
  }

  lemma FromIsFlat(mem: seq<byte>, base: nat, data: seq<byte>, acks: nat -> bool)
    requires |mem| == SIZE && base + |data| <= SIZE && Fits(base, |data|) && forall q :: acks(q)
    ensures Write(mem, base, data, acks) == Written(Flat(mem, base, data), true)
  {
    hide WriteFrom;
    WriteIsPrefix(mem, base, data, acks);
    assert data[..|data|] == data;
  }

  /** The same for a whole write: only a prefix of the data gets anywhere, and all of it if the write succeeds. */
  lemma WriteIsPrefix(mem: seq<byte>, base: nat, data: seq<byte>, acks: nat -> bool)
    requires |mem| == SIZE && base + |data| <= SIZE && Fits(base, |data|)
    ensures var w := Write(mem, base, data, acks);
            w.mem == Flat(mem, base, data[..Through(data, 0, acks)]) && (w.ok ==> Through(data, 0, acks) == |data|)
    ensures (forall q :: acks(q)) ==> Write(mem, base, data, acks).ok
  {
    hide WriteFrom, Through;
    assert data[..0] == [];
    EmptyFlat(mem, base);
    FromIsPrefix(mem, base, data, 0, acks);
  }

  // ----- where it does not, some data goes wrong

  /** A page's own transaction puts the bytes past the page's end at its start. */
  lemma {:induction false} Wraps(mem: seq<byte>, addr: nat, data: seq<byte>, x: byte)
    requires |mem| == SIZE && (data != [] ==> addr < SIZE) && |data| <= PAGE
    requires forall j :: 0 <= j < |data| ==> data[j] == x
    ensures var r := WritePage(mem, addr, data);
            && (addr % PAGE + |data| > PAGE ==> r[addr / PAGE * PAGE] == x)
            && (forall k :: 0 <= k < SIZE && k / PAGE != addr / PAGE ==> r[k] == mem[k])
  {
    if data != [] {
      Wraps(mem, addr, data[..|data| - 1], x);
    }
  }

  lemma {:induction false} LaterPagesMiss(mem: seq<byte>, base: nat, data: seq<byte>, p: nat, k: nat, acks: nat -> bool)
    requires |mem| == SIZE && base + |data| <= SIZE && 1 <= p <= |data| / PAGE + 1 && k < SIZE
             && k / PAGE == base / PAGE
    requires forall j :: 0 <= j < |data| ==> data[j] == 1
    ensures WriteFrom(mem, base, data, p, acks).mem[k] == mem[k]
    decreases |data| / PAGE + 1 - p
  {
    hide WritePage, Chunk;
    if p <= |data| / PAGE && acks(p) {
      ChunkOfOnes(data, p);
      Wraps(mem, base + p * PAGE, Chunk(data, p), 1);
      assert (base + p * PAGE) / PAGE == base / PAGE + p;
      LaterPagesMiss(WritePage(mem, base + p * PAGE, Chunk(data, p)), base, data, p + 1, k, acks);
    }
  }

  lemma ChunkOfOnes(data: seq<byte>, p: nat)
    requires p <= |data| / PAGE && forall j :: 0 <= j < |data| ==> data[j] == 1
    ensures |Chunk(data, p)| <= PAGE
    ensures p * PAGE + |Chunk(data, p)| == (if p == |data| / PAGE then |data| else (p + 1) * PAGE)
    ensures forall j :: 0 <= j < |Chunk(data, p)| ==> Chunk(data, p)[j] == 1
  {
  }

  lemma MisalignedGoesWrong(base: nat, len: nat, acks: nat -> bool)
    requires base + len <= SIZE && !Fits(base, len) && forall q :: acks(q)
    ensures var zeros: seq<byte> := seq(SIZE, _ => 0);
            var ones: seq<byte> := seq(len, _ => 1);
            Write(zeros, base, ones, acks).mem != Flat(zeros, base, ones)
  {
    hide WritePage, Chunk;
    var zeros: seq<byte> := seq(SIZE, _ => 0);
    var ones: seq<byte> := seq(len, _ => 1);
    var start := base / PAGE * PAGE;
    ChunkOfOnes(ones, 0);
    FirstChunk(ones);
    Wraps(zeros, base, Chunk(ones, 0), 1);
    var first := WritePage(zeros, base, Chunk(ones, 0));
    LaterPagesMiss(first, base, ones, 1, start, acks);
    assert Write(zeros, base, ones, acks) == WriteFrom(first, base, ones, 1, acks) by {
      assert base + 0 * PAGE == base;
    }
    assert Flat(zeros, base, ones)[start] == 0;
  }

  lemma FirstChunk(data: seq<byte>)
    ensures |Chunk(data, 0)| == if |data| < PAGE then |data| else PAGE
  {
  }

  /**
   With the bus working, a paged write of `len` bytes at `base` is the flat write for every memory and
   every data exactly when the base is on a page boundary or the write stays inside its first page.
   */
  lemma PagedIsFlatIff(base: nat, len: nat, acks: nat -> bool)
    requires base + len <= SIZE && forall q :: acks(q)
    ensures Fits(base, len) <==>
            forall mem: seq<byte>, data: seq<byte> | |mem| == SIZE && |data| == len ::
              Write(mem, base, data, acks) == Written(Flat(mem, base, data), true)
  {
    hide WriteFrom, Flat;
    if Fits(base, len) {
      forall mem: seq<byte>, data: seq<byte> | |mem| == SIZE && |data| == len
        ensures Write(mem, base, data, acks) == Written(Flat(mem, base, data), true)
      {
        FromIsFlat(mem, base, data, acks);
        EmptyFlat(mem, base);
        assert data[..0] == [];
      }
    } else {
      MisalignedGoesWrong(base, len, acks);
      var zeros: seq<byte> := seq(SIZE, _ => 0);
      var ones: seq<byte> := seq(len, _ => 1);
      assert Write(zeros, base, ones, acks) != Written(Flat(zeros, base, ones), true);
    }
  }

  lemma EmptyFlat(mem: seq<byte>, base: nat)
    requires |mem| == SIZE && base <= SIZE
    ensures Flat(mem, base, []) == mem
  {
  }

  // ----- erasing

  /**
   cat24c256_eeprom_erase: one page write of ones after another, from page p on, whatever becomes of them.
   `answers(p)` says how the bus takes the transactions of page p.
   */
  function EraseFrom(mem: seq<byte>, p: nat, answers: nat -> nat -> bool): (r: seq<byte>)
    requires |mem| == SIZE && p <= PAGES
    ensures |r| == SIZE
    decreases PAGES - p
  {
    if p == PAGES then mem else EraseFrom(Write(mem, p * PAGE, Blank(), answers(p)).mem, p + 1, answers)
  }

  function Blank(): (r: seq<byte>)
    ensures |r| == PAGE && forall j :: 0 <= j < PAGE ==> r[j] == 0xFF
  {
    seq(PAGE, _ => 0xFF)
  }

  /** A page is blanked exactly when the bus takes its bytes; otherwise it stays as it was. */
  lemma BlankPage(mem: seq<byte>, p: nat, acks: nat -> bool)
    requires |mem| == SIZE && p < PAGES
    ensures var r := Write(mem, p * PAGE, Blank(), acks).mem;
            forall k :: 0 <= k < SIZE ==> r[k] == if k / PAGE == p && acks(0) then 0xFF else mem[k]
  {
    hide Write;
    WriteIsPrefix(mem, p * PAGE, Blank(), acks);
    var got := Through(Blank(), 0, acks);
    assert got == if acks(0) then PAGE else 0;
    assert Blank()[..got] == if acks(0) then Blank() else [];
  }

  /** An erase leaves ones in every page that the bus took, and every other page as it was. */
  lemma {:induction false} EraseBlanks(mem: seq<byte>, p: nat, answers: nat -> nat -> bool)
    requires |mem| == SIZE && p <= PAGES
    ensures forall k :: 0 <= k < SIZE ==>
              EraseFrom(mem, p, answers)[k] == if p <= k / PAGE && answers(k / PAGE)(0) then 0xFF else mem[k]
    decreases PAGES - p
  {
    hide Write, Blank;
    if p < PAGES {
      BlankPage(mem, p, answers(p));
      EraseBlanks(Write(mem, p * PAGE, Blank(), answers(p)).mem, p + 1, answers);
    } else {
      assert forall k :: 0 <= k < SIZE ==> k / PAGE < PAGES;
    }
  }
}
