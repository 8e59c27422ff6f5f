/**
 Firmware update (src/ota.c): an upload arrives in pieces of any size, is cut again into flash sectors
 and staged in the upper half of the flash, checked there, and copied over the running image.
 */
module OtaModel {
  import opened Options
  import opened Crc32

  const SECTOR: nat := 4096
  const IMAGE_LIMIT: nat := 1536 * 1024
  const ONES: byte := 0xFF

  /** What differs between boards. The flash holds a whole number of sectors in each half. */
  datatype Board = Board(flashSize: nat, vectorOffset: nat, sramBase: nat, sramEnd: nat)

  predicate Fits(b: Board) {
    b.flashSize > 0 && b.flashSize % (2 * SECTOR) == 0 && b.vectorOffset + 8 <= SECTOR
  }

  function Stage(b: Board): nat {
    b.flashSize / 2
  }

  function MaxImage(b: Board): nat {
    if Stage(b) < IMAGE_LIMIT then Stage(b) else IMAGE_LIMIT
  }

  datatype Phase = Idle | Receiving | Received | Verified | Applying | Error

  /** The apply task: made, or asleep with the length it worked out when it started. */
  datatype Task = NoTask | Created | Asleep(len: nat)

  /** `buf` is the filled part of the sector buffer; `image` all bytes taken since the upload began. */
  datatype Ota = Ota(phase: Phase, conn: Option<nat>, expected: nat, received: nat, crc: bv32,
                     buf: seq<byte>, index: nat, task: Task, flash: seq<byte>, image: seq<byte>)

  function Boot(flash: seq<byte>): Ota {
    Ota(Idle, None, 0, 0, 0, [], 0, NoTask, flash, [])
  }

  function Put(flash: seq<byte>, offset: nat, data: seq<byte>): (r: seq<byte>)
    requires offset + |data| <= |flash|
    ensures |r| == |flash|
  {
    flash[..offset] + data + flash[offset + |data|..]
  }

  function RoundUp(n: nat): nat {
    (n + SECTOR - 1) / SECTOR * SECTOR
  }

  function Ones(n: nat): (r: seq<byte>)
    ensures |r| == n
  {
    seq(n, _ => ONES)
  }

  /** Bytes followed by ones to the end of the last sector. */
  function Padded(data: seq<byte>): (r: seq<byte>)
    ensures |r| == RoundUp(|data|)
  {
    data + Ones(RoundUp(|data|) - |data|)
  }

  // ----- receiving

  /** `writes(i)` says whether the flash takes staging sector i. The sector counter moves on either way. */
  datatype Flush = Flush(s: Ota, ok: bool)

  predicate Uploading(b: Board, s: Ota) {
    && Fits(b) && |s.flash| == b.flashSize
    && |s.buf| < SECTOR && s.received == s.index * SECTOR + |s.buf| && s.received <= s.expected <= MaxImage(b)
  }

  function FlushSector(b: Board, s: Ota, writes: nat -> bool): (f: Flush)
    requires Fits(b) && |s.flash| == b.flashSize && |s.buf| <= SECTOR
    requires s.buf != [] ==> (s.index + 1) * SECTOR <= Stage(b)
    ensures |f.s.flash| == b.flashSize
  {
    if s.buf == [] then Flush(s, true)
    else
      var sector := s.buf + Ones(SECTOR - |s.buf|);
      var ok := writes(s.index);
      Flush(s.(flash := if ok then Put(s.flash, Stage(b) + s.index * SECTOR, sector) else s.flash,
               index := s.index + 1, buf := []), ok)
  }

  function Take(s: Ota, bytes: seq<byte>): Ota {
    s.(buf := s.buf + bytes, received := s.received + |bytes|, image := s.image + bytes)
  }

  function Smaller(a: nat, b: nat): nat {
    if a < b then a else b
  }

  /** One stretch of bytes: fill the buffer, flush it when it is full, go on with the rest. */
  function Feed(b: Board, s: Ota, bytes: seq<byte>, writes: nat -> bool): (f: Flush)
    requires Uploading(b, s) && s.received + |bytes| <= s.expected
    ensures |f.s.flash| == b.flashSize && f.s.expected == s.expected
    ensures f.ok ==> Uploading(b, f.s) && f.s.received == s.received + |bytes|
    decreases |bytes|
  {
    if bytes == [] then Flush(s, true)
    else
      var n := Smaller(|bytes|, SECTOR - |s.buf|);
      var t := Take(s, bytes[..n]);
      if |t.buf| < SECTOR then Flush(t, true)
      else
        SectorFits(b, t);
        var f := FlushSector(b, t, writes);
        if f.ok then Feed(b, f.s, bytes[n..], writes) else f
  }

  lemma SectorFits(b: Board, t: Ota)
    requires Fits(b) && |t.buf| <= SECTOR
    requires t.received == t.index * SECTOR + |t.buf| && t.received <= MaxImage(b)
    ensures t.buf != [] ==> (t.index + 1) * SECTOR <= Stage(b)
  {
    var h := b.flashSize / (2 * SECTOR);
    assert b.flashSize == 2 * SECTOR * h && Stage(b) == SECTOR * h;
    assert t.buf != [] ==> t.index < h;
  }

  function Flatten(chain: seq<seq<byte>>): seq<byte> {
    if chain == [] then [] else chain[0] + Flatten(chain[1..])
  }

  /** A chain of buffers, one after another. */
  function FeedChain(b: Board, s: Ota, chain: seq<seq<byte>>, writes: nat -> bool): (f: Flush)
    requires Uploading(b, s) && s.received + |Flatten(chain)| <= s.expected
    ensures |f.s.flash| == b.flashSize
    ensures f.ok ==> Uploading(b, f.s) && f.s.expected == s.expected
    decreases |chain|
  {
    if chain == [] then Flush(s, true)
    else
      var f := Feed(b, s, chain[0], writes);
      if f.ok then FeedChain(b, f.s, chain[1..], writes) else f
  }

  // ----- the entry points

  /** httpd_post_begin; `upload` says that the address is the upload's. */
  function Begin(b: Board, s: Ota, conn: nat, upload: bool, length: int): Ota {
    if !upload || s.phase == Applying || s.phase == Receiving then s
    else if length <= 0 || length > MaxImage(b) then s.(phase := Error)
    else s.(phase := Receiving, conn := Some(conn), expected := length, received := 0, crc := 0, buf := [],
        index := 0, image := [])
  }

  /** httpd_post_receive_data. */
  function Receive(b: Board, s: Ota, conn: nat, chain: seq<seq<byte>>, writes: nat -> bool): Ota
    requires s.phase == Receiving ==> Uploading(b, s)
  {
    if s.conn != Some(conn) || s.phase != Receiving then s
    else if |Flatten(chain)| > s.expected - s.received then s.(phase := Error)
    else
      var f := FeedChain(b, s, chain, writes);
      if f.ok then f.s else f.s.(phase := Error)
  }

  /** httpd_post_finished. */
  function Finish(b: Board, s: Ota, conn: nat, writes: nat -> bool): Ota
    requires s.phase == Receiving ==> Uploading(b, s)
  {
    if s.conn != Some(conn) then s
    else if s.phase != Receiving then s.(conn := None)
    else
      SectorFits(b, s);
      var f := FlushSector(b, s, writes);
      f.s.(phase := if f.ok && f.s.received == f.s.expected then Received else Error, conn := None)
  }

  function Word(data: seq<byte>, at: nat): nat
    requires at + 4 <= |data|
  {
    data[at] as nat + 0x100 * (data[at + 1] as nat)
    + 0x1_0000 * (data[at + 2] as nat) + 0x100_0000 * (data[at + 3] as nat)
  }

  /** staged_image_plausible: `data` starts where the image does. */
  predicate Plausible(b: Board, data: seq<byte>, len: nat)
    requires Fits(b) && |data| >= SECTOR
  {
    var sp, reset := Word(data, b.vectorOffset), Word(data, b.vectorOffset + 4);
    && len >= SECTOR
    && b.sramBase <= sp <= b.sramEnd && sp % 8 == 0
    && 0x1000_0000 <= reset < 0x1000_0000 + len && reset % 2 == 1
  }

  datatype Action = Reset | Verify(crc: Option<bv32>) | Apply(taskStarted: bool) | Look

  /** http_rest_ota_state. */
  function Rest(b: Board, s: Ota, action: Action): Ota
    requires Fits(b) && |s.flash| == b.flashSize && s.received <= MaxImage(b)
  {
    match action
    case Reset =>
      if s.phase == Applying || s.phase == Receiving then s else s.(phase := Idle, received := 0, expected := 0)
    case Verify(crc) =>
      if s.phase != Received || crc.None? then s
      else
        var staged := s.flash[Stage(b)..];
        var actual := Crc(staged[..s.received]);
        s.(crc := actual,
           phase := if actual != crc.value || !Plausible(b, staged, s.received) then Error else Verified)
    case Apply(taskStarted) =>
      if s.phase != Verified then s
      else if taskStarted then s.(phase := Applying, task := Created)
      else s.(phase := Error)
    case Look => s
  }

  /** ota_apply_job from sector offset `off` on: staging is read through the same flash that is written. */
  function CopyFrom(b: Board, flash: seq<byte>, off: nat, len: nat): (r: seq<byte>)
    requires Fits(b) && |flash| == b.flashSize && off <= len <= Stage(b) && off % SECTOR == 0 && len % SECTOR == 0
    ensures |r| == |flash|
    decreases len - off
  {
    if off == len then flash
    else
      CopyFrom(b, Put(flash, off, flash[Stage(b) + off..Stage(b) + off + SECTOR]), off + SECTOR, len)
  }

  /** ota_apply_task gets going: it works out how much to copy, and then lets the response go out. */
  function StartTask(s: Ota): Ota {
    if s.task.Created? then s.(task := Asleep(RoundUp(s.received))) else s
  }

  /**
   The rest of it, whatever has happened since: without the other core parked nothing is copied; with
   it parked the copy ends in a reset.
   */
  function RunApply(b: Board, s: Ota, parked: bool): Ota
    requires Fits(b) && |s.flash| == b.flashSize
    requires s.task.Asleep? ==> s.task.len <= Stage(b) && s.task.len % SECTOR == 0
  {
    if !s.task.Asleep? then s
    else if !parked then s.(phase := Error, task := NoTask)
    else Boot(CopyFrom(b, s.flash, 0, s.task.len))
  }

  lemma RoundUpFits(b: Board, n: nat)
    requires Fits(b) && n <= MaxImage(b)
    ensures RoundUp(n) <= Stage(b) && RoundUp(n) % SECTOR == 0
  {
    var h := b.flashSize / (2 * SECTOR);
    assert b.flashSize == 2 * SECTOR * h && Stage(b) == SECTOR * h;
    assert (n + SECTOR - 1) / SECTOR <= h;
  }
}
