/**
 Staging does not depend on how the upload was cut, and the running image is only ever replaced by a
 complete upload that was checked.
 */
module OtaSafety {
  import opened Crc32
  import opened Options
  import opened OtaModel

  // ----- cutting

  /** Two stretches in a row do what their concatenation does, also when the flash refuses a sector. */
  lemma {:induction false} FeedConcat(b: Board, s: Ota, x: seq<byte>, y: seq<byte>, writes: nat -> bool)
    requires Uploading(b, s) && s.received + |x| + |y| <= s.expected
    ensures var f := Feed(b, s, x, writes);
            Feed(b, s, x + y, writes) == if f.ok then Feed(b, f.s, y, writes) else f
    decreases |x|
  {
    hide FlushSector;
    if x == [] {
      assert x + y == y;
    } else {
      var space := SECTOR - |s.buf|;
      if |x| < space {
        ShortStretch(b, s, x, y, writes);
      } else {
        var t := Take(s, x[..space]);
        assert (x + y)[..space] == x[..space] && (x + y)[space..] == x[space..] + y;
        SectorFits(b, t);
        var f := FlushSector(b, t, writes);
        FlushedIsUploading(b, t, writes);
        if f.ok {
          FeedConcat(b, f.s, x[space..], y, writes);
        }
      }
    }
  }

  lemma FlushedIsUploading(b: Board, t: Ota, writes: nat -> bool)
    requires Fits(b) && |t.flash| == b.flashSize && |t.buf| == SECTOR && t.received <= t.expected <= MaxImage(b)
    requires t.received == t.index * SECTOR + |t.buf| && (t.index + 1) * SECTOR <= Stage(b)
    ensures var f := FlushSector(b, t, writes);
            Uploading(b, f.s) && f.s.received == t.received && f.s.expected == t.expected
  {
  }

  /** A stretch that does not fill the buffer just waits in front of the next one. */
  lemma ShortStretch(b: Board, s: Ota, x: seq<byte>, y: seq<byte>, writes: nat -> bool)
    requires Uploading(b, s) && s.received + |x| + |y| <= s.expected && 0 < |x| < SECTOR - |s.buf|
    ensures Feed(b, s, x, writes) == Flush(Take(s, x), true)
    ensures Feed(b, s, x + y, writes) == Feed(b, Take(s, x), y, writes)
  {
    hide FlushSector, Feed;
    FeedUnfolds(b, s, x, writes);
    assert x[..|x|] == x;
    if y == [] {
      assert x + y == x;
      NothingFed(b, Take(s, x), writes);
    } else {
      ThenMore(b, s, x, y, writes);
    }
  }

  lemma ThenMore(b: Board, s: Ota, x: seq<byte>, y: seq<byte>, writes: nat -> bool)
    requires Uploading(b, s) && s.received + |x| + |y| <= s.expected && 0 < |x| < SECTOR - |s.buf| && y != []
    ensures Uploading(b, Take(s, x)) && Feed(b, s, x + y, writes) == Feed(b, Take(s, x), y, writes)
  {
    hide FlushSector, Feed, Take;
    assert Uploading(b, Take(s, x)) && Take(s, x).expected == s.expected && Take(s, x).received == s.received + |x|
           && |Take(s, x).buf| == |s.buf| + |x| by {
      TakeAdds(s, x);
    }
    var n := Smaller(|y|, SECTOR - |s.buf| - |x|);
    assert (x + y)[..|x| + n] == x + y[..n] && (x + y)[|x| + n..] == y[n..];
    TakeTwice(s, x, y[..n]);
    FeedUnfolds(b, s, x + y, writes);
    FeedUnfolds(b, Take(s, x), y, writes);
    assert Smaller(|x + y|, SECTOR - |s.buf|) == |x| + n;
  }

  lemma TakeAdds(s: Ota, x: seq<byte>)
    ensures var t := Take(s, x);
            && t.expected == s.expected && t.received == s.received + |x| && |t.buf| == |s.buf| + |x|
            && t.flash == s.flash && t.index == s.index
  {
  }

  lemma TakeTwice(s: Ota, x: seq<byte>, y: seq<byte>)
    ensures Take(s, x + y) == Take(Take(s, x), y)
  {
    assert s.buf + (x + y) == s.buf + x + y && s.image + (x + y) == s.image + x + y;
  }

  lemma {:induction false} ChainIsFeed(b: Board, s: Ota, chain: seq<seq<byte>>, writes: nat -> bool)
    requires Uploading(b, s) && s.received + |Flatten(chain)| <= s.expected
    ensures FeedChain(b, s, chain, writes) == Feed(b, s, Flatten(chain), writes)
    decreases |chain|
  {
    hide Feed;
    if chain == [] {
      NothingFed(b, s, writes);
    } else {
      FeedConcat(b, s, chain[0], Flatten(chain[1..]), writes);
      var f := Feed(b, s, chain[0], writes);
      if f.ok {
        ChainIsFeed(b, f.s, chain[1..], writes);
      }
    }
  }

  lemma NothingFed(b: Board, s: Ota, writes: nat -> bool)
    requires Uploading(b, s)
    ensures Feed(b, s, [], writes) == Flush(s, true)
  {
  }

  // ----- what staging holds

  /** The sectors written and the buffer are the bytes taken so far, in order. */
  predicate InOrder(b: Board, s: Ota) {
    && Uploading(b, s) && |s.image| == s.received && s.index * SECTOR <= Stage(b)
    && s.flash[Stage(b)..Stage(b) + s.index * SECTOR] + s.buf == s.image
  }

  predicate SameRunningHalf(b: Board, x: seq<byte>, y: seq<byte>) {
    |x| == |y| == b.flashSize && x[..Stage(b)] == y[..Stage(b)]
  }

  lemma PutAbove(flash: seq<byte>, stage: nat, offset: nat, data: seq<byte>)
    requires stage + offset + |data| <= |flash|
    ensures var r := Put(flash, stage + offset, data);
            r[..stage] == flash[..stage] && r[stage..stage + offset + |data|] == flash[stage..stage + offset] + data
  {
  }

  /** A full buffer that the flash takes joins the sectors before it. */
  lemma FullSectorInOrder(b: Board, t: Ota, writes: nat -> bool)
    requires Fits(b) && |t.flash| == b.flashSize && |t.buf| == SECTOR && t.received <= t.expected <= MaxImage(b)
    requires t.received == t.index * SECTOR + |t.buf| && (t.index + 1) * SECTOR <= Stage(b) && |t.image| == t.received
    requires t.flash[Stage(b)..Stage(b) + t.index * SECTOR] + t.buf == t.image
    ensures var f := FlushSector(b, t, writes);
            && SameRunningHalf(b, f.s.flash, t.flash) && f.s.image == t.image
            && (f.ok ==> InOrder(b, f.s))
  {
    assert t.buf + Ones(0) == t.buf;
    PutAbove(t.flash, Stage(b), t.index * SECTOR, t.buf);
  }

  lemma {:induction false} FeedKeepsRest(b: Board, s: Ota, bytes: seq<byte>, writes: nat -> bool)
    requires Uploading(b, s) && s.received + |bytes| <= s.expected
    ensures var f := Feed(b, s, bytes, writes);
            && SameRunningHalf(b, f.s.flash, s.flash)
            && f.s.phase == s.phase && f.s.conn == s.conn && f.s.task == s.task
            && f.s.expected == s.expected && f.s.received <= s.expected
    decreases |bytes|
  {
    hide FlushSector;
    if bytes != [] {
      var n := Smaller(|bytes|, SECTOR - |s.buf|);
      var t := Take(s, bytes[..n]);
      if |t.buf| == SECTOR {
        SectorFits(b, t);
        FlushKeepsRest(b, t, writes);
        FlushedIsUploading(b, t, writes);
        var f := FlushSector(b, t, writes);
        if f.ok {
          FeedKeepsRest(b, f.s, bytes[n..], writes);
        }
      }
    }
  }

  lemma FeedUnfolds(b: Board, s: Ota, bytes: seq<byte>, writes: nat -> bool)
    requires Uploading(b, s) && s.received + |bytes| <= s.expected && bytes != []
    ensures var n := Smaller(|bytes|, SECTOR - |s.buf|);
            var t := Take(s, bytes[..n]);
            if |t.buf| < SECTOR then n == |bytes| && Feed(b, s, bytes, writes) == Flush(t, true)
            else
              && (t.index + 1) * SECTOR <= Stage(b)
              && var f := FlushSector(b, t, writes);
              && (f.ok ==> Uploading(b, f.s) && f.s.received == s.received + n && f.s.expected == s.expected)
              && Feed(b, s, bytes, writes) == if f.ok then Feed(b, f.s, bytes[n..], writes) else f
  {
    hide Put;
    SectorFits(b, Take(s, bytes[..Smaller(|bytes|, SECTOR - |s.buf|)]));
  }

  lemma {:induction false} FeedInOrder(b: Board, s: Ota, bytes: seq<byte>, writes: nat -> bool)
    requires InOrder(b, s) && s.received + |bytes| <= s.expected
    ensures var f := Feed(b, s, bytes, writes);
            f.ok ==> InOrder(b, f.s) && f.s.image == s.image + bytes
    decreases |bytes|
  {
    hide FlushSector, Feed, InOrder;
    InOrderIsUploading(b, s);
    if bytes == [] {
      NothingFed(b, s, writes);
      assert s.image + bytes == s.image;
    } else {
      var n := Smaller(|bytes|, SECTOR - |s.buf|);
      var t := Take(s, bytes[..n]);
      FeedUnfolds(b, s, bytes, writes);
      TakenInOrder(b, s, bytes[..n]);
      if |t.buf| == SECTOR {
        SectorFits(b, t);
        FullSectorInOrder(b, t, writes);
        var f := FlushSector(b, t, writes);
        if f.ok {
          FeedInOrder(b, f.s, bytes[n..], writes);
          assert s.image + bytes[..n] + bytes[n..] == s.image + bytes;
        }
      } else {
        assert bytes[..n] == bytes;
      }
    }
  }

  lemma InOrderIsUploading(b: Board, s: Ota)
    requires InOrder(b, s)
    ensures Uploading(b, s) && |s.image| == s.received && s.index * SECTOR <= Stage(b)
  {
  }

  lemma TakenInOrder(b: Board, s: Ota, bytes: seq<byte>)
    requires InOrder(b, s)
    ensures var t := Take(s, bytes);
            && t.flash[Stage(b)..Stage(b) + t.index * SECTOR] + t.buf == t.image && |t.image| == t.received
            && (|t.buf| < SECTOR && t.received <= t.expected ==> InOrder(b, t))
  {
    assert s.flash[Stage(b)..Stage(b) + s.index * SECTOR] + (s.buf + bytes) == s.image + bytes;
  }

  lemma FlushKeepsRest(b: Board, t: Ota, writes: nat -> bool)
    requires Fits(b) && |t.flash| == b.flashSize && |t.buf| <= SECTOR
    requires t.buf != [] ==> (t.index + 1) * SECTOR <= Stage(b)
    ensures var f := FlushSector(b, t, writes);
            f.s.phase == t.phase && f.s.conn == t.conn && f.s.expected == t.expected && f.s.received == t.received
            && f.s.task == t.task && f.s.image == t.image && SameRunningHalf(b, f.s.flash, t.flash)
  {
  }

  /** The last sector goes out with ones behind the bytes. */
  lemma LastSectorStaged(b: Board, s: Ota, writes: nat -> bool)
    requires InOrder(b, s) && (s.buf != [] ==> (s.index + 1) * SECTOR <= Stage(b))
    ensures var f := FlushSector(b, s, writes);
            && SameRunningHalf(b, f.s.flash, s.flash)
            && (f.ok ==> RoundUp(s.received) <= Stage(b)
                         && f.s.flash[Stage(b)..Stage(b) + RoundUp(s.received)] == Padded(s.image))
  {
    if s.buf == [] {
      assert RoundUp(s.received) == s.index * SECTOR;
      assert s.image + Ones(0) == s.image;
    } else {
      assert RoundUp(s.received) == (s.index + 1) * SECTOR;
      var ones := Ones(SECTOR - |s.buf|);
      PutAbove(s.flash, Stage(b), s.index * SECTOR, s.buf + ones);
      assert s.flash[Stage(b)..Stage(b) + s.index * SECTOR] + (s.buf + ones) == s.image + ones;
    }
  }

  // ----- every run

  datatype Event =
    | Begin(conn: nat, upload: bool, length: int)
    | Data(conn: nat, chain: seq<seq<byte>>, writes: nat -> bool)
    | Finish(conn: nat, writes: nat -> bool)
    | Rest(action: Action)
    | TaskStarts
    | Flash(parked: bool)

  /** What the staging half holds once an upload is complete: the image, and ones to the sector's end. */
  predicate Staged(b: Board, s: Ota) {
    && |s.image| == s.received == s.expected && 0 < s.received <= MaxImage(b)
    && |s.flash| == b.flashSize && RoundUp(s.received) <= Stage(b)
    && s.flash[Stage(b)..Stage(b) + RoundUp(s.received)] == Padded(s.image)
  }

  // ----- what a firmware image looks like

  /** Four bytes, low byte first. */
  function Low4(data: seq<byte>, at: nat): nat
    requires at + 4 <= |data|
  {
    ((data[at + 3] as nat * 256 + data[at + 2] as nat) * 256 + data[at + 1] as nat) * 256 + data[at] as nat
  }

  /**
   A sector at least; where the vector table is, first a stack pointer into the memory, on a boundary of eight,
   and then the odd address of a routine inside the image.
   */
  predicate LooksLikeFirmware(b: Board, image: seq<byte>)
    requires Fits(b)
  {
    && |image| >= 4096
    && b.sramBase <= Low4(image, b.vectorOffset) <= b.sramEnd && Low4(image, b.vectorOffset) % 8 == 0
    && 0x1000_0000 <= Low4(image, b.vectorOffset + 4) < 0x1000_0000 + |image|
    && Low4(image, b.vectorOffset + 4) % 2 == 1
  }

  lemma WordIsLow4(data: seq<byte>, at: nat)
    requires at + 4 <= |data|
    ensures Word(data, at) == Low4(data, at)
  {
  }

  lemma PlausibleIs(b: Board, image: seq<byte>)
    requires Fits(b) && |image| >= SECTOR
    ensures Plausible(b, image, |image|) <==> LooksLikeFirmware(b, image)
  {
    hide Word, Low4;
    WordIsLow4(image, b.vectorOffset);
    WordIsLow4(image, b.vectorOffset + 4);
  }

  /** The image was looked at: the CRC shown is its own, and it looks like firmware. */
  predicate Checked(b: Board, s: Ota)
    requires Fits(b)
  {
    s.crc == Crc(s.image) && LooksLikeFirmware(b, s.image)
  }

  predicate Sound(b: Board, s: Ota) {
    && Fits(b) && |s.flash| == b.flashSize && s.received <= MaxImage(b)
    && (s.phase == Receiving ==> InOrder(b, s) && 0 < s.expected)
    && (s.phase == Received ==> Staged(b, s))
    && (s.phase == Verified || s.phase == Applying ==> Staged(b, s) && Checked(b, s))
    && (!s.task.NoTask? <==> s.phase == Applying)
    && (s.task.Asleep? ==> s.task.len == RoundUp(s.received))
  }

  function Step(b: Board, s: Ota, e: Event): Ota
    requires Sound(b, s)
  {
    match e
    case Begin(conn, upload, length) => OtaModel.Begin(b, s, conn, upload, length)
    case Data(conn, chain, writes) => Receive(b, s, conn, chain, writes)
    case Finish(conn, writes) => OtaModel.Finish(b, s, conn, writes)
    case Rest(action) => OtaModel.Rest(b, s, action)
    case TaskStarts => StartTask(s)
    case Flash(parked) =>
      RoundUpFits(b, s.received);
      RunApply(b, s, parked)
  }

  lemma ReceiveIsSound(b: Board, s: Ota, conn: nat, chain: seq<seq<byte>>, writes: nat -> bool)
    requires Sound(b, s)
    ensures var u := Receive(b, s, conn, chain, writes); Sound(b, u) && SameRunningHalf(b, u.flash, s.flash)
  {
    hide Feed, Put, FeedChain;
    if s.conn == Some(conn) && s.phase == Receiving && |Flatten(chain)| <= s.expected - s.received {
      ChainIsFeed(b, s, chain, writes);
      FeedInOrder(b, s, Flatten(chain), writes);
      FeedKeepsRest(b, s, Flatten(chain), writes);
    }
  }

  /** All the calls of one upload, in order. */
  function ReceiveAll(b: Board, s: Ota, conn: nat, calls: seq<seq<seq<byte>>>, writes: nat -> bool): (u: Ota)
    requires Sound(b, s)
    ensures Sound(b, u)
    decreases |calls|
  {
    if calls == [] then s
    else
      ReceiveIsSound(b, s, conn, calls[0], writes);
      ReceiveAll(b, Receive(b, s, conn, calls[0], writes), conn, calls[1..], writes)
  }

  function Joined(calls: seq<seq<seq<byte>>>): seq<byte> {
    if calls == [] then [] else Flatten(calls[0]) + Joined(calls[1..])
  }

  lemma ReceiveIsFeed(b: Board, s: Ota, conn: nat, chain: seq<seq<byte>>, writes: nat -> bool)
    requires Sound(b, s) && s.phase == Receiving && s.conn == Some(conn) && |Flatten(chain)| <= s.expected - s.received
    ensures var f := Feed(b, s, Flatten(chain), writes);
            && Receive(b, s, conn, chain, writes) == (if f.ok then f.s else f.s.(phase := Error))
            && (f.ok ==> f.s.phase == Receiving && f.s.conn == s.conn && f.s.expected == s.expected && Sound(b, f.s))
  {
    hide Feed, FeedChain;
    ReceiveIsSound(b, s, conn, chain, writes);
    ChainIsFeed(b, s, chain, writes);
    FeedInOrder(b, s, Flatten(chain), writes);
    FeedKeepsRest(b, s, Flatten(chain), writes);
  }

  /**
   However an upload is cut into calls, and each call's bytes into a chain of buffers, the state it
   leaves is that of one call with one buffer, flash failures included.
   */
  lemma {:induction false} CutsDoNotMatter(b: Board, s: Ota, conn: nat, calls: seq<seq<seq<byte>>>, writes: nat -> bool)
    requires Sound(b, s) && s.phase == Receiving && s.conn == Some(conn) && |Joined(calls)| <= s.expected - s.received
    ensures ReceiveAll(b, s, conn, calls, writes) == Receive(b, s, conn, [Joined(calls)], writes)
    decreases |calls|
  {
    hide Feed, Receive, Sound;
    var all := Joined(calls);
    OneBuffer(all);
    ReceiveIsFeed(b, s, conn, [all], writes);
    UploadingNow(b, s);
    if calls == [] {
      NothingFed(b, s, writes);
    } else {
      var first, rest := Flatten(calls[0]), Joined(calls[1..]);
      ReceiveIsFeed(b, s, conn, calls[0], writes);
      FeedConcat(b, s, first, rest, writes);
      var f := Feed(b, s, first, writes);
      ReceiveIsSound(b, s, conn, calls[0], writes);
      if f.ok {
        CutsDoNotMatter(b, f.s, conn, calls[1..], writes);
        OneBuffer(rest);
        ReceiveIsFeed(b, f.s, conn, [rest], writes);
      } else {
        AfterError(b, Receive(b, s, conn, calls[0], writes), conn, calls[1..], writes);
      }
    }
  }

  lemma OneBuffer(d: seq<byte>)
    ensures Flatten([d]) == d
  {
    assert Flatten([d]) == d + Flatten([]);
  }

  lemma UploadingNow(b: Board, s: Ota)
    requires Sound(b, s) && s.phase == Receiving
    ensures Uploading(b, s)
  {
  }

  lemma {:induction false} AfterError(b: Board, s: Ota, conn: nat, calls: seq<seq<seq<byte>>>, writes: nat -> bool)
    requires Sound(b, s) && s.phase == Error
    ensures ReceiveAll(b, s, conn, calls, writes) == s
    decreases |calls|
  {
    hide Sound;
    if calls != [] {
      ReceiveIsSound(b, s, conn, calls[0], writes);
      AfterError(b, s, conn, calls[1..], writes);
    }
  }

  lemma FinishIsSound(b: Board, s: Ota, conn: nat, writes: nat -> bool)
    requires Sound(b, s)
    ensures var u := OtaModel.Finish(b, s, conn, writes); Sound(b, u) && SameRunningHalf(b, u.flash, s.flash)
  {
    hide FlushSector, Padded, Put;
    if s.conn == Some(conn) && s.phase == Receiving {
      SectorFits(b, s);
      FlushKeepsRest(b, s, writes);
      LastSectorStaged(b, s, writes);
    }
  }

  lemma StagedPrefix(b: Board, s: Ota)
    requires Fits(b) && |s.flash| == b.flashSize && Staged(b, s)
    ensures s.flash[Stage(b)..][..s.received] == s.image
    ensures s.received >= SECTOR ==>
              Plausible(b, s.flash[Stage(b)..], s.received) == LooksLikeFirmware(b, s.image)
  {
    hide Plausible, LooksLikeFirmware;
    var staged := s.flash[Stage(b)..];
    assert staged[..s.received] == Padded(s.image)[..s.received];
    if s.received >= SECTOR {
      FirstSectorDecides(b, staged, s.image);
      PlausibleIs(b, s.image);
    }
  }

  /** The vector table is in the first sector. */
  lemma FirstSectorDecides(b: Board, staged: seq<byte>, image: seq<byte>)
    requires Fits(b) && SECTOR <= |image| <= |staged| && staged[..|image|] == image
    ensures Plausible(b, staged, |image|) == Plausible(b, image, |image|)
  {
    SameWord(staged, image, b.vectorOffset);
    SameWord(staged, image, b.vectorOffset + 4);
  }

  lemma SameWord(x: seq<byte>, y: seq<byte>, at: nat)
    requires at + 4 <= |y| <= |x| && x[..|y|] == y
    ensures Word(x, at) == Word(y, at)
  {
    forall k | 0 <= k < |y|
      ensures x[k] == y[k]
    {
      assert x[..|y|][k] == x[k];
    }
  }

  lemma RestIsSound(b: Board, s: Ota, action: Action)
    requires Sound(b, s)
    ensures var u := OtaModel.Rest(b, s, action); Sound(b, u) && u.flash == s.flash
  {
    hide Crc, Padded, Plausible, LooksLikeFirmware;
    if action.Verify? && s.phase == Received {
      StagedPrefix(b, s);
      if s.received < SECTOR {
        TooShort(b, s.flash[Stage(b)..], s.received);
      }
    }
  }

  lemma TooShort(b: Board, data: seq<byte>, len: nat)
    requires Fits(b) && |data| >= SECTOR && len < SECTOR
    ensures !Plausible(b, data, len)
  {
  }

  lemma PutAt(flash: seq<byte>, offset: nat, data: seq<byte>)
    requires offset + |data| <= |flash|
    ensures forall k :: 0 <= k < |flash| ==>
              Put(flash, offset, data)[k] == if offset <= k < offset + |data| then data[k - offset] else flash[k]
  {
  }

  /** Below `n` what staging holds, above it what was there. */
  predicate CopiedUpTo(b: Board, before: seq<byte>, after: seq<byte>, n: nat) {
    && |before| == |after| == 2 * Stage(b) && n <= Stage(b)
    && (forall k {:trigger after[k]} :: 0 <= k < n ==> after[k] == before[Stage(b) + k])
    && (forall k :: n <= k < |after| ==> after[k] == before[k])
  }

  lemma CopyOneMore(b: Board, before: seq<byte>, now: seq<byte>, off: nat)
    requires Fits(b) && CopiedUpTo(b, before, now, off) && off + SECTOR <= Stage(b)
    ensures CopiedUpTo(b, before, Put(now, off, now[Stage(b) + off..Stage(b) + off + SECTOR]), off + SECTOR)
  {
    hide Put;
    var stage := Stage(b);
    var sector := now[stage + off..stage + off + SECTOR];
    var next := Put(now, off, sector);
    PutAt(now, off, sector);
    forall k | 0 <= k < off + SECTOR
      ensures next[k] == before[stage + k]
    {
      if off <= k {
        assert sector[k - off] == now[stage + k];
      }
    }
  }

  /** Copying sector by sector puts the staged bytes below, and leaves everything else alone. */
  lemma {:induction false} CopyCopies(b: Board, before: seq<byte>, now: seq<byte>, off: nat, len: nat)
    requires Fits(b) && |now| == b.flashSize && off <= len <= Stage(b) && off % SECTOR == 0 && len % SECTOR == 0
    requires CopiedUpTo(b, before, now, off)
    ensures CopiedUpTo(b, before, CopyFrom(b, now, off, len), len)
    decreases len - off
  {
    hide Put, CopiedUpTo;
    if off < len {
      CopyOneMore(b, before, now, off);
      CopyCopies(b, before, Put(now, off, now[Stage(b) + off..Stage(b) + off + SECTOR]), off + SECTOR, len);
    }
  }

  lemma NothingCopied(b: Board, flash: seq<byte>)
    requires Fits(b) && |flash| == b.flashSize
    ensures CopiedUpTo(b, flash, flash, 0)
  {
    assert b.flashSize == 2 * Stage(b) by {
      var h := b.flashSize / (2 * SECTOR);
      assert b.flashSize == 2 * SECTOR * h;
    }
  }

  lemma CopiedSlices(b: Board, before: seq<byte>, after: seq<byte>, n: nat)
    requires CopiedUpTo(b, before, after, n)
    ensures after[..n] == before[Stage(b)..Stage(b) + n] && after[n..] == before[n..]
  {
  }

  /**
   Whenever a task is there to copy, what it copies is a checked, complete upload, and it replaces the
   running image exactly. The task itself looks at no state: it rests on begin, verify and reset having
   left everything alone since it was made.
   */
  lemma ApplyIsExact(b: Board, s: Ota, parked: bool)
    requires Sound(b, s)
    ensures s.task.Asleep? ==> s.task.len <= Stage(b) && s.task.len % SECTOR == 0
    ensures var u := RunApply(b, s, parked);
            && Sound(b, u)
            && (s.task.Asleep? && parked ==>
                  && Checked(b, s) && |s.image| == s.expected && RoundUp(|s.image|) <= Stage(b)
                  && u.flash[..RoundUp(|s.image|)] == Padded(s.image)
                  && u.flash[RoundUp(|s.image|)..] == s.flash[RoundUp(|s.image|)..])
            && (!(s.task.Asleep? && parked) ==> u.flash == s.flash)
  {
    hide Crc, Padded, LooksLikeFirmware, CopyFrom, InOrder, Checked, RoundUp, CopiedUpTo;
    RoundUpFits(b, s.received);
    if s.task.Asleep? && parked {
      var len := s.task.len;
      NothingCopied(b, s.flash);
      CopyCopies(b, s.flash, s.flash, 0, len);
      CopiedSlices(b, s.flash, CopyFrom(b, s.flash, 0, len), len);
    }
  }

  lemma StepIsSound(b: Board, s: Ota, e: Event)
    requires Sound(b, s)
    ensures Sound(b, Step(b, s, e))
    ensures !e.Flash? ==> SameRunningHalf(b, Step(b, s, e).flash, s.flash)
  {
    hide Receive, OtaModel.Finish, OtaModel.Rest, RunApply, Padded, Crc, Plausible;
    match e {
      case Begin(conn, upload, length) =>
      case Data(conn, chain, writes) => ReceiveIsSound(b, s, conn, chain, writes);
      case Finish(conn, writes) => FinishIsSound(b, s, conn, writes);
      case Rest(action) => RestIsSound(b, s, action);
      case TaskStarts =>
      case Flash(parked) => ApplyIsExact(b, s, parked);
    }
  }

  function Run(b: Board, flash: seq<byte>, es: seq<Event>): (s: Ota)
    requires Fits(b) && |flash| == b.flashSize
    ensures Sound(b, s)
  {
    if es == [] then Boot(flash)
    else
      var s := Run(b, flash, es[..|es| - 1]);
      StepIsSound(b, s, es[|es| - 1]);
      Step(b, s, es[|es| - 1])
  }

  /** The bytes that have come in on the uploading connection since the upload began. */
  function UploadOf(b: Board, flash: seq<byte>, es: seq<Event>): seq<byte>
    requires Fits(b) && |flash| == b.flashSize
  {
    if es == [] then []
    else
      var s, e := Run(b, flash, es[..|es| - 1]), es[|es| - 1];
      var sofar := UploadOf(b, flash, es[..|es| - 1]);
      if e.Begin? && e.upload && s.phase != Receiving && s.phase != Applying then []
      else if e.Data? && s.phase == Receiving && s.conn == Some(e.conn) then sofar + Flatten(e.chain)
      else sofar
  }

  /** What is received, checked or applied is the upload, all of it and in order. */
  lemma {:induction false} ImageIsUpload(b: Board, flash: seq<byte>, es: seq<Event>)
    requires Fits(b) && |flash| == b.flashSize
    ensures var s := Run(b, flash, es);
            s.phase != Idle && s.phase != Error ==> s.image == UploadOf(b, flash, es)
  {
    hide Sound, Receive, OtaModel.Finish, Crc, Plausible, FlushSector, Staged, Checked;
    if es != [] {
      var s, e := Run(b, flash, es[..|es| - 1]), es[|es| - 1];
      ImageIsUpload(b, flash, es[..|es| - 1]);
      match e {
        case Begin(_, _, _) =>
        case Data(conn, chain, writes) => DataKeepsImage(b, s, conn, chain, writes);
        case Finish(conn, writes) => FinishKeepsImage(b, s, conn, writes);
        case Rest(_) =>
        case TaskStarts =>
        case Flash(parked) => RunningWasApplying(b, s, parked);
      }
    }
  }

  lemma DataKeepsImage(b: Board, s: Ota, conn: nat, chain: seq<seq<byte>>, writes: nat -> bool)
    requires Sound(b, s)
    ensures var u := Receive(b, s, conn, chain, writes);
            if s.phase == Receiving && s.conn == Some(conn) then
              u.phase == Error || (u.phase == Receiving && u.image == s.image + Flatten(chain))
            else u == s
  {
    hide Feed, FeedChain;
    if s.phase == Receiving && s.conn == Some(conn) && |Flatten(chain)| <= s.expected - s.received {
      ChainIsFeed(b, s, chain, writes);
      FeedInOrder(b, s, Flatten(chain), writes);
      FeedKeepsRest(b, s, Flatten(chain), writes);
    }
  }

  lemma FinishKeepsImage(b: Board, s: Ota, conn: nat, writes: nat -> bool)
    requires Sound(b, s)
    ensures var u := OtaModel.Finish(b, s, conn, writes);
            u.image == s.image && (s.phase == Idle || s.phase == Error ==> u.phase == s.phase)
  {
    if s.conn == Some(conn) && s.phase == Receiving {
      SectorFits(b, s);
      FlushKeepsRest(b, s, writes);
    }
  }

  lemma RunningWasApplying(b: Board, s: Ota, parked: bool)
    requires Sound(b, s)
    ensures var u := Step(b, s, Flash(parked)); u.phase == Idle || u.phase == Error || u == s
  {
    hide CopyFrom;
  }

  /** At event i a client named this CRC, with the upload complete and just as it is now. */
  predicate NamedAt(b: Board, flash: seq<byte>, es: seq<Event>, i: nat, image: seq<byte>)
    requires Fits(b) && |flash| == b.flashSize && i < |es|
  {
    && es[i] == Rest(Verify(Some(Crc(image))))
    && Run(b, flash, es[..i]).phase == Received && Run(b, flash, es[..i]).image == image
  }

  /** What is verified or applied was named by a client: its CRC, given when the upload was complete. */
  lemma {:induction false} NamedByClient(b: Board, flash: seq<byte>, es: seq<Event>)
    requires Fits(b) && |flash| == b.flashSize
    requires Run(b, flash, es).phase == Verified || Run(b, flash, es).phase == Applying
    ensures exists i :: 0 <= i < |es| && NamedAt(b, flash, es, i, Run(b, flash, es).image)
  {
    var n := |es| - 1;
    var s, e := Run(b, flash, es[..n]), es[n];
    NamingStep(b, s, e);
    if s.phase == Verified || s.phase == Applying {
      NamedByClient(b, flash, es[..n]);
      var i :| 0 <= i < n && NamedAt(b, flash, es[..n], i, s.image);
      assert es[..n][..i] == es[..i];
      assert NamedAt(b, flash, es, i, s.image);
    } else {
      assert NamedAt(b, flash, es, n, s.image);
    }
  }

  /** A step into VERIFIED is a verify request that names the right CRC. */
  lemma NamingStep(b: Board, s: Ota, e: Event)
    requires Sound(b, s) && (Step(b, s, e).phase == Verified || Step(b, s, e).phase == Applying)
    ensures Step(b, s, e).image == s.image
    ensures s.phase != Verified && s.phase != Applying ==>
              s.phase == Received && e == Rest(Verify(Some(Crc(s.image))))
  {
    hide Receive, OtaModel.Finish, Crc, Plausible, LooksLikeFirmware, FlushSector, CopyFrom, Padded;
    match e {
      case Begin(_, _, _) =>
      case Data(conn, chain, writes) => DataKeepsImage(b, s, conn, chain, writes);
      case Finish(conn, writes) => FinishPhases(b, s, conn, writes);
      case Rest(action) =>
        if s.phase == Received {
          StagedPrefix(b, s);
        }
      case TaskStarts =>
      case Flash(_) =>
    }
  }

  lemma FinishPhases(b: Board, s: Ota, conn: nat, writes: nat -> bool)
    requires Sound(b, s)
    ensures var u := OtaModel.Finish(b, s, conn, writes);
            u.image == s.image && (u.phase == s.phase || u.phase == Received || u.phase == Error)
  {
    FinishKeepsImage(b, s, conn, writes);
  }

  /** The event that puts the staged image live. */
  predicate IsUpdate(b: Board, s: Ota, e: Event) {
    s.task.Asleep? && e.Flash? && e.parked
  }

  /**
   In every run, with any requests on any connections, any cuts and any flash failures: the running
   half keeps its power-up contents until an update, and an update puts there, to the last byte, the
   complete upload, whose CRC a client named once all of it was there and which looks like firmware.
   */
  lemma RunningImageIsSafe(b: Board, flash: seq<byte>, es: seq<Event>, e: Event)
    requires Fits(b) && |flash| == b.flashSize
    ensures var s := Run(b, flash, es);
            var u := Step(b, s, e);
            if IsUpdate(b, s, e) then
              var image := UploadOf(b, flash, es);
              && |image| == s.expected && LooksLikeFirmware(b, image)
              && (exists i :: 0 <= i < |es| && NamedAt(b, flash, es, i, image))
              && RoundUp(|image|) <= Stage(b) && u.flash[..RoundUp(|image|)] == Padded(image)
              && u.flash[RoundUp(|image|)..] == s.flash[RoundUp(|image|)..]
            else SameRunningHalf(b, u.flash, s.flash)
  {
    hide Run, Padded, Receive, OtaModel.Finish, OtaModel.Rest, LooksLikeFirmware, NamedAt, UploadOf, Crc, RunApply;
    var s := Run(b, flash, es);
    StepIsSound(b, s, e);
    if e.Flash? {
      ApplyIsExact(b, s, e.parked);
      if IsUpdate(b, s, e) {
        NamedByClient(b, flash, es);
        ImageIsUpload(b, flash, es);
      }
    }
  }
}
