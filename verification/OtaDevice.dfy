/**
 The updater as the firmware runs it: one sector buffer, flash that is erased and programmed byte by
 byte, and loops over a chain of buffers of any sizes.
 */
module OtaDevice {
  import opened Crc32
  import opened Options
  import opened OtaModel
  import opened OtaSafety

  class Updater {
    const board: Board
    const flash: array<byte>
    const sectorBuf: array<byte>
    const copyBuf: array<byte>

    var phase: Phase
    var conn: Option<nat>
    var expected: nat
    var received: nat
    var crc: bv32
    var fill: nat
    var index: nat
    var task: Task             // the apply task and its static `len`
    ghost var image: seq<byte>

    ghost function State(): Ota
      reads this, flash, sectorBuf
      requires fill <= sectorBuf.Length
    {
      Ota(phase, conn, expected, received, crc, sectorBuf[..fill], index, task, flash[..], image)
    }

    /** The three buffers are apart and of the right sizes. */
    ghost predicate Shaped()
      reads this
    {
      && Fits(board) && flash.Length == board.flashSize && sectorBuf.Length == SECTOR && copyBuf.Length == SECTOR
      && flash != sectorBuf && flash != copyBuf && sectorBuf != copyBuf && fill <= SECTOR
    }

    ghost predicate Valid()
      reads this, flash, sectorBuf
    {
      Shaped() && Sound(board, State())
    }

    constructor (b: Board, contents: seq<byte>)
      requires Fits(b) && |contents| == b.flashSize
      ensures Valid() && board == b && State() == Boot(contents) && fresh(flash) && fresh(sectorBuf) && fresh(copyBuf)
    {
      board := b;
      flash := new byte[|contents|](i requires 0 <= i < |contents| => contents[i]);
      sectorBuf := new byte[SECTOR];
      copyBuf := new byte[SECTOR];
      phase, conn, expected, received, crc, fill, index, task, image := Idle, None, 0, 0, 0, 0, 0, NoTask, [];
      new;
      assert flash[..] == contents;
    }

    /** flash_range_erase. */
    method EraseSector(offset: nat)
      requires offset + SECTOR <= flash.Length
      modifies flash
      ensures forall k :: 0 <= k < flash.Length ==>
              flash[k] == if offset <= k < offset + SECTOR then ONES else old(flash[k])
    {
      var i := 0;
      while i < SECTOR
        invariant i <= SECTOR
        invariant forall k :: 0 <= k < flash.Length ==>
                  flash[k] == if offset <= k < offset + i then ONES else old(flash[k])
      {
        flash[offset + i] := ONES;
        i := i + 1;
      }
    }

    /** Erase a sector, then program it. */
    method WriteSector(offset: nat, data: array<byte>)
      requires data.Length == SECTOR && data != flash && offset + SECTOR <= flash.Length
      modifies flash
      ensures flash[..] == Put(old(flash[..]), offset, data[..])
    {
      EraseSector(offset);
      var i := 0;
      while i < SECTOR
        invariant i <= SECTOR
        invariant forall k :: 0 <= k < i ==> flash[offset + k] == data[k]
        invariant forall k :: 0 <= k < flash.Length && (k < offset || offset + SECTOR <= k) ==>
                  flash[k] == old(flash[k])
      {
        flash[offset + i] := data[i];
        i := i + 1;
      }
      PutAt(old(flash[..]), offset, data[..]);
      assert forall k :: 0 <= k < flash.Length ==> flash[..][k] == Put(old(flash[..]), offset, data[..])[k];
    }

    /** memset: ones from the filled part to the end of the buffer. */
    method PadBuffer()
      requires sectorBuf.Length == SECTOR && fill <= SECTOR
      modifies sectorBuf
      ensures sectorBuf[..] == old(sectorBuf[..fill]) + Ones(SECTOR - fill)
    {
      var i := fill;
      while i < SECTOR
        invariant fill <= i <= SECTOR
        invariant forall k :: 0 <= k < i ==> sectorBuf[k] == if k < fill then old(sectorBuf[k]) else ONES
      {
        sectorBuf[i] := ONES;
        i := i + 1;
      }
    }

    /** flush_sector: ones behind the bytes, then out to staging, if the flash takes it. */
    method FlushBuffer(writes: nat -> bool) returns (ok: bool)
      requires Shaped() && (fill > 0 ==> (index + 1) * SECTOR <= Stage(board))
      modifies this`fill, this`index, sectorBuf, flash
      ensures Shaped() && Flush(State(), ok) == FlushSector(board, old(State()), writes)
    {
      hide Put, Ones;
      ghost var s := State();
      if fill == 0 {
        assert s.buf == [];
        return true;
      }
      assert flash.Length == 2 * Stage(board);
      if fill < SECTOR {
        PadBuffer();
      } else {
        assert sectorBuf[..] == s.buf + Ones(0);
      }
      var offset := Stage(board) + index * SECTOR;
      ok := writes(index);
      if ok { WriteSector(offset, sectorBuf); }
      index := index + 1;
      fill := 0;
      assert sectorBuf[..fill] == [];
    }

    /** memcpy into the buffer. */
    method CopyIn(d: seq<byte>, n: nat)
      requires Shaped() && n <= |d| && fill + n <= SECTOR
      modifies this`fill, this`received, this`image, sectorBuf
      ensures Shaped() && State() == Take(old(State()), d[..n])
    {
      ghost var s := State();
      var j := 0;
      while j < n
        invariant j <= n && sectorBuf[..fill + j] == s.buf + d[..j]
        modifies sectorBuf
      {
        ghost var before := sectorBuf[..fill + j];
        sectorBuf[fill + j] := d[j];
        assert sectorBuf[..fill + j + 1] == before + [d[j]];
        j := j + 1;
      }
      fill := fill + n;
      received := received + n;
      image := image + d[..n];
    }

    /** One stretch: what fits into the sector buffer, and the sector if that fills it. */
    method TakeStretch(d: seq<byte>, writes: nat -> bool) returns (ok: bool, n: nat)
      requires Shaped() && Uploading(board, State()) && received + |d| <= expected && d != []
      modifies this`fill, this`received, this`index, this`image, sectorBuf, flash
      ensures Shaped() && 0 < n <= |d|
      ensures if ok then Uploading(board, State()) && received + |d| - n <= expected
                         && Feed(board, State(), d[n..], writes) == Feed(board, old(State()), d, writes)
              else Flush(State(), false) == Feed(board, old(State()), d, writes)
    {
      hide FlushSector, Put, Feed;
      var space := SECTOR - fill;
      n := if |d| < space then |d| else space;
      FeedUnfolds(board, State(), d, writes);
      CopyIn(d, n);
      if fill == SECTOR {
        SectorFits(board, State());
        ok := FlushBuffer(writes);
      } else {
        assert d[n..] == [];
        NothingFed(board, State(), writes);
        ok := true;
      }
    }

    /** One buffer of the chain: as many stretches as it fills sectors, and the rest. */
    method TakeBuffer(d: seq<byte>, writes: nat -> bool) returns (ok: bool)
      requires Shaped() && Uploading(board, State()) && received + |d| <= expected
      modifies this`fill, this`received, this`index, this`image, sectorBuf, flash
      ensures Shaped() && Flush(State(), ok) == Feed(board, old(State()), d, writes)
    {
      hide Feed, Uploading;
      var pos := 0;
      while pos < |d|
        invariant pos <= |d| && Shaped() && Uploading(board, State()) && received + |d| - pos <= expected
        invariant Feed(board, State(), d[pos..], writes) == Feed(board, old(State()), d, writes)
      {
        var n;
        ok, n := TakeStretch(d[pos..], writes);
        if !ok { return; }
        assert d[pos..][n..] == d[pos + n..];
        pos := pos + n;
      }
      NothingFed(board, State(), writes);
      assert d[pos..] == [];
      ok := true;
    }

    method TakeChain(chain: seq<seq<byte>>, writes: nat -> bool) returns (ok: bool)
      requires Shaped() && Uploading(board, State()) && received + |Flatten(chain)| <= expected
      modifies this`fill, this`received, this`index, this`image, sectorBuf, flash
      ensures Shaped() && Flush(State(), ok) == FeedChain(board, old(State()), chain, writes)
    {
      hide Feed, Put, FlushSector;
      var i := 0;
      while i < |chain|
        invariant i <= |chain| && Shaped() && Uploading(board, State()) && received + |Flatten(chain[i..])| <= expected
        invariant FeedChain(board, State(), chain[i..], writes) == FeedChain(board, old(State()), chain, writes)
      {
        ghost var rest := chain[i..];
        assert rest[0] == chain[i] && rest[1..] == chain[i + 1..];
        assert Flatten(rest) == chain[i] + Flatten(chain[i + 1..]);
        ok := TakeBuffer(chain[i], writes);
        if !ok { return; }
        i := i + 1;
      }
      assert chain[i..] == [];
      ok := true;
    }

    /** Total length of a chain. */
    method TotalLength(chain: seq<seq<byte>>) returns (n: nat)
      ensures n == |Flatten(chain)|
    {
      n := 0;
      var i := 0;
      while i < |chain|
        invariant i <= |chain| && n + |Flatten(chain[i..])| == |Flatten(chain)|
      {
        assert chain[i..][0] == chain[i] && chain[i..][1..] == chain[i + 1..];
        n := n + |chain[i]|;
        i := i + 1;
      }
    }

    // ----- the entry points

    method PostBegin(connection: nat, upload: bool, length: int)
      requires Valid()
      modifies this
      ensures Valid() && State() == Step(board, old(State()), Event.Begin(connection, upload, length))
    {
      hide Checked, Padded;
      StepIsSound(board, State(), Event.Begin(connection, upload, length));
      if !upload { return; }
      if phase == Applying || phase == Receiving { return; }
      if length <= 0 || length > MaxImage(board) {
        phase := Error;
        return;
      }
      conn := Some(connection);
      phase := Receiving;
      expected := length;
      received := 0;
      crc := 0;
      fill := 0;
      index := 0;
      image := [];
      assert sectorBuf[..fill] == [];
    }

    method PostData(connection: nat, chain: seq<seq<byte>>, writes: nat -> bool)
      requires Valid()
      modifies this`phase, this`fill, this`received, this`index, this`image, sectorBuf, flash
      ensures Valid() && State() == Step(board, old(State()), Data(connection, chain, writes))
    {
      hide FeedChain, Checked, Padded, Staged, InOrder;
      StepIsSound(board, State(), Data(connection, chain, writes));
      if conn != Some(connection) || phase != Receiving { return; }
      UploadingNow(board, State());
      var total := TotalLength(chain);
      if total > expected - received {
        phase := Error;
        return;
      }
      var ok := TakeChain(chain, writes);
      if !ok { phase := Error; }
    }

    method PostFinished(connection: nat, writes: nat -> bool)
      requires Valid()
      modifies this`phase, this`conn, this`fill, this`index, sectorBuf, flash
      ensures Valid() && State() == Step(board, old(State()), Event.Finish(connection, writes))
    {
      hide FlushSector, Checked, Padded, Staged, InOrder;
      StepIsSound(board, State(), Event.Finish(connection, writes));
      if conn == Some(connection) && phase == Receiving {
        UploadingNow(board, State());
        SectorFits(board, State());
        var ok := FlushBuffer(writes);
        phase := if ok && received == expected then Received else Error;
      }
      if conn == Some(connection) { conn := None; }
    }

    /** The verify action: the CRC and the vector table of what is staged. */
    method CheckStaged(named: bv32)
      requires Shaped() && received <= MaxImage(board)
      modifies this`phase, this`crc
      ensures crc == Crc(flash[..][Stage(board)..][..received])
      ensures phase == if crc != named || !Plausible(board, flash[..][Stage(board)..], received) then Error
              else Verified
    {
      hide Crc, Plausible;
      assert flash.Length == 2 * Stage(board);
      crc := Crc32Flash(flash, Stage(board), received);
      assert flash[Stage(board)..Stage(board) + received] == flash[..][Stage(board)..][..received];
      var staged := flash[Stage(board)..];
      assert staged == flash[..][Stage(board)..];
      phase := if crc != named || !Plausible(board, staged, received) then Error else Verified;
    }

    method Respond(action: Action)
      requires Valid()
      modifies this`phase, this`received, this`expected, this`crc, this`task
      ensures Valid() && State() == Step(board, old(State()), Event.Rest(action))
    {
      hide Crc, Padded, Plausible, Staged, InOrder;
      StepIsSound(board, State(), Event.Rest(action));
      match action {
        case Reset =>
          if phase != Applying && phase != Receiving {
            phase, received, expected := Idle, 0, 0;
          }
        case Verify(named) =>
          if phase == Received && named.Some? { CheckStaged(named.value); }
        case Apply(taskStarted) =>
          if phase == Verified {
            phase := Applying;
            if taskStarted { task := Created; } else { phase := Error; }
          }
        case Look =>
      }
    }

    /** Read a sector into the copy buffer. */
    method PullSector(from: nat)
      requires copyBuf.Length == SECTOR && copyBuf != flash && from + SECTOR <= flash.Length
      modifies copyBuf
      ensures copyBuf[..] == flash[..][from..from + SECTOR]
    {
      var i := 0;
      while i < SECTOR
        invariant i <= SECTOR && forall k :: 0 <= k < i ==> copyBuf[k] == flash[from + k]
      {
        copyBuf[i] := flash[from + i];
        i := i + 1;
      }
    }

    /** The copying loop, from RAM: a sector out of staging, then over the running image. */
    method CopySectors(len: nat)
      requires Shaped() && len <= Stage(board) && len % SECTOR == 0
      modifies flash, copyBuf
      ensures flash[..] == CopyFrom(board, old(flash[..]), 0, len)
    {
      hide Put;
      assert flash.Length == 2 * Stage(board);
      var off := 0;
      while off < len
        invariant off <= len && off % SECTOR == 0
        invariant CopyFrom(board, flash[..], off, len) == CopyFrom(board, old(flash[..]), 0, len)
      {
        PullSector(Stage(board) + off);
        WriteSector(off, copyBuf);
        off := off + SECTOR;
      }
    }

    /** ota_apply_task up to its delay. */
    method TaskStart()
      requires Valid()
      modifies this`task
      ensures Valid() && State() == Step(board, old(State()), TaskStarts)
    {
      hide Checked, Padded, Staged, InOrder;
      StepIsSound(board, State(), TaskStarts);
      if !task.Created? { return; }          // no such task to run
      task := Asleep((received + SECTOR - 1) / SECTOR * SECTOR);
    }

    /**
     ota_apply_task from its delay on, and the reset that follows a copy: the memory starts over, the
     flash stays.
     */
    method ApplyTask(parked: bool)
      requires Valid()
      modifies this, flash, copyBuf
      ensures Valid() && State() == Step(board, old(State()), Event.Flash(parked))
    {
      hide CopyFrom, Checked, Padded, Staged, InOrder;
      StepIsSound(board, State(), Event.Flash(parked));
      ApplyIsExact(board, State(), parked);
      if !task.Asleep? { return; }           // no such task to run
      if !parked {
        phase, task := Error, NoTask;
        return;
      }
      CopySectors(task.len);
      phase, conn, expected, received, crc, fill, index, task, image := Idle, None, 0, 0, 0, 0, 0, NoTask, [];
      assert sectorBuf[..fill] == [];
    }
  }
}
