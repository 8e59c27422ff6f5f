/** An upload that is what it should be is verified and applied, and one that is not is refused. */
module OtaComplete {
  import opened Crc32
  import opened Options
  import opened OtaModel
  import opened OtaSafety

  // ----- receiving

  ghost predicate AllTaken(writes: nat -> bool) {
    forall i: nat :: writes(i)
  }

  lemma {:induction false} FeedTaken(b: Board, s: Ota, bytes: seq<byte>, writes: nat -> bool)
    requires Uploading(b, s) && s.received + |bytes| <= s.expected && AllTaken(writes)
    ensures Feed(b, s, bytes, writes).ok
    decreases |bytes|
  {
    hide FlushSector, Feed;
    if bytes == [] {
      NothingFed(b, s, writes);
    } else {
      FeedUnfolds(b, s, bytes, writes);
      var n := Smaller(|bytes|, SECTOR - |s.buf|);
      var t := Take(s, bytes[..n]);
      if |t.buf| == SECTOR {
        SectorFits(b, t);
        FlushTaken(b, t, writes);
        FeedTaken(b, FlushSector(b, t, writes).s, bytes[n..], writes);
      }
    }
  }

  lemma FlushTaken(b: Board, t: Ota, writes: nat -> bool)
    requires Fits(b) && |t.flash| == b.flashSize && |t.buf| <= SECTOR && AllTaken(writes)
    requires t.buf != [] ==> (t.index + 1) * SECTOR <= Stage(b)
    ensures FlushSector(b, t, writes).ok
  {
    hide Put, Ones;
  }

  /** Any events, as long as the connection is not finished and the flash takes all that comes on it. */
  ghost predicate IsUpload(es: seq<Event>, conn: nat) {
    forall i :: 0 <= i < |es| ==>
      && (es[i].Data? && es[i].conn == conn ==> AllTaken(es[i].writes))
      && !(es[i].Finish? && es[i].conn == conn)
  }

  /** The bytes that the connection's calls bring, in any cuts. */
  function Brought(es: seq<Event>, conn: nat): seq<byte> {
    if es == [] then []
    else
      var e := es[|es| - 1];
      Brought(es[..|es| - 1], conn) + if e.Data? && e.conn == conn then Flatten(e.chain) else []
  }

  /** While an upload comes in, no other client, request or task changes anything. */
  lemma OthersDoNothing(b: Board, s: Ota, e: Event)
    requires Sound(b, s) && s.phase == Receiving
    requires !(e.Data? && s.conn == Some(e.conn)) && !(e.Finish? && s.conn == Some(e.conn))
    ensures Step(b, s, e) == s
  {
    hide Crc, Plausible, CopyFrom, FeedChain, FlushSector;
  }

  /** Without the other core out of the way nothing is copied, and the update ends in an error. */
  lemma UnparkedIsError(b: Board, s: Ota)
    requires Sound(b, s) && s.task.Asleep?
    ensures Step(b, s, Flash(false)) == s.(phase := Error, task := NoTask)
  {
    hide Crc, Plausible, CopyFrom;
  }

  /** In the middle of an upload of that many bytes. */
  predicate Midway(s: Ota, conn: nat, total: nat, sofar: seq<byte>) {
    s.phase == Receiving && s.conn == Some(conn) && s.expected == total && s.received == |sofar| && s.image == sofar
  }

  lemma OneCall(b: Board, s: Ota, conn: nat, total: nat, sofar: seq<byte>, e: Event)
    requires Sound(b, s) && Midway(s, conn, total, sofar) && e.Data? && e.conn == conn && AllTaken(e.writes)
    requires |sofar| + |Flatten(e.chain)| <= total
    ensures Midway(Step(b, s, e), conn, total, sofar + Flatten(e.chain))
  {
    hide Feed, Receive, Sound;
    ReceiveIsFeed(b, s, conn, e.chain, e.writes);
    UploadingNow(b, s);
    FeedTaken(b, s, Flatten(e.chain), e.writes);
    ReceivesInOrder(b, s);
    FeedInOrder(b, s, Flatten(e.chain), e.writes);
    TookAll(b, s, Flatten(e.chain), e.writes);
  }

  lemma ReceivesInOrder(b: Board, s: Ota)
    requires Sound(b, s) && s.phase == Receiving
    ensures InOrder(b, s)
  {
  }

  lemma TookAll(b: Board, s: Ota, bytes: seq<byte>, writes: nat -> bool)
    requires Uploading(b, s) && s.received + |bytes| <= s.expected && Feed(b, s, bytes, writes).ok
    ensures Feed(b, s, bytes, writes).s.received == s.received + |bytes|
  {
    hide FlushSector;
  }

  lemma {:induction false} BroughtGrows(es: seq<Event>, conn: nat, n: nat)
    requires n <= |es|
    ensures |Brought(es[..n], conn)| <= |Brought(es, conn)|
  {
    if n == |es| {
      assert es[..n] == es;
    } else {
      BroughtGrows(es[..|es| - 1], conn, n);
      assert es[..|es| - 1][..n] == es[..n];
    }
  }

  /** The upload so far, after a begin from power-up. */
  lemma {:induction false} Receives(b: Board, flash: seq<byte>, conn: nat, total: nat, es: seq<Event>)
    requires Fits(b) && |flash| == b.flashSize && 0 < total <= MaxImage(b)
    requires IsUpload(es, conn) && |Brought(es, conn)| <= total
    ensures var s := Run(b, flash, [Begin(conn, true, total)] + es);
            Midway(s, conn, total, Brought(es, conn)) && SameRunningHalf(b, s.flash, flash)
  {
    hide Sound, Midway, Receive, Step;
    var begin := [Begin(conn, true, total)];
    if es == [] {
      assert begin + es == begin && begin[..0] == [];
      Begun(b, flash, conn, total);
    } else {
      var n := |es| - 1;
      BroughtGrows(es, conn, n);
      Receives(b, flash, conn, total, es[..n]);
      assert (begin + es)[..|begin + es| - 1] == begin + es[..n];
      var s, sofar := Run(b, flash, begin + es[..n]), Brought(es[..n], conn);
      if es[n].Data? && es[n].conn == conn {
        OneCall(b, s, conn, total, sofar, es[n]);
        StepIsSound(b, s, es[n]);
      } else {
        assert sofar + [] == sofar;
        MidwayIs(s, conn, total, sofar);
        OthersDoNothing(b, s, es[n]);
      }
    }
  }

  lemma MidwayIs(s: Ota, conn: nat, total: nat, sofar: seq<byte>)
    requires Midway(s, conn, total, sofar)
    ensures s.phase == Receiving && s.conn == Some(conn)
  {
  }

  lemma Begun(b: Board, flash: seq<byte>, conn: nat, total: nat)
    requires Fits(b) && |flash| == b.flashSize && 0 < total <= MaxImage(b)
    ensures var s := Run(b, flash, [Begin(conn, true, total)]);
            Midway(s, conn, total, []) && SameRunningHalf(b, s.flash, flash)
  {
    var es := [Begin(conn, true, total)];
    assert es[..0] == [];
    assert Run(b, flash, es[..0]) == Boot(flash);
  }

  // ----- from the last byte on

  lemma FinishesReceived(b: Board, s: Ota, conn: nat, image: seq<byte>, writes: nat -> bool)
    requires Sound(b, s) && Midway(s, conn, |image|, image) && AllTaken(writes)
    ensures var u := Step(b, s, Event.Finish(conn, writes));
            u.phase == Received && u.image == image && u.task == s.task
  {
    hide FlushSector;
    SectorFits(b, s);
    FlushTaken(b, s, writes);
    FlushKeepsRest(b, s, writes);
  }

  /** A verify request on a complete upload. */
  lemma VerifiesIff(b: Board, s: Ota, crc: bv32)
    requires Sound(b, s) && s.phase == Received
    ensures var u := Step(b, s, Rest(Verify(Some(crc))));
            && u.phase == (if crc == Crc(s.image) && LooksLikeFirmware(b, s.image) then Verified else Error)
            && u.image == s.image && u.flash == s.flash && u.received == s.received && u.task == s.task
  {
    hide Crc, Padded, Plausible, LooksLikeFirmware;
    StagedPrefix(b, s);
    if s.received < SECTOR {
      TooShort(b, s.flash[Stage(b)..], s.received);
      TooSmall(b, s.image);
    }
  }

  lemma TooSmall(b: Board, image: seq<byte>)
    requires Fits(b) && |image| < SECTOR
    ensures !LooksLikeFirmware(b, image)
  {
  }

  lemma AppliesVerified(b: Board, s: Ota)
    requires Sound(b, s) && s.phase == Verified
    ensures var u := Step(b, s, Rest(Apply(true)));
            u.task == Created && u.image == s.image && u.flash == s.flash && u.received == s.received
  {
    hide Crc, Padded, Plausible;
  }

  lemma TaskSleeps(b: Board, s: Ota)
    requires Sound(b, s) && s.task == Created
    ensures var u := Step(b, s, TaskStarts); u.task.Asleep? && u.image == s.image && u.flash == s.flash
  {
  }

  function Requests(crc: bv32): seq<Event> {
    [Rest(Verify(Some(crc))), Rest(Apply(true)), TaskStarts, Flash(true)]
  }

  lemma OneMoreEvent(b: Board, flash: seq<byte>, es: seq<Event>, e: Event)
    requires Fits(b) && |flash| == b.flashSize
    ensures Run(b, flash, es + [e]) == Step(b, Run(b, flash, es), e)
  {
    hide Step, Sound;
    assert (es + [e])[..|es|] == es;
  }

  /** An image has at most 1.5 megabytes, and fits into the staging half. */
  predicate SizeFits(b: Board, n: nat) {
    0 < n <= 1_572_864 && n <= b.flashSize / 2
  }

  lemma SizeIs(b: Board, n: nat)
    ensures SizeFits(b, n) <==> 0 < n <= MaxImage(b)
  {
  }

  /** A finished connection is no longer the upload's, whatever it came to. */
  lemma FinishFreesConnection(b: Board, s: Ota, conn: nat, writes: nat -> bool)
    requires Sound(b, s) && s.conn == Some(conn)
    ensures Step(b, s, Event.Finish(conn, writes)).conn == None
  {
    hide FlushSector;
    if s.phase == Receiving {
      SectorFits(b, s);
    }
  }

  function Session(conn: nat, total: nat, es: seq<Event>, writes: nat -> bool): seq<Event> {
    [Begin(conn, true, total)] + es + [Event.Finish(conn, writes)]
  }

  lemma UploadIsReceived(b: Board, flash: seq<byte>, conn: nat, es: seq<Event>, writes: nat -> bool)
    requires Fits(b) && |flash| == b.flashSize && SizeFits(b, |Brought(es, conn)|)
    requires IsUpload(es, conn) && AllTaken(writes)
    ensures var s := Run(b, flash, Session(conn, |Brought(es, conn)|, es, writes));
            s.phase == Received && s.image == Brought(es, conn) && SameRunningHalf(b, s.flash, flash)
  {
    hide Step, Sound, Midway;
    var image := Brought(es, conn);
    SizeIs(b, |image|);
    var begun := [Begin(conn, true, |image|)] + es;
    Receives(b, flash, conn, |image|, es);
    OneMoreEvent(b, flash, begun, Event.Finish(conn, writes));
    FinishesReceived(b, Run(b, flash, begun), conn, image, writes);
    StepIsSound(b, Run(b, flash, begun), Event.Finish(conn, writes));
  }

  /**
   A client that uploads an image, in any cuts, onto a flash that takes every sector, and then asks for it to be
   verified: it is, if and only if the CRC that the client names is the image's and the image looks like
   firmware; otherwise the update ends in an error.
   */
  lemma UploadVerifiesIff(b: Board, flash: seq<byte>, conn: nat, es: seq<Event>, writes: nat -> bool, crc: bv32)
    requires Fits(b) && |flash| == b.flashSize && SizeFits(b, |Brought(es, conn)|)
    requires IsUpload(es, conn) && AllTaken(writes)
    ensures var image := Brought(es, conn);
            Run(b, flash, Session(conn, |image|, es, writes) + [Rest(Verify(Some(crc)))]).phase
            == if crc == Crc(image) && LooksLikeFirmware(b, image) then Verified else Error
  {
    hide Step, Sound, Session;
    UploadIsReceived(b, flash, conn, es, writes);
    var session := Session(conn, |Brought(es, conn)|, es, writes);
    OneMoreEvent(b, flash, session, Rest(Verify(Some(crc))));
    VerifiesIff(b, Run(b, flash, session), crc);
  }

  lemma ImageIsCopied(b: Board, flash: seq<byte>, conn: nat, es: seq<Event>, writes: nat -> bool)
    requires Fits(b) && |flash| == b.flashSize && SizeFits(b, |Brought(es, conn)|)
    requires IsUpload(es, conn) && AllTaken(writes)
    requires LooksLikeFirmware(b, Brought(es, conn))
    ensures var image := Brought(es, conn);
            var s := Run(b, flash, Session(conn, |image|, es, writes) + Requests(Crc(image)));
            && s.phase == Idle && RoundUp(|image|) <= Stage(b)
            && s.flash[..RoundUp(|image|)] == Padded(image)
            && s.flash[RoundUp(|image|)..Stage(b)] == flash[RoundUp(|image|)..Stage(b)]
  {
    hide Step, Sound, Session, Padded, Crc, RoundUp, IsUpload, LooksLikeFirmware, Brought, SizeFits, SameRunningHalf;
    var image := Brought(es, conn);
    UploadIsReceived(b, flash, conn, es, writes);
    var e0 := Session(conn, |image|, es, writes);
    var e1 := e0 + [Rest(Verify(Some(Crc(image))))];
    var e2 := e1 + [Rest(Apply(true))];
    var e3 := e2 + [TaskStarts];
    var e4 := e3 + [Flash(true)];
    OneMoreEvent(b, flash, e0, Rest(Verify(Some(Crc(image)))));
    VerifiesIff(b, Run(b, flash, e0), Crc(image));
    OneMoreEvent(b, flash, e1, Rest(Apply(true)));
    AppliesVerified(b, Run(b, flash, e1));
    OneMoreEvent(b, flash, e2, TaskStarts);
    TaskSleeps(b, Run(b, flash, e2));
    OneMoreEvent(b, flash, e3, Flash(true));
    assert e4 == e0 + Requests(Crc(image));
    Flashed(b, Run(b, flash, e3), image, flash);
  }

  /** The image itself, and ones to the next multiple of 4096. */
  lemma PaddedIs(data: seq<byte>)
    ensures |data| <= RoundUp(|data|) < |data| + 4096 && RoundUp(|data|) % 4096 == 0
    ensures Padded(data)[..|data|] == data && forall k :: |data| <= k < RoundUp(|data|) ==> Padded(data)[k] == 0xFF
  {
  }

  lemma InFront(flash: seq<byte>, padded: seq<byte>, n: nat)
    requires n <= |padded| <= |flash| && flash[..|padded|] == padded
    ensures flash[..n] == padded[..n] && forall k :: 0 <= k < |padded| ==> flash[k] == padded[k]
  {
    assert flash[..|padded|][..n] == flash[..n];
    forall k | 0 <= k < |padded|
      ensures flash[k] == padded[k]
    {
      assert flash[..|padded|][k] == flash[k];
    }
  }

  lemma Flashed(b: Board, s: Ota, image: seq<byte>, flash: seq<byte>)
    requires Sound(b, s) && s.task.Asleep? && s.image == image && SameRunningHalf(b, s.flash, flash)
    ensures var u := Step(b, s, Flash(true));
            && u.phase == Idle && RoundUp(|image|) <= Stage(b) && u.flash[..RoundUp(|image|)] == Padded(image)
            && u.flash[RoundUp(|image|)..Stage(b)] == flash[RoundUp(|image|)..Stage(b)]
  {
    hide Crc, Padded, Plausible, CopyFrom, InOrder, Checked, RoundUp;
    ApplyIsExact(b, s, true);
    var n := RoundUp(|image|);
    var u := Step(b, s, Flash(true));
    assert u.flash[n..][..Stage(b) - n] == s.flash[n..][..Stage(b) - n];
    assert u.flash[n..Stage(b)] == s.flash[n..Stage(b)];
    assert s.flash[..Stage(b)][n..] == flash[..Stage(b)][n..];
  }

  /**
   End to end: such an image, named rightly and applied, runs. Afterwards the running half holds the image, to the
   last byte, and ones to its sector's end; what was behind that is still there.
   */
  lemma GoodImageRuns(b: Board, flash: seq<byte>, conn: nat, es: seq<Event>, writes: nat -> bool)
    requires Fits(b) && |flash| == b.flashSize && SizeFits(b, |Brought(es, conn)|)
    requires IsUpload(es, conn) && AllTaken(writes)
    requires LooksLikeFirmware(b, Brought(es, conn))
    ensures var image := Brought(es, conn);
            var s := Run(b, flash, Session(conn, |image|, es, writes) + Requests(Crc(image)));
            && s.phase == Idle && RoundUp(|image|) <= Stage(b)
            && s.flash[..|image|] == image && (forall k :: |image| <= k < RoundUp(|image|) ==> s.flash[k] == 0xFF)
            && s.flash[RoundUp(|image|)..Stage(b)] == flash[RoundUp(|image|)..Stage(b)]
            && |image| <= RoundUp(|image|) < |image| + 4096 && RoundUp(|image|) % 4096 == 0
  {
    hide Run, Session, Padded, Crc, RoundUp, IsUpload, LooksLikeFirmware, Brought, SizeFits;
    var image := Brought(es, conn);
    ImageIsCopied(b, flash, conn, es, writes);
    PaddedIs(image);
    InFront(Run(b, flash, Session(conn, |image|, es, writes) + Requests(Crc(image))).flash, Padded(image), |image|);
  }
}
