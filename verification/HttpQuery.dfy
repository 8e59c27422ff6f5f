/**
 * The character buffers of src/http_rest.c: both percent decoders, and the query that is cut into
 * parameters and then decoded where it stands.
 */
module HttpQuery {
  import opened Options
  import opened QueryModel

  predicate Terminated(b: seq<char>, i: nat) {
    i <= |b| && NUL in b[i..]
  }

  /** The C string that starts at `i`. */
  function StringAt(b: seq<char>, i: nat): string
    requires i <= |b|
  {
    Cut(b[i..])
  }

  lemma StringFacts(b: seq<char>, i: nat)
    requires i <= |b|
    ensures var s := StringAt(b, i);
            && i + |s| <= |b| && s == b[i..i + |s|] && NUL !in s
            && (Terminated(b, i) <==> i + |s| < |b|)
            && (i + |s| < |b| ==> b[i + |s|] == NUL)
  {
    assert NUL in b[i..] ==> exists k | i <= k < |b| :: b[k] == NUL;
  }

  lemma StringIs(b: seq<char>, i: nat, s: string)
    requires i + |s| < |b| && b[i..i + |s|] == s && NUL !in s && b[i + |s|] == NUL
    ensures StringAt(b, i) == s
  {
    assert b[i..][..|s|] == s;
    IndexIsFirst(b[i..], NUL, |s|);
  }

  method Nibble(c: char) returns (v: int)
    requires IsHex(c)
    ensures v == HexValue(c)
  {
    v := c as int;
    if v >= 'a' as int {
      v := v - ('a' as int - 'A' as int);
    }
    if v >= 'A' as int {
      v := v - ('A' as int - 10);
    } else {
      v := v - '0' as int;
    }
  }

  lemma StringRest(b: seq<char>, i: nat, n: nat)
    requires i <= |b| && n <= |StringAt(b, i)| && Terminated(b, i)
    ensures StringAt(b, i + n) == StringAt(b, i)[n..] && Terminated(b, i + n)
  {
    var s := StringAt(b, i);
    assert b[i + n] == (s + [NUL])[n];
    StringIs(b, i + n, s[n..]);
  }

  /** Strings do not depend on what stands before them. */
  lemma SameTail(b: seq<char>, was: seq<char>, from: nat, i: nat)
    requires |b| == |was| && from <= i < |b| && b[from..] == was[from..]
    ensures b[i] == was[i] && b[i..] == was[i..] && StringAt(b, i) == StringAt(was, i)
  {
    assert b[i] == b[from..][i - from];
    assert b[i..] == b[from..][i - from..];
    assert was[i..] == was[from..][i - from..];
  }

  function UnitWidth(s: string): (n: nat)
    requires s != []
    ensures 1 <= n <= |s|
  {
    if Escaped(s) then 3 else 1
  }

  function UnitChar(s: string): char
    requires s != []
  {
    if Escaped(s) then Unescaped(s) else if s[0] == '+' then ' ' else s[0]
  }

  lemma DecodeStep(s: string)
    requires s != []
    ensures Decode(s) == [UnitChar(s)] + Decode(s[UnitWidth(s)..])
  {
  }

  /** The terminator stops the look at the two digits just where the length does. */
  lemma LookAhead(b: seq<char>, i: nat)
    requires i < |b| && Terminated(b, i) && b[i] != NUL
    ensures i + 1 < |b| && (b[i + 1] != NUL ==> i + 2 < |b|)
    ensures var s := StringAt(b, i);
            && s != [] && s[0] == b[i]
            && (Escaped(s) <==> b[i] == '%' && b[i + 1] != NUL && b[i + 2] != NUL && IsHex(b[i + 1]) && IsHex(b[i + 2]))
            && (Escaped(s) ==> s[1] == b[i + 1] && s[2] == b[i + 2])
  {
    var s := StringAt(b, i);
    assert forall k :: 0 <= k < |s| ==> s[k] == b[i + k];
  }

  /** Decoding `s` gives `c` for the first `n` characters. */
  ghost predicate FirstUnit(s: string, c: char, n: nat) {
    n <= |s| && Decode(s) == [c] + Decode(s[n..])
  }

  /** One character out, and how many were read for it: the body of both decoders. */
  method ReadUnit(buf: array<char>, src: nat) returns (n: nat, c: char)
    requires src < buf.Length && Terminated(buf[..], src) && buf[src] != NUL
    ensures n >= 1 && FirstUnit(StringAt(buf[..], src), c, n)
  {
    hide Decode, StringAt, Terminated;
    LookAhead(buf[..], src);
    ghost var s := StringAt(buf[..], src);
    if buf[src] == '%' && buf[src + 1] != NUL && buf[src + 2] != NUL && IsHex(buf[src + 1]) && IsHex(buf[src + 2]) {
      var a := Nibble(buf[src + 1]);
      var b := Nibble(buf[src + 2]);
      n, c := 3, (16 * a + b) as char;
    } else if buf[src] == '+' {
      n, c := 1, ' ';
    } else {
      n, c := 1, buf[src];
    }
    assert n == UnitWidth(s) && c == UnitChar(s);
    DecodeStep(s);
  }

  /** `done` is decoded from before `src`; with what is still to come it makes `all`. */
  ghost predicate Decoded(was: seq<char>, src: nat, done: string, all: string) {
    src < |was| && Terminated(was, src) && done + Decode(StringAt(was, src)) == all
  }

  lemma DecodedMore(was: seq<char>, src: nat, done: string, all: string, c: char, n: nat)
    requires Decoded(was, src, done, all)
    requires FirstUnit(StringAt(was, src), c, n)
    ensures Decoded(was, src + n, done + [c], all)
  {
    hide StringAt, Decode;
    StringRest(was, src, n);
    assert was[src + n..] != [];
    assert (done + [c]) + Decode(StringAt(was, src)[n..]) == done + ([c] + Decode(StringAt(was, src)[n..]));
  }

  lemma AllDecoded(was: seq<char>, src: nat, done: string, all: string)
    requires Decoded(was, src, done, all) && was[src] == NUL
    ensures done == all
  {
    StringIs(was, src, "");
  }

  method Put(buf: array<char>, i: nat, c: char)
    requires i < buf.Length
    modifies buf
    ensures buf[..] == old(buf[..])[i := c]
  {
    buf[i] := c;
  }

  /** `done` is written between `start` and `dst`; all else is as it `was`. */
  ghost predicate Written(b: seq<char>, was: seq<char>, start: nat, dst: nat, done: string) {
    start <= dst < |was| && |done| == dst - start && b == was[..start] + done + was[dst..]
  }

  lemma WriteOne(b: seq<char>, was: seq<char>, start: nat, dst: nat, done: string, c: char)
    requires Written(b, was, start, dst, done) && dst + 1 < |was|
    ensures |b| == |was| && Written(b[dst := c], was, start, dst + 1, done + [c])
  {
    assert was[dst..][1..] == was[dst + 1..];
  }

  lemma WriteLast(b: seq<char>, was: seq<char>, start: nat, dst: nat, done: string)
    requires Written(b, was, start, dst, done)
    ensures |b| == |was| && dst == start + |done|
    ensures b[dst := NUL] == was[..start] + (done + [NUL]) + was[dst + 1..]
  {
    assert was[dst..][1..] == was[dst + 1..];
  }

  lemma Untouched(b: seq<char>, was: seq<char>, start: nat, dst: nat, done: string, i: nat, all: string)
    requires Written(b, was, start, dst, done) && Decoded(was, i, done, all) && dst <= i
    ensures i < |b| == |was| && b[i] == was[i] && Terminated(b, i) && StringAt(b, i) == StringAt(was, i)
  {
    hide StringAt;
    assert b[i..] == was[dst..][i - dst..] == was[i..];
    assert b[i] == b[i..][0] && was[i] == was[i..][0];
    SameTail(b, was, i, i);
  }

  /** Where the in-place decoder stands: writing at `dst` has not overtaken reading at `src`. */
  ghost predicate Midway(b: seq<char>, was: seq<char>, start: nat, src: nat, dst: nat) {
    && dst <= src && Terminated(was, start)
    && exists done :: Written(b, was, start, dst, done) && Decoded(was, src, done, Decode(StringAt(was, start)))
  }

  /** `b` with the string at `i` decoded where it stands; bytes behind the new terminator stay as they were. */
  function InPlace(b: seq<char>, i: nat): seq<char>
    requires Terminated(b, i)
  {
    var d := Decode(StringAt(b, i));
    b[..i] + (d + [NUL]) + b[i + |d| + 1..]
  }

  /** What it is about to read is still what it was given. */
  lemma AboutToRead(b: seq<char>, was: seq<char>, start: nat, src: nat, dst: nat)
    requires Midway(b, was, start, src, dst)
    ensures dst <= src < |b| == |was| && b[src] == was[src]
    ensures Terminated(b, src) && StringAt(b, src) == StringAt(was, src)
  {
    hide Decode, Written, Decoded;
    var all := Decode(StringAt(was, start));
    var done :| Written(b, was, start, dst, done) && Decoded(was, src, done, all);
    Untouched(b, was, start, dst, done, src, all);
    InBounds(was, src, done, all);
  }

  lemma Onward(b: seq<char>, was: seq<char>, start: nat, src: nat, dst: nat, c: char, n: nat)
    requires Midway(b, was, start, src, dst) && dst < |b| && n >= 1
    requires FirstUnit(StringAt(was, src), c, n)
    ensures src + n < |b| && Midway(b[dst := c], was, start, src + n, dst + 1)
  {
    hide Decode, Written, Decoded, FirstUnit;
    var all := Decode(StringAt(was, start));
    var done :| Written(b, was, start, dst, done) && Decoded(was, src, done, all);
    DecodedMore(was, src, done, all, c, n);
    InBounds(was, src + n, done + [c], all);
    WriteOne(b, was, start, dst, done, c);
  }

  lemma Finished(b: seq<char>, was: seq<char>, start: nat, src: nat, dst: nat)
    requires Midway(b, was, start, src, dst) && src < |was| && was[src] == NUL
    ensures dst < |b| == |was| && Terminated(was, start) && b[dst := NUL] == InPlace(was, start)
  {
    hide StringAt, Decode, Decoded, Terminated;
    var all := Decode(StringAt(was, start));
    var done :| Written(b, was, start, dst, done) && Decoded(was, src, done, all);
    AllDecoded(was, src, done, all);
    WriteLast(b, was, start, dst, done);
  }

  /** The body of the in-place decoder's loop. */
  method DecodeOne(buf: array<char>, src: nat, dst: nat, ghost was: seq<char>, ghost start: nat)
    returns (src': nat, dst': nat)
    requires Midway(buf[..], was, start, src, dst) && src < buf.Length && buf[src] != NUL
    modifies buf
    ensures src < src' < buf.Length && Midway(buf[..], was, start, src', dst')
  {
    hide Decode, StringAt, Midway, Terminated, FirstUnit;
    AboutToRead(buf[..], was, start, src, dst);
    var n, c := ReadUnit(buf, src);
    Onward(buf[..], was, start, src, dst, c, n);
    Put(buf, dst, c);
    src', dst' := src + n, dst + 1;
  }

  /**
   * The in-place decoder leaves what the copying one writes. It reads from what is still untouched:
   * the place it writes at never passes the place it reads at.
   */
  method DecodeUriInplace(buf: array<char>, start: nat)
    requires Terminated(buf[..], start)
    modifies buf
    ensures buf[..] == InPlace(old(buf[..]), start)
  {
    ghost var was := buf[..];
    var src, dst := start, start;
    NothingYet(was, start);
    hide Decode, StringAt, Midway, Terminated, InPlace;
    while buf[src] != NUL
      invariant src < buf.Length && Midway(buf[..], was, start, src, dst)
      decreases buf.Length - src
    {
      src, dst := DecodeOne(buf, src, dst, was, start);
    }
    AboutToRead(buf[..], was, start, src, dst);
    Finished(buf[..], was, start, src, dst);
    Put(buf, dst, NUL);
  }

  lemma InBounds(was: seq<char>, src: nat, done: string, all: string)
    requires Decoded(was, src, done, all)
    ensures src < |was| && |done| <= |all| && Terminated(was, src)
  {
  }

  lemma NothingWritten(was: seq<char>, start: nat)
    requires start < |was|
    ensures Written(was, was, start, start, "")
  {
  }

  lemma NothingYet(was: seq<char>, start: nat)
    requires Terminated(was, start)
    ensures start < |was| && Written(was, was, start, start, "")
    ensures Decoded(was, start, "", Decode(StringAt(was, start)))
    ensures Midway(was, was, start, start, start)
  {
    var all := Decode(StringAt(was, start));
    assert Written(was, was, start, start, "") && Decoded(was, start, "", all);
  }

  /** The copying decoder: nothing of the target beyond the terminator is written. */
  method DecodeUri(dst: array<char>, source: array<char>, start: nat)
    requires dst != source && Terminated(source[..], start)
    requires |StringAt(source[..], start)| < dst.Length
    modifies dst
    ensures var d := Decode(StringAt(source[..], start));
            |d| < dst.Length && dst[..] == d + [NUL] + old(dst[..])[|d| + 1..]
  {
    ghost var was, from := source[..], dst[..];
    ghost var all := Decode(StringAt(was, start));
    hide StringAt, Decoded, Written, Terminated, FirstUnit;
    ghost var done: string := "";
    hide Decode;
    var src, k := start, 0;
    NothingYet(was, start);
    assert Written(from, from, 0, 0, "") by {
      NothingWritten(from, 0);
    }
    while source[src] != NUL
      invariant source[..] == was && start <= src < source.Length && k < dst.Length && k <= |all|
      invariant Written(dst[..], from, 0, k, done) && Decoded(was, src, done, all)
      decreases source.Length - src
    {
      InBounds(was, src, done, all);
      var n, c := ReadUnit(source, src);
      DecodedMore(was, src, done, all, c, n);
      InBounds(was, src + n, done + [c], all);
      WriteLast(dst[..], from, 0, k, done);
      WriteOne(dst[..], from, 0, k, done, c);
      Put(dst, k, c);
      done := done + [c];
      src, k := src + n, k + 1;
    }
    AllDecoded(was, src, done, all);
    WriteLast(dst[..], from, 0, k, done);
    Put(dst, k, NUL);
    assert from[..0] + (done + [NUL]) == done + [NUL];
  }

  // ----- cutting the query

  /** A pointer to a name and, when there is one, to its value. */
  datatype Slot = Slot(name: nat, value: Option<nat>)

  ghost predicate IsString(b: seq<char>, i: nat, s: string) {
    i + |s| < |b| && b[i..i + |s|] == s && b[i + |s|] == NUL && NUL !in s
  }

  /** Slot and strings of one parameter, all of it inside `lo..hi`. */
  ghost predicate Placed(b: seq<char>, slot: Slot, p: Pair, lo: nat, hi: nat) {
    && hi <= |b| && lo <= slot.name && slot.name + |p.name| < hi && IsString(b, slot.name, p.name)
    && slot.value.Some? == p.value.Some?
    && (slot.value.Some? ==>
          && slot.name + |p.name| < slot.value.value && slot.value.value + |p.value.value| < hi
          && IsString(b, slot.value.value, p.value.value))
  }

  /** Every parameter in its own part of the buffer. */
  ghost predicate AllPlaced(b: seq<char>, slots: seq<Slot>, ps: seq<Pair>, at: seq<nat>) {
    && |slots| == |ps| && |at| == |ps| + 1 && at[|ps|] <= |b|
    && (forall j, k :: 0 <= j <= k < |at| ==> at[j] <= at[k])
    && (forall k :: 0 <= k < |ps| ==> Placed(b, slots[k], ps[k], at[k], at[k + 1]))
  }

  lemma PlacedStays(b: seq<char>, b': seq<char>, slot: Slot, p: Pair, lo: nat, hi: nat)
    requires Placed(b, slot, p, lo, hi) && lo <= hi
    requires |b'| == |b| && b'[lo..hi] == b[lo..hi]
    ensures Placed(b', slot, p, lo, hi)
  {
    StringStays(b, b', slot.name, p.name, lo, hi);
    if slot.value.Some? {
      StringStays(b, b', slot.value.value, p.value.value, lo, hi);
    }
  }

  lemma StringStays(b: seq<char>, b': seq<char>, i: nat, s: string, lo: nat, hi: nat)
    requires lo <= i && i + |s| < hi <= |b| == |b'| && IsString(b, i, s) && b'[lo..hi] == b[lo..hi]
    ensures IsString(b', i, s)
  {
    forall k | lo <= k < hi
      ensures b'[k] == b[k]
    {
      assert b'[k] == b'[lo..hi][k - lo];
    }
    assert b'[i..i + |s|] == b[i..i + |s|];
  }

  /** `strchr`: the first `c` in the string at `i`. */
  function StrChr(b: seq<char>, i: nat, c: char): Option<nat>
    requires i <= |b|
  {
    var s := StringAt(b, i);
    var k := IndexOf(s, c);
    if k < |s| then Some(i + k) else None
  }

  /** Put a terminator inside a string: it ends there. */
  lemma CutString(b: seq<char>, i: nat, s: string, k: nat)
    requires IsString(b, i, s) && k <= |s|
    ensures IsString(b[i + k := NUL], i, s[..k])
    ensures k < |s| ==> IsString(b[i + k := NUL], i + k + 1, s[k + 1..])
    ensures k < |s| ==> b[i + k := NUL][i + k + 1..] == b[i + k + 1..]
  {
    var b' := b[i + k := NUL];
    assert b'[i..i + k] == b[i..i + |s|][..k];
    if k < |s| {
      assert b'[i + k + 1..i + |s|] == b[i..i + |s|][k + 1..];
    }
  }

  lemma StringHere(b: seq<char>, i: nat)
    requires Terminated(b, i)
    ensures IsString(b, i, StringAt(b, i))
  {
    StringFacts(b, i);
  }

  lemma HereString(b: seq<char>, i: nat, s: string)
    requires IsString(b, i, s)
    ensures Terminated(b, i) && StringAt(b, i) == s
  {
    StringIs(b, i, s);
    StringFacts(b, i);
  }

  /** Cut one piece at its '='. */
  method CutAtEquals(buf: array<char>, pair: nat, ghost piece: string) returns (slot: Slot)
    requires IsString(buf[..], pair, piece)
    modifies buf
    ensures Placed(buf[..], slot, PairOf(piece), pair, pair + |piece| + 1)
    ensures buf[..][..pair] == old(buf[..])[..pair]
    ensures buf[..][pair + |piece| + 1..] == old(buf[..])[pair + |piece| + 1..]
  {
    hide StringAt;
    ghost var b := buf[..];
    HereString(b, pair, piece);
    var equals := StrChr(buf[..], pair, '=');
    if equals.Some? {
      CutString(b, pair, piece, equals.value - pair);
      Put(buf, equals.value, NUL);
      slot := Slot(pair, Some(equals.value + 1));
    } else {
      slot := Slot(pair, None);
    }
  }

  /** Cut off the first piece of the string at `pair`. */
  method CutPiece(buf: array<char>, pair: nat) returns (next: Option<nat>)
    requires Terminated(buf[..], pair)
    modifies buf
    ensures var q := StringAt(old(buf[..]), pair);
            var (piece, more) := Piece(q);
            && IsString(buf[..], pair, piece)
            && next == (if more then Some(pair + |piece| + 1) else None)
            && (more ==> IsString(buf[..], pair + |piece| + 1, q[|piece| + 1..]))
    ensures buf[..][..pair] == old(buf[..])[..pair]
  {
    hide StringAt, IsString;
    ghost var b := buf[..];
    ghost var q := StringAt(b, pair);
    StringHere(b, pair);
    next := StrChr(buf[..], pair, '&');
    if next.Some? {
      CutString(b, pair, q, |Piece(q).0|);
      Put(buf, next.value, NUL);
      next := Some(next.value + 1);
    } else {
      CutString(b, pair, q, |Piece(q).0|);
      var space := StrChr(buf[..], pair, ' ');
      if space.Some? {
        Put(buf, space.value, NUL);
      } else {
        assert Piece(q).0 == q;
      }
    }
  }

  /** The body of the loop over the parameters. */
  method CutOne(buf: array<char>, pair: nat) returns (slot: Slot, next: Option<nat>)
    requires Terminated(buf[..], pair)
    modifies buf
    ensures var q := StringAt(old(buf[..]), pair);
            var (piece, more) := Piece(q);
            && Placed(buf[..], slot, PairOf(piece), pair, pair + |piece| + 1)
            && next == (if more then Some(pair + |piece| + 1) else None)
            && (more ==> IsString(buf[..], pair + |piece| + 1, q[|piece| + 1..]))
    ensures buf[..][..pair] == old(buf[..])[..pair]
  {
    hide StringAt, PairOf, Placed;
    ghost var q := StringAt(buf[..], pair);
    ghost var piece := Piece(q).0;
    hide Piece;
    next := CutPiece(buf, pair);
    ghost var cut := buf[..];
    slot := CutAtEquals(buf, pair, piece);
    if next.Some? {
      StringBehind(cut, buf[..], pair + |piece| + 1, q[|piece| + 1..]);
    }
  }

  lemma StringBehind(b: seq<char>, b': seq<char>, i: nat, s: string)
    requires |b| == |b'| && IsString(b, i, s) && i <= |b| && b'[i..] == b[i..]
    ensures IsString(b', i, s)
  {
    assert b'[i..][..|s|] == b'[i..i + |s|] && b[i..][..|s|] == b[i..i + |s|];
    assert b'[i..][|s|] == b[i..][|s|];
  }

  /** With `found` and what is still in `q`, at most `limit` in all, one gets `all`. */
  ghost predicate Leads(found: seq<Pair>, q: string, limit: nat, all: seq<Pair>) {
    |found| <= limit && found + Split(q, limit - |found|) == all
  }

  lemma LeadsOn(found: seq<Pair>, q: string, limit: nat, all: seq<Pair>)
    requires Leads(found, q, limit, all) && |found| < limit
    ensures var (piece, more) := Piece(q);
            && (more ==> Leads(found + [PairOf(piece)], q[|piece| + 1..], limit, all))
            && (!more ==> found + [PairOf(piece)] == all)
  {
    hide PairOf;
    var (piece, more) := Piece(q);
    hide Piece;
    if more {
      var rest := Split(q[|piece| + 1..], limit - |found| - 1);
      assert found + ([PairOf(piece)] + rest) == (found + [PairOf(piece)]) + rest;
    } else {
      assert [PairOf(piece)] + [] == [PairOf(piece)];
    }
  }

  /** The loop over the parameters: `found` are cut and placed, the rest of `all` is still to be cut. */
  ghost predicate Cutting(b: seq<char>, slots: seq<Slot>, found: seq<Pair>, at: seq<nat>, pair: Option<nat>,
                          limit: nat, all: seq<Pair>) {
    && AllPlaced(b, slots, found, at)
    && match pair
       case None => found == all
       case Some(p) => p == at[|found|] && Terminated(b, p) && Leads(found, StringAt(b, p), limit, all)
  }

  /** One more parameter behind the others. */
  lemma PlaceOneMore(b: seq<char>, b': seq<char>, slots: seq<Slot>, ps: seq<Pair>, at: seq<nat>,
                     slot: Slot, p: Pair, hi: nat)
    requires AllPlaced(b, slots, ps, at) && |b| == |b'|
    requires var end := at[|ps|]; end < hi && b'[..end] == b[..end] && Placed(b', slot, p, end, hi)
    ensures AllPlaced(b', slots + [slot], ps + [p], at + [hi])
  {
    var end := at[|ps|];
    forall k | 0 <= k < |ps|
      ensures Placed(b', slots[k], ps[k], at[k], at[k + 1])
    {
      assert b'[at[k]..at[k + 1]] == b'[..end][at[k]..at[k + 1]];
      assert b[at[k]..at[k + 1]] == b[..end][at[k]..at[k + 1]];
      PlacedStays(b, b', slots[k], ps[k], at[k], at[k + 1]);
    }
    assert Placed(b', slot, p, end, hi);
  }

  lemma CuttingStep(b: seq<char>, b': seq<char>, slots: seq<Slot>, found: seq<Pair>, at: seq<nat>, pair: nat,
                    limit: nat, all: seq<Pair>, slot: Slot, next: Option<nat>)
    requires Cutting(b, slots, found, at, Some(pair), limit, all) && |found| < limit && |b| == |b'|
    requires pair <= |b| && b'[..pair] == b[..pair]
    requires var q := StringAt(b, pair);
             var (piece, more) := Piece(q);
             && Placed(b', slot, PairOf(piece), pair, pair + |piece| + 1)
             && next == (if more then Some(pair + |piece| + 1) else None)
             && (more ==> IsString(b', pair + |piece| + 1, q[|piece| + 1..]))
    ensures var piece := Piece(StringAt(b, pair)).0;
            Cutting(b', slots + [slot], found + [PairOf(piece)], at + [pair + |piece| + 1], next, limit, all)
  {
    hide PairOf, StringAt, Placed, IsString, AllPlaced, Leads, Piece, Terminated;
    var q := StringAt(b, pair);
    var piece := Piece(q).0;
    LeadsOn(found, q, limit, all);
    AtHas(b, slots, found, at);
    PlaceOneMore(b, b', slots, found, at, slot, PairOf(piece), pair + |piece| + 1);
    if next.Some? {
      HereString(b', pair + |piece| + 1, q[|piece| + 1..]);
    }
  }

  lemma AtHas(b: seq<char>, slots: seq<Slot>, ps: seq<Pair>, at: seq<nat>)
    requires AllPlaced(b, slots, ps, at)
    ensures |at| == |ps| + 1 && |slots| == |ps| && at[|ps|] <= |b|
  {
  }

  lemma CuttingStarts(b: seq<char>, limit: nat)
    requires Terminated(b, 0)
    ensures b != [] && (b[0] == NUL <==> StringAt(b, 0) == "")
    ensures Cutting(b, [], [], [0], Some(0), limit, Split(StringAt(b, 0), limit))
  {
    hide Split, StringAt;
    StringFacts(b, 0);
  }

  lemma CuttingEnds(b: seq<char>, slots: seq<Slot>, found: seq<Pair>, at: seq<nat>, pair: Option<nat>,
                    limit: nat, all: seq<Pair>)
    requires Cutting(b, slots, found, at, pair, limit, all) && (|slots| >= limit || pair.None?)
    ensures AllPlaced(b, slots, all, at)
  {
    hide Placed, StringAt;
  }

  /** Cuts the string in place: the slots point at the names and values of the parameters. */
  method ExtractUriParameters(buf: array<char>, limit: nat) returns (slots: seq<Slot>, ghost at: seq<nat>)
    requires Terminated(buf[..], 0)
    modifies buf
    ensures AllPlaced(buf[..], slots, Extract(StringAt(old(buf[..]), 0), limit), at)
  {
    hide StringAt, PairOf, Placed, Piece, Split, Terminated, Cutting, IsString;
    ghost var q := StringAt(buf[..], 0);
    CuttingStarts(buf[..], limit);
    slots, at := [], [0];
    if buf[0] == NUL {
      return;
    }
    hide AllPlaced;
    ghost var all, found: seq<Pair> := Split(q, limit), [];
    var pair := Some(0);
    while |slots| < limit && pair.Some?
      invariant Cutting(buf[..], slots, found, at, pair, limit, all)
      decreases limit - |slots|
    {
      ghost var b := buf[..];
      var here := pair.value;
      CuttingAt(b, slots, found, at, here, limit, all);
      var slot, next := CutOne(buf, here);
      CuttingStep(b, buf[..], slots, found, at, here, limit, all, slot, next);
      ghost var piece := Piece(StringAt(b, here)).0;
      slots, found, at, pair := slots + [slot], found + [PairOf(piece)], at + [here + |piece| + 1], next;
    }
    CuttingEnds(buf[..], slots, found, at, pair, limit, all);
  }

  lemma CuttingAt(b: seq<char>, slots: seq<Slot>, found: seq<Pair>, at: seq<nat>, p: nat, limit: nat, all: seq<Pair>)
    requires Cutting(b, slots, found, at, Some(p), limit, all)
    ensures Terminated(b, p) && |found| == |slots|
  {
  }

  // ----- decoding the values where they stand

  lemma StringInPlace(b: seq<char>, v: nat, s: string)
    requires IsString(b, v, s)
    ensures Terminated(b, v) && |Decode(s)| <= |s|
    ensures InPlace(b, v) == b[..v] + (Decode(s) + [NUL]) + b[v + |Decode(s)| + 1..]
    ensures IsString(InPlace(b, v), v, Cut(Decode(s)))
  {
    HereString(b, v, s);
    WrittenString(InPlace(b, v), b[..v], Decode(s), b[v + |Decode(s)| + 1..]);
  }

  lemma WrittenString(b: seq<char>, before: seq<char>, d: string, behind: seq<char>)
    requires b == before + (d + [NUL]) + behind
    ensures IsString(b, |before|, Cut(d))
  {
    var c := Cut(d);
    hide IndexOf;
    var i := |before|;
    assert forall k :: 0 <= k <= |d| ==> b[i + k] == (d + [NUL])[k];
    assert b[i..i + |c|] == c;
  }

  lemma Around(b: seq<char>, v: nat, mid: string, lo: nat, hi: nat)
    requires v + |mid| <= |b| && lo <= hi <= |b| && (hi <= v || v + |mid| <= lo)
    ensures var b' := b[..v] + mid + b[v + |mid|..]; |b'| == |b| && b'[lo..hi] == b[lo..hi]
  {
    var b' := b[..v] + mid + b[v + |mid|..];
    assert forall k :: lo <= k < hi ==> b'[k] == b[k];
  }

  lemma InPlaceFrame(b: seq<char>, v: nat, s: string, lo: nat, hi: nat)
    requires IsString(b, v, s) && lo <= hi <= |b| && (hi <= v || v + |s| < lo)
    ensures Terminated(b, v) && |InPlace(b, v)| == |b| && InPlace(b, v)[lo..hi] == b[lo..hi]
  {
    HereString(b, v, s);
    Around(b, v, Decode(s) + [NUL], lo, hi);
  }

  /** Decoding one value leaves all other strings alone. */
  lemma DecodeOneValue(b: seq<char>, slots: seq<Slot>, ps: seq<Pair>, at: seq<nat>, i: nat)
    requires AllPlaced(b, slots, ps, at) && i < |ps| && slots[i].value.Some?
    ensures Terminated(b, slots[i].value.value)
    ensures AllPlaced(InPlace(b, slots[i].value.value), slots, ps[i := DecodePair(ps[i])], at)
  {
    hide InPlace, Decode, Cut, Terminated;
    var slot := slots[i];
    assert Placed(b, slot, ps[i], at[i], at[i + 1]);
    var v, s := slot.value.value, ps[i].value.value;
    StringInPlace(b, v, s);
    InPlaceFrame(b, v, s, 0, 0);
    var b' := InPlace(b, v);
    OwnName(b, slot, ps[i], at[i], at[i + 1]);
    forall k | 0 <= k < |ps| && k != i
      ensures Placed(b', slots[k], ps[k], at[k], at[k + 1])
    {
      assert Placed(b, slots[k], ps[k], at[k], at[k + 1]);
      assert k < i ==> at[k + 1] <= at[i];
      assert i < k ==> at[i + 1] <= at[k];
      InPlaceFrame(b, v, s, at[k], at[k + 1]);
      PlacedStays(b, b', slots[k], ps[k], at[k], at[k + 1]);
    }
  }

  lemma OwnName(b: seq<char>, slot: Slot, p: Pair, lo: nat, hi: nat)
    requires Placed(b, slot, p, lo, hi) && slot.value.Some?
    ensures Terminated(b, slot.value.value) && Placed(InPlace(b, slot.value.value), slot, DecodePair(p), lo, hi)
  {
    hide InPlace, Decode, Terminated;
    var v, s := slot.value.value, p.value.value;
    StringInPlace(b, v, s);
    InPlaceFrame(b, v, s, 0, v);
    StringStays(b, InPlace(b, v), slot.name, p.name, 0, v);
    assert |Cut(Decode(s))| <= |s|;
  }

  /** The first `n` values decoded. */
  ghost function DecodeSome(ps: seq<Pair>, n: nat): (r: seq<Pair>)
    ensures |r| == |ps|
  {
    seq(|ps|, k requires 0 <= k < |ps| => if k < n then DecodePair(ps[k]) else ps[k])
  }

  lemma DecodeSomeStep(ps: seq<Pair>, i: nat)
    requires i < |ps|
    ensures DecodeSome(ps, i)[i] == ps[i]
    ensures DecodeSome(ps, i)[i := DecodePair(ps[i])] == DecodeSome(ps, i + 1)
  {
    hide DecodePair;
  }

  lemma DecodeSomeEnds(ps: seq<Pair>)
    ensures DecodeSome(ps, 0) == ps && DecodeSome(ps, |ps|) == DecodeAll(ps)
  {
    hide DecodePair;
  }

  /** The strings of a request after the values are decoded. */
  method DecodeValues(buf: array<char>, slots: seq<Slot>, ghost ps: seq<Pair>, ghost at: seq<nat>)
    requires AllPlaced(buf[..], slots, ps, at)
    modifies buf
    ensures AllPlaced(buf[..], slots, DecodeAll(ps), at)
  {
    AtHas(buf[..], slots, ps, at);
    hide InPlace, Decode, DecodePair, Terminated, DecodeSome, AllPlaced;
    DecodeSomeEnds(ps);
    for i := 0 to |slots|
      invariant AllPlaced(buf[..], slots, DecodeSome(ps, i), at)
    {
      DecodeSomeStep(ps, i);
      if slots[i].value.Some? {
        DecodeOneValue(buf[..], slots, DecodeSome(ps, i), at, i);
        DecodeUriInplace(buf, slots[i].value.value);
      } else {
        NoValue(buf[..], slots, DecodeSome(ps, i), at, i);
      }
    }
  }

  lemma NoValue(b: seq<char>, slots: seq<Slot>, ps: seq<Pair>, at: seq<nat>, i: nat)
    requires AllPlaced(b, slots, ps, at) && i < |ps| && slots[i].value.None?
    ensures ps[i := DecodePair(ps[i])] == ps
  {
    assert Placed(b, slots[i], ps[i], at[i], at[i + 1]);
  }

  // ----- a whole request

  /** `strncpy` into a buffer of URI_LEN: the string as far as there is room, then only terminators. */
  method CopyQuery(uri: array<char>, start: nat) returns (buf: array<char>)
    requires Terminated(uri[..], start)
    ensures fresh(buf) && Terminated(buf[..], 0) && StringAt(buf[..], 0) == Clip(StringAt(uri[..], start))
  {
    hide StringAt;
    StringFacts(uri[..], start);
    ghost var q := StringAt(uri[..], start);
    buf := new char[URI_LEN](i => NUL);
    var i := 0;
    while i < URI_LEN - 1 && uri[start + i] != NUL
      invariant i <= |q| && i < URI_LEN
      invariant buf[..] == q[..i] + seq(URI_LEN - i, k => NUL)
    {
      assert q[i] == uri[start + i];
      ghost var b := buf[..];
      Put(buf, i, uri[start + i]);
      assert buf[..] == q[..i + 1] + seq(URI_LEN - i - 1, k => NUL);
      i := i + 1;
    }
    assert uri[start + |q|] == NUL;
    assert Clip(q) == q[..i];
    HereString(buf[..], 0, q[..i]);
  }

  /** `memcpy` of the path, with a terminator of its own. */
  method CopyStart(uri: array<char>, len: nat) returns (copy: array<char>)
    requires Terminated(uri[..], 0) && len <= |StringAt(uri[..], 0)|
    ensures fresh(copy) && copy.Length == len + 1
    ensures Terminated(copy[..], 0) && StringAt(copy[..], 0) == StringAt(uri[..], 0)[..len]
  {
    hide StringAt;
    ghost var u := StringAt(uri[..], 0);
    StringFacts(uri[..], 0);
    copy := new char[len + 1](i => NUL);
    for i := 0 to len
      invariant copy[..] == u[..i] + seq(len + 1 - i, k => NUL)
    {
      Put(copy, i, uri[i]);
    }
    HereString(copy[..], 0, u[..len]);
  }

  lemma WrittenFromStart(b: seq<char>, d: string, behind: seq<char>)
    requires b == d + [NUL] + behind
    ensures Terminated(b, 0) && StringAt(b, 0) == Cut(d)
  {
    hide StringAt, Terminated, Cut;
    assert b == [] + (d + [NUL]) + behind;
    WrittenString(b, [], d, behind);
    HereString(b, 0, Cut(d));
  }

  /** The path, decoded into a buffer of its own. */
  method CopyPath(uri: array<char>, len: nat) returns (path: array<char>)
    requires Terminated(uri[..], 0) && len <= |StringAt(uri[..], 0)|
    ensures fresh(path) && Terminated(path[..], 0)
    ensures StringAt(path[..], 0) == Cut(Decode(StringAt(uri[..], 0)[..len]))
  {
    var copy := CopyStart(uri, len);
    ghost var d := Decode(StringAt(uri[..], 0)[..len]);
    hide StringAt, Decode, Terminated, Cut;
    path := new char[len + 1](i => NUL);
    DecodeUri(path, copy, 0);
    WrittenFromStart(path[..], d, path[..][|d| + 1..]);
  }

  /** The query is cut before anything in it is decoded; only the path is decoded as a whole. */
  method ParseRequest(uri: array<char>, limit: nat)
    returns (path: array<char>, params: array<char>, slots: seq<Slot>, ghost at: seq<nat>)
    requires Terminated(uri[..], 0)
    ensures Terminated(path[..], 0)
    ensures var u := StringAt(uri[..], 0);
            && StringAt(path[..], 0) == Cut(Decode(u[..IndexOf(u, '?')]))
            && AllPlaced(params[..], slots, Requested(u, limit), at)
  {
    hide StringAt, Decode, DecodeAll, Extract, Clip;
    ghost var u := StringAt(uri[..], 0);
    StringFacts(uri[..], 0);
    var query := StrChr(uri[..], 0, '?');
    if query.None? {
      var len := |StringAt(uri[..], 0)|;
      path := CopyPath(uri, len);
      params, slots, at := new char[0], [], [0];
    } else {
      path := CopyPath(uri, query.value);
      StringRest(uri[..], 0, query.value + 1);
      params := CopyQuery(uri, query.value + 1);
      ghost var q := Clip(u[query.value + 1..]);
      slots, at := ExtractUriParameters(params, limit);
      DecodeValues(params, slots, Extract(q, limit), at);
    }
  }
}
