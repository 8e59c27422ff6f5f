/** An address is one client's until its lease has run out, over every run and any tick wrap. */
module DhcpSafety {
  import opened Options
  import opened DhcpModel

  /** The unbounded time just before which a lease acknowledged at `at` still counts as running. */
  function RunsOut(at: nat): nat {
    (at + LEASE_MS) / 0x1_0000 * 0x1_0000 + 0xffff
  }

  lemma StampIsRunsOut(at: nat)
    ensures Stamp(at) * 0x1_0000 + 0xffff == RunsOut(at) % WORD
    ensures at + LEASE_MS <= RunsOut(at) < at + LEASE_MS + 0x1_0000
  {
    ModOfSum(at, LEASE_MS);
    UpperHalf(at + LEASE_MS);
  }

  lemma ModOfSum(a: nat, b: nat)
    ensures (a % WORD + b) % WORD == (a + b) % WORD
  {
    var q := a / WORD;
    assert a + b == q * WORD + (a % WORD + b);
  }

  /** Dropping the lower 16 bits of a word, then setting them, is the same before and after truncation to 32 bits. */
  lemma UpperHalf(x: nat)
    ensures (x % WORD) / 0x1_0000 * 0x1_0000 + 0xffff == (x / 0x1_0000 * 0x1_0000 + 0xffff) % WORD
  {
    var q, r := x / WORD, x % WORD;
    var hi, lo := r / 0x1_0000, r % 0x1_0000;
    assert x == (q * 0x1_0000 + hi) * 0x1_0000 + lo;
    assert x / 0x1_0000 == q * 0x1_0000 + hi;
    assert x / 0x1_0000 * 0x1_0000 + 0xffff == q * WORD + (hi * 0x1_0000 + 0xffff);
  }

  /**
   The 16-bit stamp and the wrapping 32-bit tick say "expired" exactly in the half word of ticks after
   the lease ran out, and again every whole word later: an address abandoned for longer looks taken.
   */
  lemma ExpiredExactly(at: nat, now: nat)
    requires at <= now
    ensures Expired(Stamp(at), Ticks(now)) <==> now > RunsOut(at) && 1 <= (now - RunsOut(at)) % WORD <= HALF_WORD
  {
    hide Stamp, RunsOut;
    StampIsRunsOut(at);
    var out := RunsOut(at);
    ModOfDifference(out, now);
    if now <= out {
      assert 0 <= out - now < HALF_WORD;
    } else {
      ModOfNegative(now - out);
    }
  }

  lemma ModOfDifference(a: nat, b: nat)
    ensures (a % WORD - b % WORD) % WORD == (a - b) % WORD
  {
  }

  lemma ModOfNegative(late: int)
    requires 0 < late
    ensures (-late) % WORD == if late % WORD == 0 then 0 else WORD - late % WORD
  {
  }

  /** Another client gets the address only after the earlier client's lease has run its day. */
  predicate Exclusive(acks: seq<Ack>) {
    forall i, j :: 0 <= i < j < |acks| && acks[i].slot == acks[j].slot && acks[i].mac != acks[j].mac
                   && acks[i].mac != NOBODY
                   ==> acks[j].at > acks[i].at + 86_400_000
  }

  predicate UpToDate(s: Server, now: nat) {
    && |s.leases| == MAX_IP
    && (forall k :: 0 <= k < |s.acks| ==> s.acks[k].slot < MAX_IP && s.acks[k].at <= now)
    && Exclusive(s.acks)
    && (forall k :: 0 <= k < |s.acks| ==> HeldOrOver(s, s.acks[k], now))
  }

  /** The acknowledged client still holds the entry, stamped at its acknowledgement or later, or its day is over. */
  predicate HeldOrOver(s: Server, a: Ack, now: nat)
    requires |s.leases| == MAX_IP && a.slot < MAX_IP
  {
    a.mac != NOBODY ==>
      var l := s.leases[a.slot];
      if l.mac == a.mac then exists t: nat {:trigger Stamp(t)} :: a.at <= t <= now && l.expiry == Stamp(t)
      else a.at + LEASE_MS < now
  }

  /** Time passing alone changes nothing that is claimed. */
  lemma TimePasses(s: Server, now: nat, later: nat)
    requires UpToDate(s, now) && now <= later
    ensures UpToDate(s, later)
  {
    forall k | 0 <= k < |s.acks|
      ensures HeldOrOver(s, s.acks[k], later)
    {
      assert HeldOrOver(s, s.acks[k], now);
    }
  }

  lemma ClearingIsSafe(s: Server, i: nat, now: nat)
    requires UpToDate(s, now) && i < MAX_IP && Expired(s.leases[i].expiry, Ticks(now))
    ensures UpToDate(s.(leases := s.leases[i := s.leases[i].(mac := NOBODY)]), now)
  {
    hide Expired, Stamp, Ticks;
    var u := s.(leases := s.leases[i := s.leases[i].(mac := NOBODY)]);
    forall k | 0 <= k < |u.acks|
      ensures HeldOrOver(u, u.acks[k], now)
    {
      var a := s.acks[k];
      assert HeldOrOver(s, a, now);
      if a.slot == i && a.mac == s.leases[i].mac && a.mac != NOBODY {
        var t :| a.at <= t <= now && s.leases[i].expiry == Stamp(t);
        ExpiredExactly(t, now);
        StampIsRunsOut(t);
      }
    }
  }

  lemma {:induction false} ScanIsSafe(s: Server, i: nat, slot: nat, mac: Mac, now: nat)
    requires UpToDate(s, now) && i <= MAX_IP
    ensures UpToDate(s.(leases := ScanFrom(s.leases, i, slot, mac, Ticks(now)).leases), now)
    decreases MAX_IP - i
  {
    hide Expired, HeldOrOver, Exclusive, Stamp;
    var ls := s.leases;
    assert s.(leases := ls) == s;
    if i < MAX_IP && ls[i].mac != mac {
      if slot == MAX_IP && Expired(ls[i].expiry, Ticks(now)) {
        ClearingIsSafe(s, i, now);
        ScanIsSafe(s.(leases := ls[i := ls[i].(mac := NOBODY)]), i + 1, i, mac, now);
      } else {
        ScanIsSafe(s, i + 1, if slot == MAX_IP && ls[i].mac == NOBODY then i else slot, mac, now);
      }
    }
  }

  lemma GrantIsSafe(s: Server, slot: nat, mac: Mac, now: nat)
    requires UpToDate(s, now) && slot < MAX_IP && Grant(s.leases, slot, mac, now).Some?
    ensures UpToDate(s.(leases := Grant(s.leases, slot, mac, now).value, acks := s.acks + [Ack(slot, mac, now)]), now)
  {
    hide Stamp;
    var u := s.(leases := Grant(s.leases, slot, mac, now).value, acks := s.acks + [Ack(slot, mac, now)]);
    forall k | 0 <= k < |s.acks|
      ensures HeldOrOver(u, s.acks[k], now)
    {
      assert HeldOrOver(s, s.acks[k], now);
      if s.acks[k].slot == slot && s.acks[k].mac == mac {
        assert s.acks[k].at <= now <= now && u.leases[slot].expiry == Stamp(now);
      }
    }
    assert now <= now <= now && u.leases[slot].expiry == Stamp(now);
    forall i, j | 0 <= i < j < |u.acks| && u.acks[i].slot == u.acks[j].slot && u.acks[i].mac != u.acks[j].mac
                  && u.acks[i].mac != NOBODY
      ensures u.acks[j].at > u.acks[i].at + LEASE_MS
    {
      assert HeldOrOver(s, s.acks[i], now);
    }
  }

  lemma AnswerIsSafe(s: Server, msg: Message, now: nat)
    requires UpToDate(s, now)
    ensures UpToDate(Answer(s, msg, now).0, now)
  {
    hide UpToDate, Grant, ScanFrom;
    UpToDateLength(s, now);
    match msg {
      case Discover(mac) => ScanIsSafe(s, 0, MAX_IP, mac, now);
      case Request(mac, asked) =>
        var slot := AskedSlot(s.net, asked);
        if slot.Some? && Grant(s.leases, slot.value, mac, now).Some? {
          GrantIsSafe(s, slot.value, mac, now);
        }
      case Other =>
    }
  }

  lemma UpToDateLength(s: Server, now: nat)
    ensures UpToDate(s, now) ==> |s.leases| == MAX_IP
  {
  }

  /**
   In every run, however long, with any messages at any times: an address acknowledged to one client
   is acknowledged to another only more than a lease time after each acknowledgement to the first.
   */
  lemma {:induction false} LeasesAreExclusive(net: nat, es: seq<Event>)
    requires InOrder(es)
    ensures Exclusive(Serve(net, es).acks)
    ensures UpToDate(Serve(net, es), if es == [] then 0 else es[|es| - 1].at)
  {
    hide UpToDate, Answer;
    if es == [] {
      BootIsSafe(net);
    } else {
      var n := |es| - 1;
      LeasesAreExclusive(net, es[..n]);
      TimePasses(Serve(net, es[..n]), if n == 0 then 0 else es[n - 1].at, es[n].at);
      AnswerIsSafe(Serve(net, es[..n]), es[n].msg, es[n].at);
      UpToDateExclusive(Serve(net, es), es[n].at);
    }
  }

  lemma BootIsSafe(net: nat)
    ensures UpToDate(Boot(net), 0)
  {
  }

  lemma UpToDateExclusive(s: Server, now: nat)
    requires UpToDate(s, now)
    ensures Exclusive(s.acks)
  {
  }

  /**
   A client without a hardware address is outside the promise: the firmware keeps no entry for it,
   so the address it was just given can go to the next client at once.
   */
  lemma NobodyHoldsNothing(net: nat, mac: Mac, at: nat)
    requires mac != NOBODY
    ensures var ask := Some(Address(net, BASE_IP));
            var s := Serve(net, [Event(Request(NOBODY, ask), at), Event(Request(mac, ask), at)]);
            s.acks == [Ack(0, NOBODY, at), Ack(0, mac, at)]
  {
    var ask := Some(Address(net, BASE_IP));
    var e1, e2 := Event(Request(NOBODY, ask), at), Event(Request(mac, ask), at);
    assert [e1, e2][..1] == [e1] && [e1][..0] == [];
    assert Serve(net, []) == Boot(net);
    assert Serve(net, [e1]) == Answer(Boot(net), e1.msg, at).0;
    assert Serve(net, [e1, e2]) == Answer(Serve(net, [e1]), e2.msg, at).0;
  }

  // ----- what an offer is worth

  /** What the scan can have done to an entry. */
  lemma {:induction false} ScanEffect(ls: seq<Lease>, i: nat, slot: nat, mac: Mac, ticks: nat)
    requires |ls| == MAX_IP && i <= MAX_IP && slot <= MAX_IP
    requires slot < MAX_IP ==> ls[slot].mac == NOBODY && slot < i
    ensures var r := ScanFrom(ls, i, slot, mac, ticks);
            && |r.leases| == MAX_IP && r.slot <= MAX_IP
            && (r.slot < MAX_IP ==> r.leases[r.slot].mac == mac || r.leases[r.slot].mac == NOBODY)
            && (forall k :: 0 <= k < MAX_IP ==>
                  r.leases[k] == ls[k] || (r.leases[k] == ls[k].(mac := NOBODY) && Expired(ls[k].expiry, ticks)))
            && (r.slot == MAX_IP <==> slot == MAX_IP && forall k :: i <= k < MAX_IP ==>
                  ls[k].mac != mac && ls[k].mac != NOBODY && !Expired(ls[k].expiry, ticks))
            && (forall k :: i <= k < MAX_IP && ls[k].mac == mac && (forall j :: i <= j < k ==> ls[j].mac != mac) ==>
                r.slot == k)
    decreases MAX_IP - i
  {
    hide Expired;
    if i < MAX_IP && ls[i].mac != mac {
      if slot == MAX_IP && Expired(ls[i].expiry, ticks) {
        ScanEffect(ls[i := ls[i].(mac := NOBODY)], i + 1, i, mac, ticks);
        if mac == NOBODY {
          assert ls[i].mac != NOBODY;
        }
      } else {
        ScanEffect(ls, i + 1, if slot == MAX_IP && ls[i].mac == NOBODY then i else slot, mac, ticks);
      }
    }
  }

  /**
   The server stays silent to a DISCOVER exactly when every address is another client's running lease;
   a client with an entry is offered its first one; and a client that asks for what it was just
   offered gets it.
   */
  lemma OffersAreGood(s: Server, mac: Mac, now: nat, later: nat)
    requires |s.leases| == MAX_IP && mac != NOBODY
    ensures var (u, reply) := Answer(s, Discover(mac), now);
            && (reply == Silence <==> forall k :: 0 <= k < MAX_IP ==>
                  s.leases[k].mac != mac && s.leases[k].mac != NOBODY && !Expired(s.leases[k].expiry, Ticks(now)))
            && (forall k :: 0 <= k < MAX_IP && s.leases[k].mac == mac
                            && (forall j :: 0 <= j < k ==> s.leases[j].mac != mac) ==>
                  reply == Offer(k))
            && (reply.Offer? ==>
                  Answer(u, Request(mac, Some(Address(s.net, BASE_IP + reply.slot))), later).1
                      == Acknowledge(reply.slot))
  {
    hide Expired, ScanFrom, Stamp, Ticks, AskedSlot;
    ScanEffect(s.leases, 0, MAX_IP, mac, Ticks(now));
    var (u, reply) := Answer(s, Discover(mac), now);
    if reply.Offer? {
      SlotOf(s.net, reply.slot);
    }
  }

  lemma SlotOf(net: nat, slot: nat)
    requires slot < MAX_IP
    ensures AskedSlot(net, Some(Address(net, BASE_IP + slot))) == Some(slot)
  {
  }

  /** The address of an entry: sixteen and its number, in the server's own network. */
  function AddressOf(net: nat, slot: nat): Address {
    Address(net, 16 + slot)
  }

  /**
   A request is acknowledged exactly when it names one of the eight addresses and nobody else has that; then the
   entry is the asker's. Any other request changes nothing.
   */
  lemma RequestIs(s: Server, mac: Mac, asked: Option<Address>, now: nat)
    requires |s.leases| == MAX_IP && (asked.Some? ==> asked.value.host < 0x100)
    ensures var (u, reply) := Answer(s, Request(mac, asked), now);
            && (forall k: nat :: k < 8 && asked == Some(AddressOf(s.net, k)) ==>
                  if s.leases[k].mac == mac || s.leases[k].mac == 0
                  then reply == Acknowledge(k) && u.leases == s.leases[k := Lease(mac, Stamp(now))]
                  else reply == Silence && u == s)
            && ((forall k: nat :: k < 8 ==> asked != Some(AddressOf(s.net, k))) ==> reply == Silence && u == s)
  {
    hide Stamp;
    if asked.Some? && asked.value.net == s.net && 16 <= asked.value.host < 24 {
      assert asked == Some(AddressOf(s.net, asked.value.host - 16));
    }
  }
}
