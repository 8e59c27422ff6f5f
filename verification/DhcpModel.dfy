/**
 The access point's DHCP server (src/dhcpserver.c): eight addresses, each with the hardware address it
 is leased to and the upper half of the 32-bit tick at which the lease runs out. Time is unbounded
 here; the firmware sees it modulo 2^32.
 */
module DhcpModel {
  import opened Options

  const MAX_IP: nat := 8
  const BASE_IP: nat := 16
  const LEASE_MS: nat := 86_400_000
  const WORD: nat := 0x1_0000_0000
  const HALF_WORD: nat := 0x8000_0000
  const NOBODY: nat := 0

  /** A hardware address as a number; zero marks a free entry. */
  type Mac = nat

  datatype Lease = Lease(mac: Mac, expiry: nat)

  /** The address a client asks for: the network part and the last octet. */
  datatype Address = Address(net: nat, host: nat)

  datatype Message = Discover(mac: Mac) | Request(mac: Mac, asked: Option<Address>) | Other

  datatype Reply = Silence | Offer(slot: nat) | Acknowledge(slot: nat)

  function Ticks(now: nat): nat {
    now % WORD
  }

  /** The 16 bits kept of the tick at which a lease acknowledged now runs out. */
  function Stamp(now: nat): (e: nat)
    ensures e < 0x1_0000
  {
    ((Ticks(now) + LEASE_MS) % WORD) / 0x1_0000
  }

  /** The signed 32-bit difference between the stamp, its lower half all ones, and the tick is negative. */
  predicate Expired(expiry: nat, ticks: nat) {
    (expiry * 0x1_0000 + 0xffff - ticks) % WORD >= HALF_WORD
  }

  // ----- DISCOVER

  datatype Scan = Scan(leases: seq<Lease>, slot: nat)

  /** The scan from entry i on, with `slot` the best entry so far (MAX_IP for none). */
  function ScanFrom(ls: seq<Lease>, i: nat, slot: nat, mac: Mac, ticks: nat): Scan
    requires |ls| == MAX_IP && i <= MAX_IP
    decreases MAX_IP - i
  {
    if i == MAX_IP then Scan(ls, slot)
    else if ls[i].mac == mac then Scan(ls, i)
    else if slot == MAX_IP then
      if Expired(ls[i].expiry, ticks) then ScanFrom(ls[i := ls[i].(mac := NOBODY)], i + 1, i, mac, ticks)
      else ScanFrom(ls, i + 1, if ls[i].mac == NOBODY then i else slot, mac, ticks)
    else ScanFrom(ls, i + 1, slot, mac, ticks)
  }

  // ----- REQUEST

  /** The entry a request is about, if it names an address of this server. */
  function AskedSlot(net: nat, asked: Option<Address>): Option<nat> {
    if asked.None? || asked.value.net != net then None
    else
      var slot := (asked.value.host + 0x100 - BASE_IP) % 0x100;
      if slot >= MAX_IP then None else Some(slot)
  }

  /** Where nobody else holds the address it is leased to the asker until a day from now. */
  function Grant(ls: seq<Lease>, slot: nat, mac: Mac, now: nat): Option<seq<Lease>>
    requires slot < |ls|
  {
    if ls[slot].mac == mac || ls[slot].mac == NOBODY then Some(ls[slot := Lease(mac, Stamp(now))]) else None
  }

  // ----- runs

  datatype Ack = Ack(slot: nat, mac: Mac, at: nat)

  datatype Server = Server(net: nat, leases: seq<Lease>, acks: seq<Ack>)

  function Answer(s: Server, msg: Message, now: nat): (r: (Server, Reply))
    requires |s.leases| == MAX_IP
    ensures |r.0.leases| == MAX_IP
  {
    match msg
    case Discover(mac) =>
      ScanLength(s.leases, 0, MAX_IP, mac, Ticks(now));
      var scan := ScanFrom(s.leases, 0, MAX_IP, mac, Ticks(now));
      (s.(leases := scan.leases), if scan.slot == MAX_IP then Silence else Offer(scan.slot))
    case Request(mac, asked) =>
      var slot := AskedSlot(s.net, asked);
      if slot.None? then (s, Silence)
      else
        var granted := Grant(s.leases, slot.value, mac, now);
        if granted.None? then (s, Silence)
        else (s.(leases := granted.value, acks := s.acks + [Ack(slot.value, mac, now)]), Acknowledge(slot.value))
    case Other => (s, Silence)
  }

  lemma {:induction false} ScanLength(ls: seq<Lease>, i: nat, slot: nat, mac: Mac, ticks: nat)
    requires |ls| == MAX_IP && i <= MAX_IP
    ensures |ScanFrom(ls, i, slot, mac, ticks).leases| == MAX_IP
    decreases MAX_IP - i
  {
    if i < MAX_IP {
      ScanLength(ls[i := ls[i].(mac := NOBODY)], i + 1, i, mac, ticks);
      ScanLength(ls, i + 1, i, mac, ticks);
      ScanLength(ls, i + 1, slot, mac, ticks);
    }
  }

  datatype Event = Event(msg: Message, at: nat)

  function Boot(net: nat): Server {
    Server(net, seq(MAX_IP, _ => Lease(NOBODY, 0)), [])
  }

  function Serve(net: nat, es: seq<Event>): (s: Server)
    ensures |s.leases| == MAX_IP
  {
    if es == [] then Boot(net)
    else
      var e := es[|es| - 1];
      Answer(Serve(net, es[..|es| - 1]), e.msg, e.at).0
  }

  /** The clock does not run backwards. */
  predicate InOrder(es: seq<Event>) {
    forall i, j :: 0 <= i < j < |es| ==> es[i].at <= es[j].at
  }
}
