/** The lease table as the firmware keeps it: an array changed in place while it is scanned. */
module DhcpServer {
  import opened Options
  import opened DhcpModel

  class Device {
    const net: nat
    const lease: array<Lease>
    ghost var acks: seq<Ack>

    ghost function State(): Server
      reads this, lease
    {
      Server(net, lease[..], acks)
    }

    ghost predicate Valid()
      reads this, lease
    {
      lease.Length == MAX_IP
    }

    constructor (net: nat)
      ensures Valid() && State() == Boot(net) && fresh(lease)
    {
      this.net := net;
      lease := new Lease[MAX_IP](_ => Lease(NOBODY, 0));
      acks := [];
      new;
      assert lease[..] == seq(MAX_IP, _ => Lease(NOBODY, 0));
    }

    method FindAddress(mac: Mac, ticks: nat) returns (yi: nat)
      requires Valid()
      modifies lease
      ensures ScanFrom(old(lease[..]), 0, MAX_IP, mac, ticks) == Scan(lease[..], yi)
    {
      hide Expired;
      yi := MAX_IP;
      var i := 0;
      while i < MAX_IP
        invariant i <= MAX_IP
        invariant ScanFrom(lease[..], i, yi, mac, ticks) == ScanFrom(old(lease[..]), 0, MAX_IP, mac, ticks)
      {
        if lease[i].mac == mac {
          yi := i;
          return;
        }
        if yi == MAX_IP {
          ghost var before := lease[..];
          var expired := Expired(lease[i].expiry, ticks);
          if lease[i].mac == NOBODY { yi := i; }
          if expired {
            lease[i] := lease[i].(mac := NOBODY);
            yi := i;
            assert lease[..] == before[i := before[i].(mac := NOBODY)];
          }
        }
        i := i + 1;
      }
    }

    /** One message in, at most one reply out. */
    method Process(msg: Message, now: nat) returns (reply: Reply)
      requires Valid()
      modifies this`acks, lease
      ensures Valid() && (State(), reply) == Answer(old(State()), msg, now)
    {
      hide ScanFrom, Stamp;
      match msg {
        case Discover(mac) =>
          var yi := FindAddress(mac, Ticks(now));
          if yi == MAX_IP { return Silence; }
          return Offer(yi);
        case Request(mac, asked) =>
          if asked.None? || asked.value.net != net { return Silence; }
          var yi := (asked.value.host + 0x100 - BASE_IP) % 0x100;
          if yi >= MAX_IP { return Silence; }
          ghost var before := lease[..];
          if lease[yi].mac == mac {
          } else if lease[yi].mac == NOBODY {
            lease[yi] := lease[yi].(mac := mac);
          } else {
            return Silence;
          }
          lease[yi] := lease[yi].(expiry := Stamp(now));
          assert lease[..] == before[yi := Lease(mac, Stamp(now))];
          acks := acks + [Ack(yi, mac, now)];
          return Acknowledge(yi);
        case Other => return Silence;
      }
    }
  }
}
