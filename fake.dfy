/**
 * The simulated backend: an Internet that mints Networks and routes packets
 * between them, Networks that translate addresses (NAT) and hand packets to
 * their Connections, and Connections that read and write datagrams.
 *
 * The source passes every packet on through a goroutine that blocks on an
 * unbuffered channel. Here each such goroutine is an entry in a multiset of
 * pending hand-offs held by the receiving side (`toInternet`, `fromInternet`).
 * A receive is a step that takes any one pending entry, so no delivery order
 * is implied. Each arm of the dispatch loop is one atomic step. Locks have
 * no effect in this sequential model.
 */
module Fake {
  import opened Wrappers
  import opened Addresses

  /** A value of the `network.Addr` interface: nil, a fake address, or another backend's address. */
  datatype NetAddr = Nil | Fake(addr: Addr) | Other(network: string, text: string)

  /** The errors the backend returns, one constructor per message. */
  datatype Error =
    | NotFakeAddr(got: NetAddr)     // "Expected a fake addr, got %v."
    | PortTaken(port: int)          // "Port %d is already taken."
    | DialPortInUse(port: int)      // "Failed to dial, port %d already in used."
    | ListenPortInUse(port: int)    // "Failed to listen, port %d already in used."

  /** Dial draws a missing local port with `rand.Intn(EphemeralPorts)`. */
  const EphemeralPorts: int := 1000

  function Min(a: int, b: int): int {
    if a < b then a else b
  }

  /** `p` is the least non-negative external port that has no inward binding. */
  ghost predicate LeastFree(inward: map<int, Addr>, p: int) {
    0 <= p && p !in inward && forall k :: 0 <= k < p ==> k in inward
  }

  /** Every outward binding is matched by the inward binding of its external port. */
  ghost predicate OutwardBacked(outward: map<Addr, int>, inward: map<int, Addr>) {
    forall a :: a in outward ==> outward[a] in inward && inward[outward[a]] == a
  }

  /** The port found by a scan that stops at the first free port is the one free port below which all are bound. */
  lemma LeastFreeUnique(inward: map<int, Addr>, p: int, q: int)
    requires LeastFree(inward, p) && LeastFree(inward, q)
    ensures p == q
  {
  }

  /** No two internal addresses share an external port. */
  lemma OutwardInjective(outward: map<Addr, int>, inward: map<int, Addr>, a: Addr, b: Addr)
    requires OutwardBacked(outward, inward)
    requires a in outward && b in outward && outward[a] == outward[b]
    ensures a == b
  {
  }

  /** A set holding all of `[0, n)` has at least `n` elements. */
  lemma {:induction false} PrefixBound(keys: set<int>, n: nat)
    requires forall k :: 0 <= k < n ==> k in keys
    ensures n <= |keys|
  {
    if n > 0 {
      PrefixBound(keys - {n - 1}, n - 1);
    }
  }

  /** Go's builtin `copy(dst, src)`: copies `min(len(dst), len(src))` elements and returns that count. */
  method Copy(dst: array<Byte>, src: seq<Byte>) returns (n: int)
    modifies dst
    ensures n == Min(dst.Length, |src|)
    ensures dst[..n] == src[..n]
    ensures dst[n..] == old(dst[n..])
  {
    n := Min(dst.Length, |src|);
    var i := 0;
    while i < n
      invariant 0 <= i <= n
      invariant forall k :: 0 <= k < i ==> dst[k] == src[k]
      invariant forall k :: i <= k < dst.Length ==> dst[k] == old(dst[k])
    {
      dst[i] := src[i];
      i := i + 1;
    }
    assert dst[n..] == old(dst[n..]);
  }

  /** A packet the inbound arm hands to a connection. */
  datatype Delivery = Delivery(conn: Conn, packet: Packet)

  /** The router: a host counter and the directory from host id to Network. */
  class Internet {
    var nextHost: int
    var hostToNetwork: map<int, Network>

    /** Host ids `1..nextHost` are exactly the directory's keys, each naming its own network. */
    ghost predicate Valid()
      reads this
    {
      && 0 <= nextHost
      && (forall h :: h in hostToNetwork <==> 1 <= h <= nextHost)
      && (forall h :: h in hostToNetwork ==> hostToNetwork[h].host == h && hostToNetwork[h].internet == this)
    }

    /** MakeInternet: no hosts yet. */
    constructor ()
      ensures Valid()
      ensures nextHost == 0 && hostToNetwork == map[]
    {
      nextHost := 0;
      hostToNetwork := map[];
    }

    /** Increments the host counter, creates a network for the new id and registers it. */
    method MakeNetwork() returns (host: int, net: Network)
      requires Valid()
      modifies this
      ensures Valid()
      ensures host == old(nextHost) + 1 && nextHost == host
      ensures forall h :: h in old(hostToNetwork) ==> h < host
      ensures hostToNetwork == old(hostToNetwork)[host := net]
      ensures fresh(net) && net.Valid() && net.Empty()
      ensures net.host == host && net.internet == this
    {
      nextHost := nextHost + 1;
      net := new Network(this, nextHost);
      hostToNetwork := hostToNetwork[nextHost := net];
      host := nextHost;
    }

    /**
     * Between the two states, the directory stayed the same, `p` became one
     * more pending hand-off of the network its destination host names, and no
     * other network's pending hand-offs changed.
     */
    twostate predicate HandedOff(p: Packet)
      reads this, hostToNetwork.Values
    {
      && hostToNetwork == old(hostToNetwork)
      && (p.dst.host in hostToNetwork ==>
            hostToNetwork[p.dst.host].fromInternet == old(hostToNetwork[p.dst.host].fromInternet) + multiset{p})
      && forall n :: n in old(hostToNetwork).Values && !(p.dst.host in hostToNetwork && n == hostToNetwork[p.dst.host]) ==>
            n.fromInternet == old(n.fromInternet)
    }

    /** Drops a packet for an unknown host; otherwise starts its hand-off to the destination network. */
    method SendPacket(p: Packet)
      modifies hostToNetwork.Values`fromInternet
      ensures HandedOff(p)
    {
      if p.dst.host in hostToNetwork {
        var network := hostToNetwork[p.dst.host];
        network.fromInternet := network.fromInternet + multiset{p};
      }
    }
  }

  /** One simulated host: its NAT state, its connection registry and its two dispatch queues. */
  class Network {
    const internet: Internet
    const host: int

    // NAT state: the port cursor and the two translation maps.
    var next: int
    var outward: map<Addr, int>
    var inward: map<int, Addr>

    // Connection registry.
    var addrToConn: map<Addr, Conn>

    // Pending hand-offs: writes waiting for the dispatch loop, and packets from the internet.
    var toInternet: multiset<Packet>
    var fromInternet: multiset<Packet>

    /**
     * Ports below the cursor are all bound, every outward binding is backed by
     * its inward binding, and each registered connection belongs to this
     * network under its own local address.
     */
    ghost predicate Valid()
      reads this`next, this`inward, this`outward, this`addrToConn
    {
      && 0 <= next
      && (forall k :: 0 <= k < next ==> k in inward)
      && OutwardBacked(outward, inward)
      && (forall a :: a in addrToConn ==> addrToConn[a].localAddr == a && addrToConn[a].net == this)
    }

    /** The state of a network nobody has used yet. */
    ghost predicate Empty()
      reads this
    {
      && next == 0 && outward == map[] && inward == map[] && addrToConn == map[]
      && toInternet == multiset{} && fromInternet == multiset{}
    }

    /** makeNetwork (the dispatch goroutine it starts is the two step methods below). */
    constructor (internet: Internet, host: int)
      ensures Valid() && Empty()
      ensures this.internet == internet && this.host == host
    {
      this.internet := internet;
      this.host := host;
      next := 0;
      outward := map[];
      inward := map[];
      addrToConn := map[];
      toInternet := multiset{};
      fromInternet := multiset{};
    }

    /** Resolve: the address of `(host, port)`; it cannot fail and allocates nothing. */
    function Resolve(host: int, port: int): (a: NetAddr)
      ensures a.Fake? && a.addr.host == host && a.addr.port == port
    {
      Fake(Addr(host, port))
    }

    /** nextPort: advances the cursor past bound ports and returns the first free one. */
    method NextPort() returns (port: int)
      requires Valid()
      modifies this`next
      ensures Valid()
      ensures port == next && old(next) <= port
      ensures LeastFree(inward, port)
    {
      while next in inward
        invariant Valid()
        invariant old(next) <= next
        decreases |inward.Keys| - next
      {
        PrefixBound(inward.Keys, next + 1);
        next := next + 1;
      }
      port := next;
    }

    /** Installs the static binding `external <-> internal` unless the external port is taken. */
    method Forward(external: int, internal: NetAddr) returns (err: Option<Error>)
      requires Valid()
      modifies this`outward, this`inward
      ensures Valid()
      ensures !internal.Fake? ==> err == Some(NotFakeAddr(internal)) && unchanged(this)
      ensures internal.Fake? && external in old(inward) ==> err == Some(PortTaken(external)) && unchanged(this)
      ensures internal.Fake? && external !in old(inward) ==>
        && err == None
        && inward == old(inward)[external := internal.addr]
        && outward == old(outward)[internal.addr := external]
    {
      if !internal.Fake? {
        return Some(NotFakeAddr(internal));
      }
      if external in inward {
        return Some(PortTaken(external));
      }
      inward := inward[external := internal.addr];
      outward := outward[internal.addr := external];
      return None;
    }

    /** The random draws let Dial pick a local port: each is a value of `rand.Intn(1000)`, and one of them is free. */
    predicate Drawable(draws: seq<int>)
      reads this
    {
      && (forall i :: 0 <= i < |draws| ==> 0 <= draws[i] < EphemeralPorts)
      && exists i :: 0 <= i < |draws| && Addr(host, draws[i]) !in addrToConn
    }

    /** The first draw whose address on this host has no registered connection. */
    function FirstFree(draws: seq<int>): (port: int)
      requires Drawable(draws)
      reads this
      ensures 0 <= port < EphemeralPorts && Addr(host, port) !in addrToConn
      ensures exists i :: 0 <= i < |draws| && draws[i] == port && forall j :: 0 <= j < i ==> Addr(host, draws[j]) in addrToConn
    {
      if Addr(host, draws[0]) !in addrToConn then draws[0]
      else
        assert Drawable(draws[1..]) by {
          var i :| 0 <= i < |draws| && Addr(host, draws[i]) !in addrToConn;
          assert draws[1..][i - 1] == draws[i];
        }
        var port := FirstFree(draws[1..]);
        ghost var i :| 0 <= i < |draws[1..]| && draws[1..][i] == port && forall j :: 0 <= j < i ==> Addr(host, draws[1..][j]) in addrToConn;
        assert draws[i + 1] == port && forall j :: 0 <= j < i + 1 ==> Addr(host, draws[j]) in addrToConn;
        port
    }

    /** Dial's resampling loop for a nil local address: draw until the address is not registered. */
    method PickLocalPort(draws: seq<int>) returns (port: int)
      requires Drawable(draws)
      ensures port == FirstFree(draws)
    {
      var i := 0;
      port := draws[0];
      while Addr(host, port) in addrToConn
        invariant 0 <= i < |draws| && port == draws[i]
        invariant Drawable(draws[i..])
        invariant FirstFree(draws[i..]) == FirstFree(draws)
        decreases |draws| - i
      {
        assert draws[i..][1..] == draws[i + 1..];
        i := i + 1;
        port := draws[i];
      }
      assert draws[i..][0] == port;
    }

    /** The local address Dial starts from: the given fake address, or this host with the first free draw. */
    ghost function Requested(laddr: NetAddr, draws: seq<int>): Addr
      requires laddr.Fake? || (laddr.Nil? && Drawable(draws))
      reads this
    {
      if laddr.Nil? then Addr(host, FirstFree(draws)) else laddr.addr
    }

    /**
     * Dial: fixes the local address (port 0 takes the next free external
     * port), refuses a local port that already has an inward binding, binds
     * the next free external port both ways and registers the connection,
     * replacing any connection registered under the same address.
     */
    method Dial(laddr: NetAddr, raddr: NetAddr, draws: seq<int>) returns (r: Result<Conn, Error>)
      requires Valid()
      requires laddr.Nil? ==> Drawable(draws)
      modifies this`next, this`outward, this`inward, this`addrToConn
      ensures Valid()
      ensures laddr.Other? ==> r == Failure(NotFakeAddr(laddr)) && unchanged(this)
      ensures !laddr.Other? && !raddr.Fake? ==> r == Failure(NotFakeAddr(raddr)) && unchanged(this)
      ensures !laddr.Other? && raddr.Fake? ==>
        var l := old(Requested(laddr, draws));
        if l.port != 0 && l.port in old(inward) then
          r == Failure(DialPortInUse(l.port)) && unchanged(this)
        else
          && r.Success? && fresh(r.value)
          && r.value.net == this && r.value.remoteAddr == raddr.addr && r.value.fromInternet == multiset{}
          && LeastFree(old(inward), next)
          && r.value.localAddr == (if l.port == 0 then Addr(l.host, next) else l)
          && inward == old(inward)[next := r.value.localAddr]
          && outward == old(outward)[r.value.localAddr := next]
          && addrToConn == old(addrToConn)[r.value.localAddr := r.value]
    {
      var local: Addr;
      if laddr.Nil? {
        var port := PickLocalPort(draws);
        local := Addr(host, port);
      } else if laddr.Fake? {
        local := laddr.addr;
      } else {
        return Failure(NotFakeAddr(laddr));
      }
      if !raddr.Fake? {
        return Failure(NotFakeAddr(raddr));
      }
      if local.port == 0 {
        var port := NextPort();
        local := local.(port := port);
      }
      if local.port in inward {
        return Failure(DialPortInUse(local.port));
      }
      var external := NextPort();
      inward := inward[external := local];
      outward := outward[local := external];
      var conn := new Conn(this, local, raddr.addr);
      addrToConn := addrToConn[local := conn];
      return Success(conn);
    }

    /**
     * Listen: refuses a port that already has an inward binding; otherwise
     * binds the next free external port inward only (no outward entry) and
     * registers a connection with the zero remote address.
     */
    method Listen(laddr: NetAddr) returns (r: Result<Conn, Error>)
      requires Valid()
      modifies this`next, this`inward, this`addrToConn
      ensures Valid()
      ensures !laddr.Fake? ==> r == Failure(NotFakeAddr(laddr)) && unchanged(this)
      ensures laddr.Fake? && laddr.addr.port in old(inward) ==>
        r == Failure(ListenPortInUse(laddr.addr.port)) && unchanged(this)
      ensures laddr.Fake? && laddr.addr.port !in old(inward) ==>
        && r.Success? && fresh(r.value)
        && r.value.net == this && r.value.localAddr == laddr.addr && r.value.remoteAddr == ZeroAddr
        && r.value.fromInternet == multiset{}
        && LeastFree(old(inward), next)
        && inward == old(inward)[next := laddr.addr]
        && outward == old(outward)
        && addrToConn == old(addrToConn)[laddr.addr := r.value]
    {
      if !laddr.Fake? {
        return Failure(NotFakeAddr(laddr));
      }
      var local := laddr.addr;
      if local.port in inward {
        return Failure(ListenPortInUse(local.port));
      }
      var external := NextPort();
      inward := inward[external := local];
      var conn := new Conn(this, local, ZeroAddr);
      addrToConn := addrToConn[local := conn];
      return Success(conn);
    }

    /**
     * The outbound arm of the dispatch loop, for the pending write `p`: makes
     * sure the source address has an outward binding, rewrites the source port
     * to its external port and passes the packet to the internet.
     */
    method OutboundStep(p: Packet) returns (sent: Packet)
      requires Valid() && p in toInternet
      modifies this`next, this`outward, this`inward, this`toInternet, internet.hostToNetwork.Values`fromInternet
      ensures Valid()
      ensures toInternet == old(toInternet) - multiset{p}
      ensures p.src in old(outward) ==> next == old(next) && outward == old(outward) && inward == old(inward)
      ensures p.src !in old(outward) ==>
        && LeastFree(old(inward), next)
        && outward == old(outward)[p.src := next]
        && inward == old(inward)[next := p.src]
      ensures p.src in outward && sent == Packet(Addr(p.src.host, outward[p.src]), p.dst, p.data)
      ensures internet.HandedOff(sent)
    {
      toInternet := toInternet - multiset{p};
      var external := BindOutward(p.src);
      sent := p.(src := p.src.(port := external));
      internet.SendPacket(sent);
    }

    /** The NAT half of the outbound arm: the external port of `src`, bound to the next free port if it had none. */
    method BindOutward(src: Addr) returns (external: int)
      requires Valid()
      modifies this`next, this`outward, this`inward
      ensures Valid()
      ensures src in outward && external == outward[src]
      ensures src in old(outward) ==> next == old(next) && outward == old(outward) && inward == old(inward)
      ensures src !in old(outward) ==>
        && LeastFree(old(inward), next)
        && outward == old(outward)[src := next]
        && inward == old(inward)[next := src]
    {
      if src !in outward {
        var port := NextPort();
        outward := outward[src := port];
        inward := inward[port := src];
      }
      external := outward[src];
    }

    /**
     * The inbound arm's decision for a packet from the internet: dropped
     * (`None`) unless its destination port has an inward binding whose address
     * has a registered connection; otherwise that connection and the packet
     * with its destination translated to the internal address.
     */
    function Inbound(p: Packet): (r: Option<Delivery>)
      reads this`inward, this`addrToConn
      ensures r.Some? <==> p.dst.port in inward && inward[p.dst.port] in addrToConn
      ensures r.Some? ==> r.value.packet == Packet(p.src, inward[p.dst.port], p.data)
      ensures r.Some? ==> r.value.conn == addrToConn[r.value.packet.dst]
    {
      if p.dst.port !in inward then None
      else
        var q := p.(dst := inward[p.dst.port]);
        if q.dst !in addrToConn then None else Some(Delivery(addrToConn[q.dst], q))
    }

    /** The connections the inbound arm may hand `p` to. */
    function Recipients(p: Packet): set<Conn>
      reads this`inward, this`addrToConn
    {
      var d := Inbound(p);
      if d.Some? then {d.value.conn} else {}
    }

    /** The inbound arm as one step: takes the pending packet `p` and starts its hand-off to the connection, if any. */
    method InboundStep(p: Packet)
      requires p in fromInternet
      modifies this`fromInternet, Recipients(p)`fromInternet
      ensures fromInternet == old(fromInternet) - multiset{p}
      ensures old(Inbound(p)).Some? ==>
        var d := old(Inbound(p)).value;
        d.conn.fromInternet == old(d.conn.fromInternet) + multiset{d.packet}
    {
      fromInternet := fromInternet - multiset{p};
      var d := Inbound(p);
      if d.Some? {
        d.value.conn.fromInternet := d.value.conn.fromInternet + multiset{d.value.packet};
      }
    }
  }

  /** A connection: fixed local and remote addresses and the packets handed to it. */
  class Conn {
    const net: Network
    const localAddr: Addr
    const remoteAddr: Addr
    var fromInternet: multiset<Packet>

    constructor (net: Network, localAddr: Addr, remoteAddr: Addr)
      ensures this.net == net && this.localAddr == localAddr && this.remoteAddr == remoteAddr
      ensures fromInternet == multiset{}
    {
      this.net := net;
      this.localAddr := localAddr;
      this.remoteAddr := remoteAddr;
      fromInternet := multiset{};
    }

    /**
     * ReadFrom, once the pending packet `p` is received: copies as much of its
     * payload as fits in `b` and reports its (translated) source address.
     */
    method ReadFrom(b: array<Byte>, p: Packet) returns (n: int, src: Addr)
      requires p in fromInternet
      modifies this`fromInternet, b
      ensures fromInternet == old(fromInternet) - multiset{p}
      ensures n == Min(b.Length, |p.data|)
      ensures b[..n] == p.data[..n] && b[n..] == old(b[n..])
      ensures src == p.src
    {
      fromInternet := fromInternet - multiset{p};
      var _ := Copy(b, p.data);
      n := |p.data|;
      if b.Length < n {
        n := b.Length;
      }
      src := p.src;
    }

    /** Read: ReadFrom without the source address. */
    method Read(b: array<Byte>, p: Packet) returns (n: int)
      requires p in fromInternet
      modifies this`fromInternet, b
      ensures fromInternet == old(fromInternet) - multiset{p}
      ensures n == Min(b.Length, |p.data|)
      ensures b[..n] == p.data[..n] && b[n..] == old(b[n..])
    {
      var src;
      n, src := ReadFrom(b, p);
    }

    /** Write: copies `b` into a packet to the remote address, leaves it pending for the dispatch loop and reports the full length. */
    method Write(b: array<Byte>) returns (n: int)
      modifies net`toInternet
      ensures n == b.Length
      ensures net.toInternet == old(net.toInternet) + multiset{Packet(localAddr, remoteAddr, b[..])}
    {
      var buffer := new Byte[b.Length];
      var _ := Copy(buffer, b[..]);
      assert buffer[..] == b[..];
      net.toInternet := net.toInternet + multiset{Packet(localAddr, remoteAddr, buffer[..])};
      n := buffer.Length;
    }
  }
}
