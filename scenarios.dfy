/**
 * Whole runs of the simulated internet, each proved step by step from the
 * contracts of the operations in module Fake: the sequential host ids, a
 * datagram crossing from one host to another and over one host's own NAT
 * loop, and two runs where the code behaves other than one might expect.
 */
module Scenarios {
  import opened Wrappers
  import opened Addresses
  import opened Fake

  /** "hi" as bytes. */
  const Hi: seq<Byte> := [104, 105]

  /** A fresh two-byte buffer holding "hi". */
  method HiBuffer() returns (b: array<Byte>)
    ensures fresh(b) && b[..] == Hi
  {
    b := new Byte[2];
    b[0], b[1] := 104, 105;
  }

  /** Host ids are handed out as 1, 2, 3, ... */
  method HostIds() returns (first: int, second: int, third: int)
    ensures first == 1 && second == 2 && third == 3
  {
    var internet := new Internet();
    var net;
    first, net := internet.MakeNetwork();
    second, net := internet.MakeNetwork();
    third, net := internet.MakeNetwork();
  }

  /** Two calls of nextPort with nothing in between return the same port. */
  method NextPortTwice(net: Network) returns (first: int, second: int)
    requires net.Valid()
    modifies net`next
    ensures first == second
  {
    first := net.NextPort();
    second := net.NextPort();
    LeastFreeUnique(net.inward, first, second);
  }

  /** An internet with two unused hosts, 1 and 2. */
  method TwoHosts() returns (internet: Internet, net1: Network, net2: Network)
    ensures fresh(internet) && fresh(net1) && fresh(net2) && net1 != net2
    ensures internet.Valid() && internet.hostToNetwork == map[1 := net1, 2 := net2]
    ensures net1.Valid() && net1.Empty() && net1.host == 1 && net1.internet == internet
    ensures net2.Valid() && net2.Empty() && net2.host == 2 && net2.internet == internet
  {
    internet := new Internet();
    var h1, h2;
    h1, net1 := internet.MakeNetwork();
    h2, net2 := internet.MakeNetwork();
  }

  /** On an unused network: Listen on `port`, then Forward external `port` to the listening address. */
  method ListenForwarded(net: Network, port: int) returns (listener: Conn)
    requires net.Valid() && net.Empty() && port != 0
    modifies net`next, net`inward, net`outward, net`addrToConn
    ensures net.Valid() && net.next == 0
    ensures net.inward == map[0 := Addr(net.host, port), port := Addr(net.host, port)]
    ensures net.outward == map[Addr(net.host, port) := port]
    ensures net.addrToConn == map[Addr(net.host, port) := listener]
    ensures fresh(listener) && listener.net == net && listener.localAddr == Addr(net.host, port)
    ensures listener.fromInternet == multiset{}
  {
    var listening := net.Listen(net.Resolve(net.host, port));
    LeastFreeUnique(map[], net.next, 0);
    listener := listening.value;
    var err := net.Forward(port, Fake(Addr(net.host, port)));
  }

  /**
   * Listen on port 0 of a new network: `nextPort()` is 0 as well, so the listening
   * port is bound to the listener with no Forward, and a datagram for it is delivered.
   */
  method ListenOnCursorPort() returns (listener: Conn, d: Option<Delivery>)
    ensures d == Some(Delivery(listener, Packet(Addr(2, 5), Addr(1, 0), [])))
  {
    var internet := new Internet();
    var h, net := internet.MakeNetwork();
    var listening := net.Listen(Fake(Addr(1, 0)));
    LeastFreeUnique(map[], net.next, 0);
    listener := listening.value;
    d := net.Inbound(Packet(Addr(2, 5), Addr(1, 0), []));
  }

  /** Dial from an unset local address whose first draw is the free, unbound, non-zero port `draw`. */
  method DialUnset(net: Network, raddr: Addr, draw: int) returns (dialer: Conn)
    requires net.Valid() && 0 < draw < EphemeralPorts
    requires Addr(net.host, draw) !in net.addrToConn && draw !in net.inward
    modifies net`next, net`inward, net`outward, net`addrToConn
    ensures net.Valid() && LeastFree(old(net.inward), net.next)
    ensures net.inward == old(net.inward)[net.next := Addr(net.host, draw)]
    ensures net.outward == old(net.outward)[Addr(net.host, draw) := net.next]
    ensures net.addrToConn == old(net.addrToConn)[Addr(net.host, draw) := dialer]
    ensures fresh(dialer) && dialer.net == net && dialer.localAddr == Addr(net.host, draw)
    ensures dialer.remoteAddr == raddr && dialer.fromInternet == multiset{}
  {
    assert Addr(net.host, [draw][0]) !in net.addrToConn;
    var dialing := net.Dial(Nil, Fake(raddr), [draw]);
    dialer := dialing.value;
  }

  /**
   * Write followed by the outbound arm on the writer's network, for a
   * connection whose local address already has an outward binding: the
   * writer's network is left as it was, and the datagram, its source
   * rewritten to the external port, is pending at the destination network.
   */
  method Send(dialer: Conn, b: array<Byte>, dst: Network) returns (sent: Packet)
    requires dialer.net.Valid() && dialer.localAddr in dialer.net.outward
    requires dialer.remoteAddr.host in dialer.net.internet.hostToNetwork
    requires dialer.net.internet.hostToNetwork[dialer.remoteAddr.host] == dst
    modifies dialer.net`next, dialer.net`outward, dialer.net`inward, dialer.net`toInternet
    modifies dialer.net.internet.hostToNetwork.Values`fromInternet
    ensures dialer.net.Valid()
    ensures unchanged(dialer.net`next, dialer.net`outward, dialer.net`inward, dialer.net`toInternet)
    ensures sent == Packet(Addr(dialer.localAddr.host, dialer.net.outward[dialer.localAddr]), dialer.remoteAddr, old(b[..]))
    ensures dst.fromInternet == old(dst.fromInternet) + multiset{sent}
  {
    var net := dialer.net;
    var written := dialer.Write(b);
    var p := Packet(dialer.localAddr, dialer.remoteAddr, b[..]);
    sent := net.OutboundStep(p);
    assert old(net.toInternet) + multiset{p} - multiset{p} == old(net.toInternet);
  }

  /**
   * Write, the outbound arm and then the inbound arm at the destination, with
   * no other step in between: the datagram reaches the connection registered
   * under the address its destination port is bound to, with its payload
   * unchanged and its source rewritten to the writer's external port.
   */
  method Deliver(dialer: Conn, b: array<Byte>, listener: Conn) returns (received: Packet)
    requires dialer.net.Valid() && dialer.localAddr in dialer.net.outward
    requires dialer.remoteAddr.host in dialer.net.internet.hostToNetwork
    requires var dst := dialer.net.internet.hostToNetwork[dialer.remoteAddr.host];
      dialer.remoteAddr.port in dst.inward && dst.inward[dialer.remoteAddr.port] in dst.addrToConn &&
      dst.addrToConn[dst.inward[dialer.remoteAddr.port]] == listener
    modifies dialer.net`next, dialer.net`outward, dialer.net`inward, dialer.net`toInternet
    modifies dialer.net.internet.hostToNetwork.Values`fromInternet, listener`fromInternet
    ensures unchanged(dialer.net`next, dialer.net`outward, dialer.net`inward, dialer.net`toInternet)
    ensures received == old(var dst := dialer.net.internet.hostToNetwork[dialer.remoteAddr.host];
      Packet(Addr(dialer.localAddr.host, dialer.net.outward[dialer.localAddr]), dst.inward[dialer.remoteAddr.port], b[..]))
    ensures listener.fromInternet == old(listener.fromInternet) + multiset{received}
  {
    var dst := dialer.net.internet.hostToNetwork[dialer.remoteAddr.host];
    var sent := Send(dialer, b, dst);
    received := dst.Inbound(sent).value.packet;
    dst.InboundStep(sent);
  }

  /** ReadFrom into a fresh buffer of `size` bytes; `payload` is what the buffer then holds. */
  method ReadInto(c: Conn, p: Packet, size: nat) returns (n: int, from: Addr, payload: seq<Byte>)
    requires p in c.fromInternet
    modifies c`fromInternet
    ensures c.fromInternet == old(c.fromInternet) - multiset{p}
    ensures n == Min(size, |p.data|) && from == p.src && payload == p.data[..n]
  {
    var buffer := new Byte[size];
    n, from := c.ReadFrom(buffer, p);
    payload := buffer[..n];
  }

  /**
   * Host 2 listens on 9000 and forwards external port 9000 to it; host 1
   * dials 2:9000 from an unset local address whose draw is 7, and writes "hi".
   */
  method ForwardedExchange() returns (listener: Conn, received: Packet)
    ensures fresh(listener) && received in listener.fromInternet
    ensures received == Packet(Addr(1, 0), Addr(2, 9000), Hi)
  {
    var internet, net1, net2 := TwoHosts();
    listener := ListenForwarded(net2, 9000);
    var dialer := DialUnset(net1, Addr(2, 9000), 7);
    LeastFreeUnique(map[], net1.next, 0);
    var hi := HiBuffer();
    received := Deliver(dialer, hi, listener);
  }

  /** After that exchange the listener reads the two bytes, sent from host 1's external port 0. */
  method ListenForwardDial() returns (n: int, from: Addr, payload: seq<Byte>)
    ensures n == 2 && from == Addr(1, 0) && payload == Hi
  {
    var listener, received := ForwardedExchange();
    n, from, payload := ReadInto(listener, received, 10);
  }

  /**
   * Host 2 listens on 9000 without forwarding any port; host 1 dials 2:9000
   * and writes "hi". Listen bound the listening address to external port 0,
   * so the datagram now pending at host 2 has no inward binding.
   */
  method UnforwardedExchange() returns (listener: Conn, net: Network, sent: Packet)
    ensures fresh(listener) && fresh(net) && listener.localAddr == Addr(2, 9000) && listener.fromInternet == multiset{}
    ensures sent in net.fromInternet && net.Inbound(sent) == None
  {
    var internet, net1, net2 := TwoHosts();
    var listening := net2.Listen(Fake(Addr(2, 9000)));
    LeastFreeUnique(map[], net2.next, 0);
    listener := listening.value;
    var dialer := DialUnset(net1, Addr(2, 9000), 7);
    var hi := HiBuffer();
    sent := Send(dialer, hi, net2);
    net := net2;
  }

  /** The inbound arm then drops that datagram: the listener receives nothing. */
  method ListenWithoutForward() returns (listener: Conn)
    ensures listener.localAddr == Addr(2, 9000)
    ensures listener.fromInternet == multiset{}
  {
    var net, sent;
    listener, net, sent := UnforwardedExchange();
    net.InboundStep(sent);
  }

  /**
   * Two connections on one host exchange a datagram through that host's own
   * NAT: the packet leaves through the internet and comes back to the same
   * network, which hands it to the listener.
   */
  method SameHostExchange() returns (listener: Conn, received: Packet)
    ensures fresh(listener) && received in listener.fromInternet
    ensures received == Packet(Addr(1, 1), Addr(1, 9000), Hi)
  {
    var internet := new Internet();
    var h, net := internet.MakeNetwork();
    listener := ListenForwarded(net, 9000);
    var dialer := DialUnset(net, Addr(1, 9000), 7);
    LeastFreeUnique(map[0 := Addr(1, 9000), 9000 := Addr(1, 9000)], net.next, 1);
    var hi := HiBuffer();
    received := Deliver(dialer, hi, listener);
  }

  /** The listener of that exchange reads "hi" from external port 1 of its own host. */
  method SameHostLoop() returns (n: int, from: Addr, payload: seq<Byte>)
    ensures n == 2 && from == Addr(1, 1) && payload == Hi
  {
    var listener, received := SameHostExchange();
    n, from, payload := ReadInto(listener, received, 2);
  }

  /**
   * Dial from an unset local address whose random draw is 0 takes the next
   * free external port as its local port, without checking the registry
   * again: here that address is already registered, and the new connection
   * replaces the earlier one.
   */
  method UnsetDialDrawingZero() returns (first: Conn, second: Conn)
    ensures first != second && first.localAddr == second.localAddr
    ensures first.localAddr in first.net.addrToConn && first.net.addrToConn[first.localAddr] == second
  {
    var internet := new Internet();
    var h, net := internet.MakeNetwork();
    var dialing := net.Dial(Fake(Addr(1, 1)), Fake(Addr(5, 5)), []);
    LeastFreeUnique(map[], net.next, 0);
    first := dialing.value;
    assert Addr(net.host, [0][0]) !in net.addrToConn;
    dialing := net.Dial(Nil, Fake(Addr(5, 5)), [0]);
    LeastFreeUnique(map[0 := Addr(1, 1)], net.next, 1);
    second := dialing.value;
  }

  /**
   * Dial from an unset local address checks its draw against the registry
   * only: a draw that is a forwarded external port is not drawn again, and
   * Dial fails because that port is bound inward.
   */
  method UnsetDialDrawingForwardedPort() returns (r: Result<Conn, Error>)
    ensures r == Failure(DialPortInUse(7))
  {
    var internet := new Internet();
    var h, net := internet.MakeNetwork();
    var err := net.Forward(7, Fake(Addr(1, 9000)));
    assert Addr(net.host, [7][0]) !in net.addrToConn;
    r := net.Dial(Nil, Fake(Addr(5, 5)), [7]);
  }
}
