/**
 * Value types of the simulated internet: a fake address (host id, port), the
 * packet envelope that travels between networks, and the `"<host>:<port>"`
 * text form with the parser that reads it back.
 */
module Addresses {
  import opened Wrappers
  import opened Decimal

  newtype Byte = x: int | 0 <= x < 256

  /** A fake address. Port 0 asks Dial for a port to be assigned. */
  datatype Addr = Addr(host: int, port: int) {

    /** The name of the backend the address belongs to. */
    function Network(): (name: string)
      ensures name == "fake"
    {
      "fake"
    }

    /**
     * The `"%d:%d"` form of the address: ResolveAddr reads it back (lemmas
     * RoundTrip and ResolveAddrString).
     */
    function String(): (s: string)
      ensures ':' in s
      ensures s[0] == '-' <==> host < 0
    {
      IntString(host) + ":" + IntString(port)
    }
  }

  /** The zero value of an address, `Addr{}`. */
  const ZeroAddr: Addr := Addr(0, 0)

  /** A datagram: source, destination and payload (a value, so every hand-off copies it). */
  datatype Packet = Packet(src: Addr, dst: Addr, data: seq<Byte>)

  /**
   * Reads `text` with `fmt.Sscanf(text, "%d:%d", &host, &port)` into a zero
   * address and ignores Sscanf's error: the scan stops at the first failure,
   * and every field it has not reached keeps its zero value.
   */
  function ResolveAddr(text: string): (r: Result<Addr, string>)
    ensures r.Success?
  {
    match ScanInt(text)
    case None => Success(ZeroAddr)
    case Some((host, rest)) => Success(Addr(host, PortPart(rest)))
  }

  /** Text after a printed address is ignored when it does not continue the port's digits. */
  lemma ResolveAddrString(a: Addr, t: string)
    requires InRange(a.host) && InRange(a.port)
    requires t == [] || !IsDigit(t[0])
    ensures ResolveAddr(a.String() + t) == Success(a)
  {
    var rest := ":" + IntString(a.port) + t;
    var s := a.String() + t;
    assert s == IntString(a.host) + rest;
    PrintedHost(a.host, rest, s);
    PrintedPort(a.port, t);
  }

  /** What follows a printed host is scanned as the port part. */
  lemma PrintedHost(host: int, rest: string, s: string)
    requires InRange(host)
    requires rest == [] || !IsDigit(rest[0])
    requires s == IntString(host) + rest
    ensures ResolveAddr(s) == Success(Addr(host, PortPart(rest)))
  {
    ScanIntString(host, rest);
  }

  /** A colon and a printed port give that port, or zero when it does not fit 64 bits. */
  lemma PrintedPort(port: int, t: string)
    requires t == [] || !IsDigit(t[0])
    ensures PortPart(":" + IntString(port) + t) == if InRange(port) then port else 0
  {
    var rest := ":" + IntString(port) + t;
    assert rest[1..] == IntString(port) + t;
    ScanIntPrinted(port, t);
  }

  /**
   * The port read from the text left after the host: the literal `:` of the
   * format must come next, then one `%d`; when either fails the port stays zero.
   */
  function PortPart(rest: string): (port: int)
    ensures InRange(port)
    ensures (rest == [] || rest[0] != ':') ==> port == 0
  {
    if rest != [] && rest[0] == ':' then
      match ScanInt(rest[1..])
      case None => 0
      case Some((port, _)) => port
    else 0
  }

  /** Parsing the text form of an address gives the address back. */
  lemma RoundTrip(a: Addr)
    requires InRange(a.host) && InRange(a.port)
    ensures ResolveAddr(a.String()) == Success(a)
  {
    ResolveAddrString(a, []);
    assert a.String() + [] == a.String();
  }

  /** Text in which no integer follows the leading spaces leaves both fields zero. */
  lemma ResolveAddrNoHost(text: string, k: nat)
    requires NoIntegerAfterSpaces(text, k)
    ensures ResolveAddr(text) == Success(ZeroAddr)
  {
    ScanIntNoDigits(text, k);
  }

  /** A host that does not fit a 64-bit int stops the scan: both fields stay zero. */
  lemma ResolveAddrHostOverflow(host: int, t: string)
    requires !InRange(host)
    requires t == [] || !IsDigit(t[0])
    ensures ResolveAddr(IntString(host) + t) == Success(ZeroAddr)
  {
    ScanIntOverflow(host, t);
  }

  /** A host not followed by `:` is kept and the port stays zero. */
  lemma ResolveAddrNoColon(host: int, t: string)
    requires InRange(host)
    requires t == [] || (!IsDigit(t[0]) && t[0] != ':')
    ensures ResolveAddr(IntString(host) + t) == Success(Addr(host, 0))
  {
    ScanIntString(host, t);
  }

  /** A host and `:` followed by no integer keep the host and leave the port zero. */
  lemma ResolveAddrNoPort(host: int, u: string, k: nat)
    requires InRange(host)
    requires NoIntegerAfterSpaces(u, k)
    ensures ResolveAddr(IntString(host) + ":" + u) == Success(Addr(host, 0))
  {
    var s := IntString(host) + ":" + u;
    assert s == IntString(host) + (":" + u);
    PrintedHost(host, ":" + u, s);
    assert (":" + u)[1..] == u;
    ScanIntNoDigits(u, k);
  }

  /** A sign with no digit, a space before a non-digit, or a leading newline gives no host. */
  lemma ResolveAddrUnscannableHost()
    ensures ResolveAddr("-x:5") == Success(ZeroAddr)
    ensures ResolveAddr(" x") == Success(ZeroAddr)
    ensures ResolveAddr("\n1:2") == Success(ZeroAddr)
  {
    assert NoIntegerAfterSpaces("-x:5", 0) by { assert !IsDigit('x'); }
    ResolveAddrNoHost("-x:5", 0);
    assert NoIntegerAfterSpaces(" x", 1) by { assert IsSpace(' ') && !IsSpace('x'); }
    ResolveAddrNoHost(" x", 1);
    assert NoIntegerAfterSpaces("\n1:2", 0) by { assert "\n1:2"[0] == '\n'; }
    ResolveAddrNoHost("\n1:2", 0);
  }

  /** A space before a non-digit, a sign with no digit, or a newline after `1:` keeps the host and gives no port. */
  lemma ResolveAddrUnscannablePort(u: string)
    requires u == " x" || u == "+x" || u == "\n2"
    ensures ResolveAddr("1:" + u) == Success(Addr(1, 0))
  {
    assert IntString(1) == "1" by { assert NatDigits(1) == [DigitChar(1)]; }
    assert IntString(1) + ":" + u == "1:" + u;
    if u == " x" {
      assert IsSpace(u[0]) && u[0] != '\n' && !IsSpace(u[1]) && !IsSign(u[1]) && !IsDigit(u[1]);
      ResolveAddrNoPort(1, u, 1);
    } else if u == "+x" {
      assert IsSign(u[0]) && !IsDigit(u[1]);
      ResolveAddrNoPort(1, u, 0);
    } else {
      assert u[0] == '\n';
      ResolveAddrNoPort(1, u, 0);
    }
  }

  /** A port that does not fit a 64-bit int leaves the port zero and keeps the host. */
  lemma ResolveAddrPortOverflow(host: int, port: int, t: string)
    requires InRange(host) && !InRange(port)
    requires t == [] || !IsDigit(t[0])
    ensures ResolveAddr(IntString(host) + ":" + IntString(port) + t) == Success(Addr(host, 0))
  {
    var rest := ":" + IntString(port) + t;
    var s := IntString(host) + ":" + IntString(port) + t;
    assert s == IntString(host) + rest;
    PrintedHost(host, rest, s);
    PrintedPort(port, t);
  }
}
