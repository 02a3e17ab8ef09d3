# Simulated internet of runningwild/network, in Dafny

This project models the simulated backend of the `network` package
(`fake/internet.go`) and proves properties of that model. The backend has three parts:

- an **Internet**, which hands out host ids and routes packets between its networks;
- a **Network** per host, with a NAT table (a port cursor `next`, `outward: Addr -> port`,
  `inward: port -> Addr`) and a registry `addrToConn` of its connections;
- a **Conn**, which reads and writes datagrams.

The host directory, the NAT tables and the registry are updated in place, so
`Internet`, `Network` and `Conn` are classes. Their methods modify exactly the
fields they name. The text form of an address (`"%d:%d"`) and the inbound
routing decision are pure, and so are functions.

Modules:

- `Wrappers`: `Option` and `Result`, which stand for Go's comma-ok lookups and
  `(value, error)` returns.
- `Decimal`: the two parts of Go's `fmt` package that the address text form uses.
  - Printing with `%d`.
  - Scanning one `%d` as `fmt.Sscanf` does it: leading spaces are skipped, a newline is an
    error, an optional sign, at least one digit, and the value must fit a 64-bit `int`.
- `Addresses`: `Addr`, `Packet`, `Addr.String` and `ResolveAddr`, with the round trip
  and the zero-field behaviour on malformed text.
- `Fake`: the classes `Internet`, `Network` and `Conn`.
  - `nextPort`, `Forward`, `Dial` and `Listen`.
  - The two arms of the dispatch loop as step methods.
  - `MakeNetwork` and `SendPacket`.
  - `ReadFrom`, `Read` and `Write`.
- `Scenarios`: whole runs of the system, proved from the contracts of `Fake` alone.
  They cover cross-host delivery, delivery through one host's own NAT, and the runs
  listed under "Behaviour worth knowing".

Concurrency is modelled by these conventions:

- Every goroutine that the source starts to pass a packet on is an entry in a multiset
  of pending hand-offs. The multiset belongs to the receiving side (`Network.toInternet`,
  `Network.fromInternet`, `Conn.fromInternet`).
- A receive takes any one pending entry, so no delivery order is implied.
- Each arm of `routine`'s `select` is one atomic step.

The invariant `Network.Valid()` says three things:

- every port below the cursor is bound inward;
- every outward binding is matched by the inward binding of its port;
- every registered connection belongs to its network under its own local address.

Every mutating operation preserves `Valid()`. From it, `nextPort` is shown to return
the *least* free non-negative port (`LeastFree`). It also shows that no two internal
addresses share an external port (`OutwardInjective`).

Sources of nondeterminism become inputs:

- `rand.Intn(1000)` in `Dial` is a caller-supplied sequence of draws.
- The blocking receive in `ReadFrom` is the caller naming the pending packet it receives.

## Behaviour worth knowing

The model follows the code in each case below.

- `Listen` binds `inward[nextPort()]`, not `inward[laddr.port]`
  (`fake/internet.go:247-248`). A datagram for the listening port reaches the listener
  only when that port is bound inward to the listening address: after a `Forward` of
  it, or when `nextPort()` happened to return that very port (listening on port 0 of a
  new network: see `Scenarios.ListenOnCursorPort`). Otherwise it is dropped, or it goes
  to whatever connection that port is bound to. The run "host 2
  listens on 9000, host 1 dials `2:9000` and writes `"hi"`" delivers nothing:
  see `Scenarios.ListenWithoutForward`. With a `Forward` of port 9000 it
  delivers: see `Scenarios.ListenForwardDial`.
- Only one direction of the NAT invariant holds: every `outward[a] == e` has
  `inward[e] == a` (`Fake.OutwardBacked`, kept by `Network.Valid`). The converse fails.
  `Listen` adds `inward[next]` with no outward entry (`fake/internet.go:247-248`). A
  second `Dial` or `Forward` for an address rebinds `outward` and leaves the old inward
  entry pointing at it (`fake/internet.go:224-225`, `187-188`). After
  `Scenarios.ListenForwarded`, `inward[0]` is the listener while `outward` maps the
  listener to `port`.
- `Dial` and `Listen` overwrite a registry entry with the same local address. They
  do not fail (`fake/internet.go:232-234`, `255-257`).
- With an unset local address, `Dial` checks the drawn port against the registry.
  When the draw is 0, it then replaces the port with `nextPort()` and does not check
  again (`fake/internet.go:196-202`, `217-219`). The returned connection can
  therefore share its local address with a live connection, which then loses its
  registry entry: see `Scenarios.UnsetDialDrawingZero`.
- A draw is checked against the registry only. A draw that is an external port
  bound inward (a forwarded port, say) is not drawn again, and `Dial` fails with
  "port already in use" (`fake/internet.go:196-202`, `220-221`): see
  `Scenarios.UnsetDialDrawingForwardedPort`.
- `Resolve` takes `(host, port int)` and cannot fail (`fake/internet.go:173-175`),
  while the `Network` interface declares `Resolve(host string, port int) (Addr, error)`
  (`network.go:37`).
- `MakeNetwork` returns the host id as an `int` (`fake/internet.go:43`), while the
  `Internet` interface declares `MakeNetwork() (string, Network)` (`network.go:30`).
- The code drops packets only for unknown hosts, unbound ports and unregistered
  addresses; it has no random loss and no size truncation, so neither is modelled.

## Model

| member | source | states |
|---|---|---|
| Decimal.NatDigits | fake/internet.go:59-61 | `%d` of a natural number is a non-empty digit string, and it starts with `0` exactly when the number is 0 |
| Decimal.IntString | fake/internet.go:59-61 | `%d` of an int starts with `-` exactly when the value is negative, and otherwise with a digit |
| Decimal.DigitsValueOfNatDigits | fake/internet.go:59-66 | the value of the printed digits of `n` is `n` |
| Decimal.DigitRun | fake/internet.go:64 | the digit run taken by the scanner is the longest all-digit prefix |
| Decimal.DigitRunOfDigits | fake/internet.go:64 | after a digit string followed by a non-digit, the run is exactly that digit string |
| Decimal.SkipSpace | fake/internet.go:64 | Sscanf's space skipping leaves a suffix that does not start with a space, consumes only spaces other than newline, and fails exactly when a newline follows the leading spaces |
| Decimal.ScanInt | fake/internet.go:64 | a successful `%d` scan yields a 64-bit value and leaves a strictly shorter suffix that does not start with a digit |
| Decimal.ScanDigits | fake/internet.go:64 | the digits after the sign must be at least one and must fit 64 bits; what remains does not start with a digit |
| Decimal.ScanDigitsOfNatDigits | fake/internet.go:59-66 | scanning printed digits gives back the signed magnitude when it fits 64 bits, and fails otherwise |
| Decimal.ScanIntNoInteger | fake/internet.go:64 | empty text, or text starting with a character that is no space, sign or digit, fails the scan |
| Decimal.SkipLeadingSpace | fake/internet.go:64 | spaces other than newline before the number are skipped without changing what is scanned after them |
| Decimal.ScanIntNoDigits | fake/internet.go:64 | the scan fails when, after leading spaces that hold no newline, the text ends, a newline comes, a character that is no space, sign or digit comes, or a sign comes with no digit after it |
| Decimal.ScanNegative | fake/internet.go:59-66 | scanning a printed negative value gives it back when it fits 64 bits, and fails otherwise |
| Decimal.ScanNonNegative | fake/internet.go:59-66 | scanning a printed non-negative value gives it back when it fits 64 bits, and fails otherwise |
| Decimal.ScanIntPrinted | fake/internet.go:59-66 | scanning `%d` output followed by non-digit text gives back the value and that text when it fits 64 bits, and fails otherwise |
| Decimal.ScanIntString | fake/internet.go:59-66 | scanning `%d` output of a 64-bit value gives back the value and the rest of the text |
| Decimal.ScanIntOverflow | fake/internet.go:59-66 | a printed value outside the 64-bit range makes the scan fail |
| Addresses.Addr.String | fake/internet.go:59-61 | the text holds a `:` and starts with `-` exactly when the host is negative; its contract proper is the round trip proved in `RoundTrip` and `ResolveAddrString` |
| Addresses.Addr.Network | fake/internet.go:56-58 | a fake address names the backend `"fake"` |
| Addresses.PortPart | fake/internet.go:64 | the `:%d` half of the format: the port is a 64-bit value, and it is 0 unless a `:` follows the host |
| Addresses.ResolveAddr | fake/internet.go:62-66 | ResolveAddr never returns an error |
| Addresses.RoundTrip | fake/internet.go:59-66 | `ResolveAddr(a.String()) == a` for every address whose fields fit 64 bits |
| Addresses.ResolveAddrString | fake/internet.go:59-66 | a printed address followed by text that does not continue its digits still parses back to the address |
| Addresses.PrintedHost | fake/internet.go:62-66 | after a printed host, the port comes only from what follows it |
| Addresses.PrintedPort | fake/internet.go:62-66 | `:` and a printed port give that port, or 0 when it does not fit 64 bits |
| Addresses.ResolveAddrNoHost | fake/internet.go:62-66 | text in which no integer follows the leading spaces (the cases of `ScanIntNoDigits`) leaves both fields zero |
| Addresses.ResolveAddrHostOverflow | fake/internet.go:62-66 | an out-of-range host stops the scan, so both fields stay zero |
| Addresses.ResolveAddrNoColon | fake/internet.go:62-66 | a host that is not followed by `:` is kept, and the port stays zero |
| Addresses.ResolveAddrNoPort | fake/internet.go:62-66 | a host and `:` followed by text in which no integer follows the leading spaces (the cases of `ScanIntNoDigits`) keep the host, and the port stays zero |
| Addresses.ResolveAddrUnscannableHost | fake/internet.go:62-66 | `"-x:5"`, `" x"` and `"\n1:2"` resolve to the zero address |
| Addresses.ResolveAddrUnscannablePort | fake/internet.go:62-66 | `"1: x"`, `"1:+x"` and `"1:\n2"` resolve to host 1, port 0 |
| Addresses.ResolveAddrPortOverflow | fake/internet.go:62-66 | an out-of-range port stays zero, and the host is kept |
| Fake.LeastFreeUnique | fake/internet.go:118-129 | at most one port is the least free port, so the scan's answer is determined by `inward` |
| Fake.OutwardInjective | fake/internet.go:86-92 | under the NAT invariant, no two internal addresses have the same external port |
| Fake.Copy | fake/internet.go:280 | Go's `copy` copies `min(len(dst), len(src))` elements, returns that count and leaves the rest of `dst` unchanged |
| Fake.Internet.constructor | fake/internet.go:33-37 | a new internet has no hosts and satisfies its invariant |
| Fake.Internet.MakeNetwork | fake/internet.go:43-50 | the new id is one more than the last; it is greater than every earlier id; the new, empty network is registered under it; the directory invariant is kept |
| Fake.Internet.SendPacket | fake/internet.go:21-31 | the directory is unchanged; the destination host's network, if there is one, gains the packet as a pending hand-off; every other network is unchanged (so a packet for an unknown host is dropped) |
| Fake.Network.constructor | fake/internet.go:105-116 | a new network has an empty NAT table, registry and queues, and the given internet and host |
| Fake.Network.Resolve | fake/internet.go:173-175 | Resolve always gives the fake address `(host, port)` |
| Fake.Network.NextPort | fake/internet.go:118-129 | the cursor moves forward to the returned port; the port is the least free one and satisfies `LeastFree`; no map changes (only `next` is modified) |
| Fake.Network.Forward | fake/internet.go:177-190 | a non-fake address, or a port already bound, is an error and changes nothing; otherwise exactly `inward[e] = a` and `outward[a] = e` are added; the invariant is kept |
| Fake.Network.FirstFree | fake/internet.go:193-203 | the port chosen from the draws is in `[0,1000)`, its address on this host is unregistered, and every earlier draw was registered |
| Fake.Network.PickLocalPort | fake/internet.go:193-203 | the resampling loop returns the first free draw, `FirstFree(draws)` |
| Fake.Network.Dial | fake/internet.go:191-236 | bad address types fail and change nothing; a requested local port that is non-zero and bound inward fails and changes nothing; otherwise the least free port `p` gets the local address in both directions; port 0 becomes `p` itself; a nil local address uses this host and the first free draw; the new connection is registered under its local address, with `remoteAddr == raddr`, replacing any earlier one |
| Fake.Network.Listen | fake/internet.go:237-259 | a bad address type, or a port already bound inward, fails and changes nothing; otherwise only `inward[p] = laddr` is added for the least free `p`; `outward` is untouched; a connection with the zero remote address is registered |
| Fake.Network.BindOutward | fake/internet.go:139-145 | the source ends with an outward binding; an existing binding is kept and nothing changes; a missing one is bound both ways to the least free port |
| Fake.Network.OutboundStep | fake/internet.go:134-147 | the write leaves the outbound queue; the source is bound as in BindOutward; only the source port is rewritten, to the external port; the packet is handed off as SendPacket does |
| Fake.Network.Inbound | fake/internet.go:149-165 | a packet is delivered exactly when its destination port is bound inward and the bound address has a registered connection; it then goes to that connection, with only its destination replaced by the bound address |
| Fake.Network.InboundStep | fake/internet.go:149-168 | the packet leaves the inbound queue; when Inbound delivers, the chosen connection gains the translated packet; NAT and registry are untouched |
| Fake.Conn.constructor | fake/internet.go:226-231 | a new connection has the given network and addresses and nothing pending |
| Fake.Conn.ReadFrom | fake/internet.go:278-286 | the received packet leaves the queue; `n == min(len(b), len(data))`; `b[0..n)` is the payload prefix; the rest of `b` is unchanged; the source address is reported |
| Fake.Conn.Read | fake/internet.go:287-290 | the same as ReadFrom, without the source address |
| Fake.Conn.Write | fake/internet.go:309-320 | Write returns `len(b)`; a copy of `b`, from the local to the remote address, becomes pending on the network's outbound queue |
| Scenarios.HostIds | fake/internet.go:43-50 | a new internet hands out host ids 1, 2, 3 |
| Scenarios.NextPortTwice | fake/internet.go:118-129 | two calls of nextPort with nothing in between return the same port |
| Scenarios.TwoHosts | fake/internet.go:33-50 | a new internet with two networks has exactly hosts 1 and 2, both empty |
| Scenarios.ListenOnCursorPort | fake/internet.go:237-259 | on a new network, Listen on `1:0` binds inward port 0 to the listener, so a datagram for `1:0` is delivered to it with no Forward |
| Scenarios.ListenForwarded | fake/internet.go:177-190 | on an empty network, Listen on `port` binds port 0 inward; Forward of `port` then adds the two-way binding of `port` |
| Scenarios.DialUnset | fake/internet.go:191-236 | with a free non-zero draw, a nil-address Dial registers `(host, draw)` and binds it to the least free port |
| Scenarios.Send | fake/internet.go:134-147 | Write followed by the outbound arm, for a source that is already bound, makes the rewritten datagram pending at the destination network and leaves the sender's NAT as it was |
| Scenarios.Deliver | fake/internet.go:134-168 | with no step in between, a datagram written on a bound connection reaches the connection registered at its destination, with the payload byte-for-byte intact and the source rewritten to the sender's external port |
| Scenarios.ReadInto | fake/internet.go:278-286 | ReadFrom into a fresh buffer returns the payload prefix that fits |
| Scenarios.ForwardedExchange | fake/internet.go:134-259 | host 2 listens on 9000 and forwards 9000; host 1 dials `2:9000` with draw 7 and writes "hi"; the listener then holds the datagram `1:0 -> 2:9000` |
| Scenarios.ListenForwardDial | fake/internet.go:134-290 | in that run the listener reads `(2, "hi")` from `1:0` |
| Scenarios.UnforwardedExchange | fake/internet.go:237-259 | without the Forward, the same datagram pending at host 2 has no inward binding, so Inbound drops it |
| Scenarios.ListenWithoutForward | fake/internet.go:149-168 | without the Forward, the listener receives nothing |
| Scenarios.SameHostExchange | fake/internet.go:134-259 | two connections on one host exchange a datagram through that host's own NAT |
| Scenarios.SameHostLoop | fake/internet.go:134-290 | the connection reads `(2, "hi")` from `1:1` of its own host |
| Scenarios.UnsetDialDrawingForwardedPort | fake/internet.go:191-236 | a nil-address Dial whose only draw is a forwarded external port fails with `DialPortInUse` instead of drawing again |
| Scenarios.UnsetDialDrawingZero | fake/internet.go:191-236 | a nil-address Dial whose draw is 0 gets the local address of an existing connection and replaces it in the registry |

## Left out

- Goroutines, channels and the `select` in `routine` (`fake/internet.go:114`, `131-133`,
  `28-30`, `166-168`, `312-318`). Each hand-off is a pending entry in a multiset, and each
  arm is one atomic step. Interleavings beyond that and blocking are not modelled.
- `sync.Mutex` and `sync.RWMutex`: locks have no effect in a sequential model.
- `rand.Intn(1000)`: the draws are an input, each required to be in `[0,1000)`.
- Fake.Network.Dial: with a nil local address it requires at least one draw whose address
  is not registered, because the source's resampling loop never ends when all 1000
  addresses are registered.
- Fake.Internet.MakeNetwork: does not model the wrap-around of the 64-bit `nextHost++`
  (`fake/internet.go:46`), because it would need 2^63 networks.
- Fake.Network.NextPort: does not model the wrap-around of the 64-bit `next++`, because
  it would need 2^63 bound ports.
- Fake.Conn.ReadFrom: the blocking receive is not modelled. The caller names the pending
  packet it receives (`requires p in fromInternet`).
- Fake.Conn.ReadFrom, Fake.Conn.Read, Fake.Conn.Write: the `error` result is always nil
  in the source, so it is omitted.
- Error messages: each `fmt.Errorf` text is an `Error` constructor that carries its
  argument. The text formatting of a non-fake address (`%v`) is not modelled.
- `Close`, `File`, `SetDeadline`, `SetReadDeadline`, `SetWriteDeadline`, `SetReadBuffer`
  and `SetWriteBuffer` (`fake/internet.go:269-274`, `294-308`) do nothing in the source.
- `LocalAddr` and `RemoteAddr` are the `Conn` constants `localAddr` and `remoteAddr`.
- The `init` registration with `network.RegisterInternet` (`fake/internet.go:39-41`)
  and `network.go` as a whole are a registry of constructor closures. They are not part
  of this model.
- `udp4/internet.go` passes calls through to Go's `net` package and is not part of this
  model.
- Strings are sequences of code points. UTF-8 decoding of invalid bytes is not modelled.
