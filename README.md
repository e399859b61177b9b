# bg-ping connectivity prober, modelled in Dafny

bg-ping watches a list of IPv4 targets. It sends one ICMP echo after
another to each target and records an "outage detected" event when no
reply comes within 1900 ms. It records "outage cleared" when replies come
back. One raw socket is shared by all targets. A server loop reads every
inbound ICMP packet and hands each echo to the probe whose identifier it
carries.

This project models the sequential logic of `main.go`:

- **Target validation** (module `Targets`): `isValidIPv4` and `parseIPs`.
  They rest on Go's `strings.Split` (module `GoStrings`) and
  `strconv.Atoi` (module `GoStrconv`).
- **Registry** (module `Registry`): the loop in `main` that gives target
  number i the id i+1. Also pingServer's routing choice (`Route`) and one
  pass of its read loop (`Receive`).
- **Probe** (module `Probe`): one pass of pingClient's loop as
  - a pure step `Next` over `(outage, processSeq)`, with `Run` for a trace of outcomes;
  - the class `PingClient`, whose methods update those fields and append to an event log.
- **Monitor** (module `Monitor`): the registry and the probes put
  together. `Dispatch` takes one inbound packet through the server and
  into the select of the probe it is routed to.

The outcome of pingClient's `select` is an input: `Reply(packet)` or
`Timeout`. Send failures are inputs too (an optional marshal error and an
optional write error). The event sink is a sequence of message strings.

Where the code departs from the prober's stated design, the model follows the code:

- A reply matches on its identifier only (main.go:144). Its sequence
  number is never compared.
- `processSeq++` runs after both branches of the select, timeout included
  (main.go:156). The 900 ms sleep does too. A timeout therefore advances
  the counter as well (see `Probe.Scenarios`).
- pingServer routes every message whose body is an echo, whatever its ICMP
  type (main.go:109-110). An echo request carrying a registered id is
  routed like a reply.
- `pClient` is passed to pingClient by value (main.go:244). The flag the
  probe updates is the probe's own copy. The registry records keep
  `outage == false` for good.
- The server routes a packet only to the key it names, and each probe's id
  is its key (main.go:243-244). So the identifier test on main.go:144
  never fails for a routed packet (`Monitor.RoutedReplyClears`).
- Ids are 1..n with no upper bound, not a value below 65535.
- Target syntax is validated by this code, so it is modelled here.

`Atoi` follows Go on a 64-bit platform. It accepts an optional `+` or `-`,
then one or more ASCII digits, with a value that fits in a signed 64-bit
int. So `"01"`, `"+1"` and `"-0"` are accepted parts, and an empty part is
not. Strings are sequences of characters. Splitting on the ASCII
separators `.` and `,` gives the same fields as Go's byte-wise split,
because UTF-8 never puts an ASCII byte inside another character.

## Model

| member | source | states |
|---|---|---|
| `GoStrings.Split` | main.go:42 | `strings.Split` gives one more field than there are separators, and no field contains the separator |
| `GoStrings.JoinSplit` | main.go:42 | joining the fields of `Split` with the separator gives back the input |
| `GoStrings.SplitUnique` | main.go:42 | any separator-free list of at least one field that joins to `s` is `Split(s)` |
| `GoStrconv.AtoiFormatInt` | main.go:47 | `Atoi` reads back every signed 64-bit value that `Itoa` writes |
| `Targets.AtoiExamples` | main.go:47 | `Atoi` reads `"01"` and `"+1"` as 1, `"-0"` as 0 and `"255"` as 255 |
| `Targets.OctetTextIffAtoi` | main.go:47-53 | a part passes the Atoi-and-range test iff it is an optional sign and at least one digit, with at most three significant digits not above 255, and a minus only before zeros |
| `Targets.AllOctetsIff` | main.go:46-55 | the early-return loop over the parts accepts iff every part passes |
| `Targets.ValidIPv4Iff` | main.go:41-56 | `isValidIPv4` is true iff the address splits on '.' into exactly four parts that all pass; valid addresses have exactly three dots |
| `Targets.DottedQuadValid` | main.go:41-56 | every address in the usual dotted-quad form with parts 0..255 is accepted |
| `Targets.SignedAndPaddedAccepted` | main.go:41-56 | `"01.+1.-0.255"` is accepted |
| `Targets.OutOfRangeRejected` | main.go:48-50 | `"1.2.3.256"` is rejected |
| `Targets.EmptyPartRejected` | main.go:47-53 | `"1..3.4"` is rejected: its empty part is not an Atoi literal |
| `Targets.ParseIPs` | main.go:73-83 | success iff every ','-field is a valid address, and then the result is exactly the fields in order; on failure the error names the first invalid field, and every field before it is valid |
| `Targets.EmptyListRejected` | main.go:75-79 | `""` splits into `[""]`, which is not an address, so parseIPs rejects it |
| `Registry.BuildRegistry` | main.go:200-208 | the filled map has keys exactly 1..n, and entry k is `{ID: k, ip: pingIPs[k-1], outage: false}`; it equals `RegistryOf(pingIPs)` |
| `Registry.RegistryEntries` | main.go:200-208 | `RegistryOf` has keys exactly 1..n and entry k is target k with id k and no outage |
| `Registry.RegistrySize` | main.go:200-208 | the registry of n targets has n entries |
| `Registry.RegistryIdsUnique` | main.go:200-208 | different keys hold different ids even when addresses repeat; reading the addresses by id gives the target list in order |
| `Registry.RouteToOwner` | main.go:109-117 | over the registry main builds, `Route` delivers an echo with id X iff 1 <= X <= n, to the client with id X and address pingIPs[X-1], carrying the same id and sequence |
| `Registry.ReceiveDelivers` | main.go:96-118 | `Receive` delivers only echo bodies, to the client whose id is the echo's id; only read and parse failures produce log events; an echo with an unregistered id is discarded |
| `Probe.DetectedIsNotCleared` | main.go:146-152 | the "detected" and "cleared" messages differ |
| `Probe.TimeoutStep` | main.go:150-156 | after a timeout, `outage` is true and processSeq has grown by one; "outage detected" is recorded iff the probe was healthy, and nothing otherwise |
| `Probe.ReplyStep` | main.go:143-156 | a reply with the probe's id leaves it healthy and records "outage cleared" iff it was in outage; a reply with another id changes only processSeq |
| `Probe.EdgeOnly` | main.go:142-155 | a pass records at most one event, and records one iff it flips the flag |
| `Probe.RunCounts` | main.go:123-157 | over any trace, processSeq grows by exactly the number of passes |
| `Probe.EventsAreFlagChanges` | main.go:124-158 | over any trace, the number of events equals the number of flag changes |
| `Probe.RunAlternates` | main.go:124-158 | the events of any trace alternate "detected"/"cleared", starting from the initial state's opposite; the final flag differs from the initial one iff the event count is odd |
| `Probe.AllTimeouts` | main.go:150-155 | a non-empty all-timeout trace ends in outage and records exactly one "outage detected" from a healthy start, nothing from an outage |
| `Probe.AlwaysAnswered` | main.go:143-149 | a healthy probe whose every outcome is a reply with its id stays healthy and records nothing |
| `Probe.ForeignRepliesIgnored` | main.go:144-149 | replies carrying another id never change the flag or record anything |
| `Probe.RunSnoc` | main.go:124-158 | running a trace and then one more outcome equals running the longer trace |
| `Probe.Scenarios` | main.go:122-158 | probe 7 from processSeq 1: a reply gives processSeq 2 and no event; a timeout gives "detected" and processSeq 2; a timeout then a reply give "detected", "cleared" and processSeq 3 |
| `Probe.PingClient.constructor` | main.go:122-123 | a probe starts with the record's address and outage flag, processSeq 1, and an empty log |
| `Probe.PingClient.Send` | main.go:125-141 | builds the echo with the probe's id, the current processSeq and the fixed payload; records the marshal and write failures, in that order, and nothing else |
| `Probe.PingClient.Await` | main.go:142-157 | the flag and log change as in `TimeoutStep`/`ReplyStep`, processSeq grows by one, and the new state is that of `Next` |
| `Probe.PingClient.Iterate` | main.go:124-157 | one loop pass: the request carries the pass's processSeq; the log gains the send failures and then the step's event |
| `Probe.PingClient.Loop` | main.go:124-158 | passes over a trace of outcomes, all sends succeeding, reach the state and log of `Run` |
| `Monitor.StartHealthy` | main.go:242-245 | the probes started for n targets are keyed 1..n, each healthy with processSeq 1 |
| `Monitor.UnknownIdDropped` | main.go:111-117 | an echo with an unregistered id changes no probe and records nothing |
| `Monitor.OnlyOwnerChanges` | main.go:109-117 | a packet changes at most the probe registered under its own id, and keeps the set of probes |
| `Monitor.RoutedReplyClears` | main.go:111-148 | a routed echo always passes the id test, whatever its sequence number: the probe becomes healthy, processSeq grows by one, and "outage cleared" is recorded iff it was in outage |
| `Monitor.FailuresRecorded` | main.go:97-107 | read and parse failures record their message and change no probe |

## Left out

- Raw socket I/O (`icmp.ListenPacket`, `ReadFrom`, `WriteTo`) is left out as OS plumbing. Read, marshal and write errors are inputs instead.
- ICMP encoding and decoding (`icmp.Message.Marshal`, `icmp.ParseMessage`) are foreign library code. The `Code: 8` field, and any 16-bit truncation of ids or sequence numbers in the wire format, are not modelled. Ids above 65535 are therefore not modelled as misrouted.
- Goroutines, the unbuffered control channels, `select` and the `WaitGroup` are not modelled. The select's result is an input. `Dispatch` treats a delivery as the outcome of the receiving probe's pending select. Head-of-line blocking and the interleaving of several goroutines' events in the shared log are not modelled: each probe has its own log sequence.
- Timing (`time.After(1900ms)`, `time.Sleep(900ms)`) appears only as the `Timeout` outcome.
- `timeStamp` depends on the wall clock and is left out.
- `recordEvent`'s `"| %-80s| %-26s|"` formatting, file write, `Sync` and fatal exit are left out. The sink appends the bare message.
- `startLogging`, flag parsing, the usage and version text, and signal handling are CLI and process plumbing, left out. So are `main`'s own "Starting pingServer" and listen-failure events.
- The loops of pingClient and pingServer run forever. The model covers any finite prefix: a trace of outcomes, or one packet at a time.
- The read buffer size (65507 bytes) is left out, because the bytes are not modelled.
- processSeq is an unbounded integer. Go's 64-bit int would wrap after 2^63 passes.
- `Targets.ParseIPs`: the error value is `InvalidAddress(field)`. Its text is `ParseError.Message`; the rest of `fmt.Errorf`'s formatting is not modelled.
- `Route`, `Receive`, `Next`, `Run`, `Atoi`, `IsValidIPv4` and `RegistryOf` carry no contracts of their own. Their properties are the lemmas in the table above.
