# protorun, verified

protorun is a layered runtime for distributed protocols: TCP frames, a session layer with a
Hello/Ack handshake, a runtime that dispatches session events and reconnects to peers, typed
Request/Reply between the protocols of one node, and, as its worked example, eager-push gossip
on top of a membership protocol. What can go wrong in it lies in interleavings and in the seams
between layers. This project models those parts and proves what holds of them on every input,
every run and every reachable state. `dafny verify dfyconfig.toml` checks everything.

## How the model is built

Every concurrent part is a state and a set of atomic steps: one `select` arm, one lock region,
one compare-and-swap, one channel operation or one timer is one step. Steps interleave freely,
a step that is not enabled changes nothing, and a run is any finite sequence of steps. Where the
program updates an object in place, a class does the same with the same fields, and each of its
methods is proved to perform the step (or the sequence of steps) of the state machine it stands
for. The theorems are about the runs.

| file | modules | part of the program |
|---|---|---|
| `wire.dfy` | `Bytes`, `Wire`, `Hosts`, `GossipCodec` | byte buffers, integers, slices, hosts, gossip messages |
| `framing.dfy` | `Framing` | length-prefixed frames over a stream cut anywhere |
| `handshake.dfy` | `Handshake` | layer byte, Hello and Ack |
| `session.dfy`, `session_layer.dfy` | `Session`, `SessionObject` | the session state machine and its two host maps |
| `session_table.dfy` | `SessionTable` | the same as a transition table, and what was issued over a run |
| `handshake_network.dfy` | `HandshakeNetwork` | any number of session layers over FIFO connections |
| `backoff.dfy`, `retry.dfy` | `Backoff`, `Retry` | the retry schedule, the retry table, the dispatcher |
| `reconnect.dfy`, `engine.dfy` | `Reconnect`, `Engine` | retry table, dispatcher, channels and session layer together |
| `ipc.dfy`, `ipc_fate.dfy`, `ipc_runtime.dfy` | `Ipc`, `IpcFate`, `IpcObject` | Request/Reply with timeouts and panics |
| `gossip.dfy`, `gossip_network.dfy` | `Gossip`, `GossipNetwork` | one gossip node, and a network of them |
| `membership.dfy`, `session_views.dfy` | `Membership`, `SessionViews` | the view, and what the sessions make of it |
| `view_replication.dfy` | `ViewReplication` | gossip's replica of the view |
| `stack.dfy` | `Stack` | an application message through all layers |

## Main results

- **Reconnect.** `Reconnect.NoPeerIsForgotten`: in every uncancelled state of every run in which the
  layer accepts no foreign Hello under a peer's address, each host in the retry table still has
  something that will act for it. `Reconnect.ForgettingCondition` shows that this assumption is
  exact, frame by frame; `Reconnect.NoDialledPeerIsForgotten` gives the form for peers that never
  connect from the address they are dialled at.
- **Retries.** `Retry.RetryAccounting` and `Retry.PeriodLasts` (a host is tracked exactly in a period
  whose failures are counted and below the limit), `Retry.GiveUpCondition`, `Retry.GiveUpAccounting`
  and `Retry.GiveUpOnce`; `Engine.EngineAccounting` and `Engine.EngineTellsWhatIsOwed` state them of the
  session events the running engine has dispatched and of what its protocols are told, and
  `Engine.CallsAreConserved` follows every call and timer to the session layer.
- **Sessions.** `Session.HostMapsAgree`, `Session.EstablishedIffRaised`,
  `Session.EndingNamesTheBeginning`, `Session.ServerHandshakeOnce`, and across nodes
  `HandshakeNetwork.HandshakeAgreement`. The converse of the host-map law is false;
  `Session.InverseCondition` says exactly which inputs break it. `SessionTable.StepFollowsTable` pins
  every input in every state to a transition table, and `SessionTable.HangupLaw`,
  `SessionTable.DialLaw` and `SessionTable.HelloLaw` account for what a layer asks of its transport.
- **Sessions to views.** `SessionViews.ViewCondition`: through dispatcher and membership, the view is
  the peers of the established sessions throughout a run if and only if no input of three named
  kinds occurs in it. Each kind does occur (`SessionViews.FailureSkewsView`,
  `SessionViews.CrossedDialsSkewView`, `SessionViews.HangupSkewsView`). `Engine.EngineView` is the same
  for the whole engine, with calls, timers and retries in between.
- **Request/Reply.** `Ipc.CallbackRunsOnce`, `Ipc.QuiescenceCompletesEverything`,
  `Ipc.RequestAccounting`, `Ipc.FirstAnswerWins`, `Ipc.PanicIsReportedFirst`;
  `IpcFate.RequestsAreHandedOver` and `IpcFate.ErrorsMeanWhatTheySay` say what becomes of a request;
  `IpcFate.WorkRunsOut` with `IpcFate.OutOfWorkIsDone`: whatever the interleaving, the work runs out and
  then every request has completed. `IpcObject.ServedIsReachable` carries them to the object.
- **Gossip.** `GossipNetwork.GossipCovers` and its exact form `GossipNetwork.CoverageCondition`,
  `GossipNetwork.DeliveryIsSafe`,
  `GossipNetwork.PotentialFalls`, `GossipNetwork.TrafficIsBounded`.
- **Views.** `Membership.MembershipHistory`, `ViewReplication.ViewConverges`, and
  `ViewReplication.ThroughoutCondition`: the replica is right throughout a run if and only if the
  snapshot reply does not revert in the state it finds.
- **Wire.** `Framing.ScanConserves`, `Framing.LegalStreamsArrive`, the exact condition
  `Framing.ChunkIndependenceCondition`, and from Send to mailbox `Stack.SendToMailbox`.

## Where the program and its comments disagree

The model follows the code.

- `logicalToTransport` is not the inverse of `transportToLogical`: when two peers dial each other,
  cleaning up one connection deletes the other's reverse entry
  (`Session.CrossedDialsBreakTheInverse`).
- `RetryPolicy.Max` is documented as an upper bound on any single delay, but jitter is applied
  after the cap; `Backoff.CapCondition` says when the bound holds. `Jitter` is documented to
  default to 0.2, but `withDefaults` leaves a zero jitter at zero.
- A frame with a bad length makes `decodeFrames` drop the good frames it decoded in the same call
  (`Framing.ChunkIndependenceCondition`). `encodeFrame` accepts payloads the receiver refuses
  (`Framing.OversizedFramesAreRefused`), and its comment gives a 2+2 byte application header where
  the program writes one 8-byte wire identifier.
- A comment on `fanout` says that SessionFailed shrinks the view; the runtime never passes
  SessionFailed on as a disconnect (`Membership.FailureIsInvisible`). This and two other ways in
  which the view parts from the sessions are the condition of `SessionViews.ViewCondition`.
- The reply to the initial GetView replaces gossip's view even if it is older than notifications
  gossip has already consumed (`ViewReplication.StaleSnapshotLosesPeer`).
- The sender given to message handlers is the transport host, so in gossip the excluded host is
  the true sender or a host outside the view. `Reconnect.LabelNamesItsPeer` gives the
  session side of that. `GossipNetwork` allows any label and records whom it leaves out;
  `GossipNetwork.StrayLabelUncovers` shows what one of them does.
- Once a connection from an address has ended, a new connection from the same address is never
  accepted again (`Session.DeadAddressStaysDead`).
- The version-mismatch event carries no peer version, although its accessor promises one; the
  model records the event without a version.

## Model

| member | source | states |
|---|---|---|
| `Bytes.LittleEndianRoundTrip` | pkg/wire/wire.go:15-55 | every value in range of a width is recovered from its little-endian bytes |
| `Bytes.BigEndianRoundTrip` | pkg/transport/tcp.go:59-77 | every length in range is recovered from its big-endian header |
| `Bytes.BigEndianInverse` | pkg/transport/tcp.go:59-77 | every header is the encoding of the length read from it |
| `Bytes.LittleEndianAt` | pkg/wire/wire.go:15-55 | byte k of a written integer is its digit k to the base 256, least significant first |
| `Bytes.BigEndianAt` | pkg/transport/tcp.go:59-61 | byte k of a frame header is the digit as far from the other end |
| `Wire.WriteUint` | pkg/wire/wire.go:15-46 | appends exactly the little-endian bytes |
| `Wire.ReadUint` | pkg/wire/wire.go:20-55 | consumes exactly what the parser consumes, or fails on short input having drained it |
| `Wire.ParseUintInverse` | pkg/wire/wire.go:15-55 | a written integer parses back whatever follows it |
| `Wire.ParseUintExactly` | pkg/wire/wire.go:20-55 | the reader accepts exactly what the writer writes in front of anything, and fails exactly on short input |
| `Wire.WriteBytes` | pkg/wire/wire.go:57-68 | appends the truncated 32-bit length and the bytes |
| `Wire.ReadBytes` | pkg/wire/wire.go:70-84 | returns the announced slice and leaves the rest, or fails on short input |
| `Wire.BytesRoundTrip` | pkg/wire/wire.go:57-84 | a slice survives if and only if its length fits 32 bits |
| `Wire.ParseBytesExactly` | pkg/wire/wire.go:57-84 | the reader accepts exactly four little-endian bytes of length and that many bytes, and fails exactly on input shorter than that |
| `Hosts.WriteHost` | pkg/transport/host.go:29-42 | appends length, name and 16-bit port, or refuses over-long names and writes nothing |
| `Hosts.ReadHost` | pkg/transport/host.go:44-64 | reads one host and leaves the rest, or fails on short input |
| `Hosts.HostRoundTrip` | pkg/transport/host.go:29-64 | a written host reads back with its port modulo 65536, hence unchanged if and only if the port fits |
| `Hosts.ParseHostExactly` | pkg/transport/host.go:29-64 | the reader accepts exactly name length, name and port, the numbers in two little-endian bytes each |
| `GossipCodec.Marshal` | cmd/gossip/gossip/messages.go:25-34 | the bytes are identifier, length, payload |
| `GossipCodec.Unmarshal` | cmd/gossip/gossip/messages.go:36-47 | agrees with the parser on every input, errors included |
| `GossipCodec.MessageRoundTrip` | cmd/gossip/gossip/messages.go:25-47 | a message decodes to itself if and only if its payload fits the length prefix |
| `GossipCodec.ParseExactly` | cmd/gossip/gossip/messages.go:25-47 | the decoder accepts exactly eight bytes of identifier, four of length and that many of payload, whatever follows |
| `Framing.DecodeFrames` | pkg/transport/tcp.go:65-97 | on every buffer: returns all complete frames and leaves the remainder, or drops them and fails at a bad length |
| `Framing.ReadFrames` | pkg/transport/tcp.go:318-349 | one read round continues the scan of leftover plus chunk; an empty read does nothing |
| `Framing.HandleConnection` | pkg/transport/tcp.go:290-316 | the connection loop hands up what feeding the chunks one by one yields |
| `Framing.ScanConserves` | pkg/transport/tcp.go:68-97 | on arbitrary input, re-encoded frames plus leftover are the input, all frames are legal, and the leftover holds no complete legal frame |
| `Framing.ScanUnique` | pkg/transport/tcp.go:43-97 | the decoder's cut is the only cut into legal frames and a stuck remainder |
| `Framing.ScanSplit` | pkg/transport/tcp.go:68-97 | decoding in two instalments equals decoding at once |
| `Framing.ChunkingIsFaithful` | pkg/transport/tcp.go:318-349 | for every chunking, a connection fails exactly when the stream has a bad length, delivers all frames if not, and a prefix of them otherwise |
| `Framing.LegalStreamsArrive` | pkg/transport/tcp.go:53-97 | legal payloads arrive whole and in order under every chunking, with an empty final buffer |
| `Framing.ChunkIndependenceCondition` | pkg/transport/tcp.go:78-80 | delivery is independent of chunking if and only if no good frame precedes a bad length |
| `Framing.OversizedFramesAreRefused` | pkg/transport/tcp.go:39-63 | a payload the sender frames arrives if and only if it respects the receiver's limit |
| `Framing.FrameLayout` | pkg/transport/tcp.go:43-63 | a frame is its length in four bytes, most significant first, and the payload |
| `Handshake.PayloadRoundTrip` | pkg/transport/session.go:378-442 | parsing undoes both encoders; a Hello arrives as the announced host; Hello is encodable exactly for names up to 65535 bytes |
| `Handshake.HelloExactly` | pkg/transport/session.go:411-442 | a payload is a Hello of h exactly if it starts with the bytes 1 and 1 and h as it is written |
| `Handshake.OtherPayloadsExactly` | pkg/transport/session.go:411-442 | it is a version mismatch exactly if a first byte 1 is followed by a second that is not 1, an Ack exactly if it starts with 2, and malformed otherwise |
| `Handshake.LayerRoundTrip` | pkg/transport/session.go:685-712 | the layer byte splits off again for every layer and body |
| `Handshake.LayersExactly` | pkg/transport/session.go:685-712 | layer 0 or nothing at all is application traffic, layer 1 is the session's, and what was split off joins up again |
| `Session.StepKeeps` | pkg/transport/session.go:498-659 | every select arm keeps the whole session invariant: status against event phase, mappings, Acks, reverse map, event discipline |
| `Session.RunKeeps` | pkg/transport/session.go:498-520 | the invariant holds after every sequence of inputs |
| `Session.HostMapsAgree` | pkg/transport/session.go:645-683 | over every run, only Established transport hosts are mapped, and logical to transport to logical is the identity |
| `Session.EstablishedIffRaised` | pkg/transport/session.go:165-362 | a session is Established exactly when its latest Connected, Disconnected or Failed event was Connected |
| `Session.EndingNamesTheBeginning` | pkg/transport/session.go:327-362 | the event ending an Established period names the host that began it, or the transport host if an explicit disconnect removed the mapping in between |
| `Session.ServerHandshakeOnce` | pkg/transport/session.go:270-308 | per run each transport host completes the server handshake, and is sent an Ack, at most once |
| `Session.SendReachesItsOwner` | pkg/transport/session.go:573-584 | a message to a mapped logical host leaves on an Established session belonging to that host |
| `Session.DeadAddressStaysDead` | pkg/transport/session.go:609-643 | a session that ended is revived by nothing but a dial to it, whatever else happens |
| `Session.InverseStep` | pkg/transport/session.go:645-659 | from any reachable state with inverse maps, an input leaves them inverse if and only if the logical host it is about to map is not carried by another transport |
| `Session.InverseCondition` | pkg/transport/session.go:645-659 | the maps invert each other throughout a run if and only if no input of the run, judged on the state it finds, maps a logical host that another transport already carries |
| `Session.MapsMove` | pkg/transport/session.go:185-308 | an input that is about to map a session does so on an unmapped one; every other input leaves the maps or removes its own session's entry |
| `Session.CrossedDialsBreakTheInverse` | pkg/transport/session.go:652-659 | for any two peers that dial each other a run ends with a single mapped transport host whose logical host has no reverse entry |
| `Session.HelloIsHeard` | pkg/transport/session.go:534-536 | a serialised Hello is handled as the host it announces |
| `SessionTable.StepFollowsTable` | pkg/transport/session.go:165-362 | every input in every state does what the transition table says to its session, the maps, the events, the commands and the inbox, and nothing else |
| `SessionTable.HangupLaw` | pkg/transport/session.go:246-253 | over every run the connections to a host are hung up exactly as often as a disconnect from it was asked for or a version mismatch was reported for it |
| `SessionTable.DialLaw` | pkg/transport/session.go:165-181 | over every run a client session comes up, or is on its way up, at most once per dial, and a dial goes out at most once per connect request |
| `SessionTable.HelloLaw` | pkg/transport/session.go:185-221 | over every run exactly one Hello goes out per client session that came up |
| `SessionObject.SessionLayer.constructor` | pkg/transport/session.go:131-157 | starts with no session, mapping, event or command |
| `SessionObject.SessionLayer.GetSession` | pkg/transport/session.go:586-607 | looks up or creates, and updates the logical host only if it has a port |
| `SessionObject.SessionLayer.SetServerMapping` | pkg/transport/session.go:645-650 | sets both maps and nothing else |
| `SessionObject.SessionLayer.CleanupServerMapping` | pkg/transport/session.go:652-659 | removes both entries of a mapped transport host and nothing else |
| `SessionObject.SessionLayer.HandleConnect` | pkg/transport/session.go:165-181 | performs the Connect step |
| `SessionObject.SessionLayer.HandleDisconnectRequest` | pkg/transport/session.go:568-571 | performs the Disconnect step; the session's state stays |
| `SessionObject.SessionLayer.HandleSend` | pkg/transport/session.go:573-584 | performs the Send step |
| `SessionObject.SessionLayer.AdoptInbound` | pkg/transport/session.go:611-631 | a session first seen through the transport is a server-side one |
| `SessionObject.SessionLayer.HandleConnected` | pkg/transport/session.go:183-234 | performs the step for a transport connection, including a Hello that cannot be encoded |
| `SessionObject.SessionLayer.HandleDisconnected` | pkg/transport/session.go:326-346 | performs the step for a lost connection in every state |
| `SessionObject.SessionLayer.HandleFailed` | pkg/transport/session.go:348-362 | performs the step for a failed connection |
| `SessionObject.SessionLayer.HandleServerHello` | pkg/transport/session.go:270-301 | learns the peer, sends the Ack, establishes, maps, reports |
| `SessionObject.SessionLayer.HandleHandshake` | pkg/transport/session.go:236-268 | performs the handshake step on every payload, malformed and mismatched ones included |
| `SessionObject.SessionLayer.HandleMessage` | pkg/transport/session.go:522-545 | performs the Receive step on every frame |
| `SessionObject.SessionLayer.Serve` | pkg/transport/session.go:498-520 | serving a sequence of inputs ends in the state of that run, so all run theorems apply to the object |
| `HandshakeNetwork.HandshakeAgreement` | pkg/transport/session.go:270-308 | in every run of any number of nodes, an accepted session names the announced host of a node whose Hello was written to and read from that very connection |
| `HandshakeNetwork.HandshakeOncePerHost` | pkg/transport/session.go:611-631 | in every run of the network, a node accepts and acknowledges each transport host at most once |
| `HandshakeNetwork.HandshakeCompletes` | pkg/transport/session.go:183-308 | for any two nodes there is a run in which one dials the other and both report the session, the listener with the announced host, and the Ack is issued |
| `HandshakeNetwork.ClosedIsSilent` | pkg/transport/tcp.go:181-216 | nothing is written to a connection that was closed |
| `HandshakeNetwork.StepIsHonest` | pkg/transport/session.go:165-308 | a layer only ever sends application frames, Acks and its own Hello |
| `HandshakeNetwork.OnlyHelloIsAccepted` | pkg/transport/session.go:236-308 | a server-side session is accepted only on reading a Hello under its own transport host, and names that Hello's host |
| `Backoff.DefaultsAreUsable` | pkg/protorun/retry.go:28-45 | every policy becomes usable, and a usable one is left alone |
| `Backoff.DefaultsAreDocumented` | pkg/protorun/retry.go:28-45 | each setting is kept if it makes sense and replaced on its own by 100ms, 30s or 2 otherwise; jitter is clamped and has no default |
| `Backoff.PowGrows` | pkg/protorun/retry.go:49-50 | the exponential outgrows a linear bound and never falls |
| `Backoff.BaseMonotone` | pkg/protorun/retry.go:49-53 | the delay before jitter never decreases with the attempt and never exceeds Max |
| `Backoff.BaseReachesMax` | pkg/protorun/retry.go:49-53 | after finitely many attempts the delay before jitter is Max for good |
| `Backoff.DelayBounds` | pkg/protorun/retry.go:47-63 | for every policy, attempt and draw, the delay lies between min(Initial,Max)(1-J/2) and Max(1+J/2), and truncation to whole nanoseconds takes less than one off it |
| `Backoff.CapCondition` | pkg/protorun/retry.go:51-61 | a delay respects Max for every draw if and only if the capped base times 1+J/2 does |
| `Backoff.ScheduleStarts` | pkg/protorun/retry.go:47-53 | without jitter the first delay is Initial, or Max if that is less |
| `Backoff.ScheduleGoesOn` | pkg/protorun/retry.go:49-53 | without jitter every further delay is the one before times the multiplier, up to Max |
| `Backoff.JitterSpreads` | pkg/protorun/retry.go:54-61 | jitter scales the steady delay by 1 - J/2 plus the draw times J |
| `Retry.TableStepKeeps` | pkg/protorun/retry.go:90-180 | every operation on the table keeps timer ownership, delays in step with failures, and attempts within the policy |
| `Retry.TableRunKeeps` | pkg/protorun/retry.go:90-180 | both hold after every sequence of operations |
| `Retry.RetryAccounting` | pkg/protorun/retry.go:117-167 | a tracked host is in a period that began with a ConnectWithRetry while it was untracked, with no success and no stop since; its attempt count is the number of failures dispatched in the period, below MaxAttempts |
| `Retry.PeriodLasts` | pkg/protorun/retry.go:90-167 | conversely, in a period with fewer failures than MaxAttempts the host is tracked, whatever happens to other hosts and timers |
| `Retry.ArmedTimersAreTracked` | pkg/protorun/retry.go:134-166 | an armed timer belongs to a tracked host, which has no other |
| `Retry.ArmedDelay` | pkg/protorun/retry.go:145-151 | the timer armed after failure number n of a period waits for delay number n - 1 of the schedule, which is Initial for the first |
| `Retry.GiveUpCondition` | pkg/protorun/retry.go:138-144 | a failure is the one at which a host is given up if and only if it is number MaxAttempts of the host's period |
| `Retry.GiveUpAccounting` | pkg/protorun/runtime.go:435-455 | at every give-up the event the protocols receive carries exactly MaxAttempts, that many failures were dispatched since tracking began, and the host is untracked afterwards |
| `Retry.GiveUpOnce` | pkg/protorun/retry.go:138-144 | between two give-ups of a host lies the ConnectWithRetry that began the later period |
| `Retry.Runtime.constructor` | pkg/protorun/retry.go:78-83 | starts with an empty table and empty mailboxes |
| `Retry.Runtime.ConnectWithRetry` | pkg/protorun/retry.go:90-99 | starts tracking once; an already tracked host is left alone |
| `Retry.Runtime.OnSessionUp` | pkg/protorun/retry.go:103-115 | clears entry and timer, and says whether there was one |
| `Retry.Runtime.OnSessionDown` | pkg/protorun/retry.go:127-167 | counts the failure and gives up or arms exactly one new timer |
| `Retry.Runtime.StopRetryFor` | pkg/protorun/retry.go:171-180 | clears entry and timer of that host only |
| `Retry.Runtime.Teardown` | pkg/protorun/retry.go:185-194 | afterwards nothing is tracked and no timer is armed |
| `Retry.Runtime.FireTimer` | pkg/protorun/retry.go:151-158 | the timer is disarmed, and the host of an armed timer is still tracked |
| `Retry.Runtime.Serve` | pkg/protorun/retry.go:90-180 | any sequence of calls leaves the table of that run, so the accounting applies to the object |
| `Retry.Runtime.FanoutSessionEvent` | pkg/protorun/runtime.go:465-477 | the mailboxes reached before the context fires grow by exactly that event, the others stay; false exactly if some were not reached |
| `Retry.Runtime.GiveUpOrRetry` | pkg/protorun/runtime.go:447-460 | counts the failure and fans out a give-up exactly if it was the last, as far as the context allows |
| `Retry.ReachedIsPrefix` | pkg/protorun/runtime.go:465-477 | every protocol receives a prefix of what is fanned out, and all of it if the context holds |
| `Retry.Runtime.DispatchSessionEvent` | pkg/protorun/runtime.go:425-463 | table and mailboxes move as specified for each kind of event and for a context that fires at any point; a failure is fanned out only as a give-up; false exactly if the fan-out was cut short |
| `Reconnect.StepCarries` | pkg/transport/session.go:165-362 | a live session under a peer's own address stays live, or its end is announced under the peer's name; a connect request leaves it live |
| `Reconnect.MoveRemembers` | pkg/protorun/runtime.go:425-463 | every step of the whole engine keeps every tracked peer remembered |
| `Reconnect.HarmlessKeeps` | pkg/protorun/retry.go:90-167 | so does every run of harmless steps from any state that has it |
| `Reconnect.NoPeerIsForgotten` | pkg/protorun/retry.go:90-167 | in every uncancelled state of every run in which no session at a peer's address that still listens for a Hello is given somebody else's, each tracked host has a timer armed or firing, a connect in progress, a queued event naming it, or a live session |
| `Reconnect.NoFairPeerIsForgotten` | pkg/protorun/retry.go:90-167 | the same for runs in which every Hello under a peer's address names that peer |
| `Reconnect.LabelNamesItsPeer` | pkg/transport/session.go:525-531 | in such runs a mapped session at a peer's address belongs to that peer, so a message label that is a peer's address names the true sender |
| `Reconnect.NoDialledPeerIsForgotten` | pkg/protorun/retry.go:90-167 | the same with only HandshakingClient and Established counting as live and nothing assumed of frames, if peers never connect from the address they are dialled at |
| `Reconnect.ForgettingCondition` | pkg/transport/session.go:257-301 | the assumption is exact: in any uncancelled state of any such run, a frame under a peer's address is safe in all harmless futures if and only if the session there no longer listens for a Hello or the frame is no Hello of somebody else |
| `Reconnect.ImpostorMakesPeerForgotten` | pkg/transport/session.go:270-301 | for every peer and every other host, one foreign Hello under the peer's address on a fresh runtime has a continuation that leaves the peer tracked with nothing left to act for it |
| `Engine.TraceIsTable` | pkg/protorun/runtime.go:425-463 | in every run of the engine the retry table is the table of the calls, timers and session events it has processed |
| `Engine.EngineAccounting` | pkg/protorun/retry.go:117-167 | a tracked host has been waited for since a ConnectWithRetry that found it untracked, with no SessionConnected for it dispatched and no Disconnect called since, and its attempt count is the number of dispatched SessionDisconnected and SessionFailed events that name it |
| `Engine.WaitedForIsTracked` | pkg/protorun/retry.go:90-167 | conversely, a host being waited for with fewer such events than MaxAttempts is tracked |
| `Engine.EngineGivesUp` | pkg/protorun/runtime.go:435-455 | every give-up the engine fans out carries MaxAttempts, comes with the dispatched failure of that number since the host was asked for, and untracks the host |
| `Engine.EngineTellsWhatIsOwed` | pkg/protorun/runtime.go:429-463 | every step of the engine fans out exactly what the history owes for it: a connect, a disconnect, and first a give-up if and only if the event is failure number MaxAttempts since the host was asked for, disconnect or failure alike |
| `Engine.CallsAreConserved` | pkg/protorun/runtime.go:218-246 | while uncancelled, the connects and disconnects asked for, by callers and by timer callbacks that find the host tracked, are those the session layer was given plus those on their way, and every timer that fired has run its callback or is about to |
| `Engine.CancelledSinceShutdown` | pkg/protorun/runtime.go:342-378 | the engine is cancelled exactly from its shutdown on |
| `Engine.LayerIsRun` | pkg/transport/session.go:498-520 | the engine's session layer is the layer of the inputs the engine fed to it, so every theorem on session runs holds in it |
| `Engine.ToldIsFanned` | pkg/protorun/runtime.go:425-477 | while uncancelled, what the protocols were told is what the consumed events fan out on the tables they found |
| `Engine.EngineView` | pkg/protorun/runtime.go:425-463 | when an uncancelled engine has dispatched all its events, membership's view is the peers of the established sessions if and only if the session events alone say so, whatever was called and retried meanwhile |
| `Engine.EngineViewIsTrue` | pkg/protorun/runtime.go:425-463 | that is so whenever no input has drifted |
| `Ipc.RunKeeps` | pkg/protorun/runtime.go:255-309 | every interleaving keeps: each request in exactly one place, callbacks unmixed, replies conserved, nothing pending stuck, panics reported first |
| `Ipc.CallbackRunsOnce` | pkg/protorun/protocol.go:479-505 | over every interleaving a callback runs at most once, and a registered request is either pending or completed, never both |
| `Ipc.QuiescenceCompletesEverything` | pkg/protorun/runtime.go:259-309 | while uncancelled a pending request has a call in progress, an armed timer or a reply on its way; when none is left, every request asked has completed exactly once |
| `Ipc.ReplyAccounting` | pkg/protorun/protocol.go:479-505 | replies taken are completions plus late drops, at most one timeout and one other reply per request, none lost while uncancelled |
| `Ipc.RequestAccounting` | pkg/protorun/runtime.go:279-293 | requests sent are completed plus pending plus those just about to be registered |
| `Ipc.RepliesStayHome` | pkg/protorun/protocol.go:479-505 | a callback only ever runs with a reply produced for its own request |
| `Ipc.PanicIsReportedFirst` | pkg/protorun/ipc.go:211-224 | when a callback observes a panic, the panic has been reported |
| `Ipc.FirstAnswerWins` | pkg/protorun/ipc.go:164-176 | apart from the timeout all replies to one request are the same reply, so an answer before a panic excludes the panic error |
| `Ipc.CancelledSinceShutdown` | pkg/protorun/runtime.go:342-378 | the runtime is cancelled exactly from its shutdown on |
| `IpcFate.RequestsAreHandedOver` | pkg/protorun/runtime.go:295-308 | while uncancelled, a request whose call has returned is queued for its handler, has reached it, or was answered with no-handler or type-mismatch |
| `IpcFate.ErrorsMeanWhatTheySay` | pkg/protorun/runtime.go:295-308 | no-handler excludes queue, handler and timer; a type mismatch excludes a handler; a timeout has used the timer up; whatever was handed over has its timer armed or its timeout out |
| `IpcFate.AnswersAreOut` | pkg/protorun/ipc.go:164-226 | an answer was produced exactly if the responder is used up, and a recovered panic has always used it up |
| `IpcFate.FirstArrivalWins` | pkg/protorun/protocol.go:473-505 | a callback is given the outcome of the first reply to its request that was taken, and for a pending request none was taken |
| `IpcFate.WorkFalls` | pkg/protorun/protocol.go:380-405 | every step but a new request, a shutdown and a late answer strictly lowers the work left |
| `IpcFate.WorkRunsOut` | pkg/protorun/protocol.go:380-405 | from every reachable state only that many such steps can follow |
| `IpcFate.OutOfWorkIsDone` | pkg/protorun/runtime.go:266-309 | when an uncancelled runtime has no such step left, every request asked has had its callback run exactly once |
| `IpcObject.Runtime.constructor` | pkg/protorun/ipc.go:105-162 | starts in the initial state |
| `IpcObject.Runtime.DeliverReply` | pkg/protorun/runtime.go:255-264 | the reply is on its way to its requester |
| `IpcObject.Runtime.AllocateId` | pkg/protorun/runtime.go:279-280 | the next number of that requester |
| `IpcObject.Runtime.RegisterPending` | pkg/protorun/runtime.go:285-293 | the pending entry holds the call's own callback |
| `IpcObject.Runtime.ArmTimeout` | pkg/protorun/runtime.go:301-303 | arms the timer of that request |
| `IpcObject.Runtime.PostRequest` | pkg/protorun/runtime.go:305-308 | hands the request to the handler's queue, unless a shutdown wins |
| `IpcObject.Runtime.FailUnrouted` | pkg/protorun/runtime.go:295-299 | answers with the no-handler error |
| `IpcObject.Runtime.SendRequest` | pkg/protorun/runtime.go:266-309 | performs the steps of sending in order, routed or not, shut down in between or not |
| `IpcObject.Runtime.TimerFires` | pkg/protorun/runtime.go:301-303 | a timer fires once, into a timeout reply |
| `IpcObject.Runtime.Respond` | pkg/protorun/ipc.go:164-176 | the first answer is delivered, later ones change nothing |
| `IpcObject.Runtime.Recover` | pkg/protorun/ipc.go:211-224 | reports the panic, then fails the responder |
| `IpcObject.Runtime.RunScript` | pkg/protorun/ipc.go:164-176 | any sequence of answers performs the settle step of each |
| `IpcObject.Runtime.RunHandler` | pkg/protorun/ipc.go:193-226 | a handler invocation that answers in any way and returns or panics |
| `IpcObject.Runtime.FailMistyped` | pkg/protorun/ipc.go:194-202 | a request of the wrong type is answered with an error and reaches no handler |
| `IpcObject.Runtime.PushReply` | pkg/protorun/runtime.go:259-264 | a reply reaches its requester's channel, unless a shutdown wins |
| `IpcObject.Runtime.Serve` | pkg/protorun/protocol.go:380-405 | after any sequence of whole calls the object is in a state the state machine reaches and keeps its invariant |
| `IpcObject.Runtime.Complete` | pkg/protorun/protocol.go:479-504 | claims the pending entry and runs its callback |
| `IpcObject.Runtime.TakeReply` | pkg/protorun/protocol.go:473-505 | completes a pending request or drops a late reply |
| `IpcObject.HandlerAnswers` | pkg/protorun/ipc.go:158-176 | of any sequence of answers exactly the first is produced |
| `IpcObject.HandlerSettlesItsRequest` | pkg/protorun/ipc.go:189-227 | an invocation produces its first answer, or else the panic error if it panics, or else nothing; it reports exactly if it panics |
| `IpcObject.SentIsItsSteps` | pkg/protorun/runtime.go:266-309 | sending is allocate, register, then arm and hand over, or the no-handler answer, in this order |
| `IpcObject.SentIsReachable` | pkg/protorun/runtime.go:266-309 | so from a reachable state it ends in a reachable state, and the run theorems hold after it |
| `IpcObject.SentHandsOver` | pkg/protorun/runtime.go:266-309 | a request sent is pending with its own callback under an unused number, and queued with its timer armed, or answered with no-handler, or lost to a shutdown |
| `IpcObject.HandledIsItsSteps` | pkg/protorun/ipc.go:189-227 | a handler invocation is its dispatch, its answers and its end, in this order |
| `IpcObject.HandledIsReachable` | pkg/protorun/ipc.go:189-227 | so from a reachable state it ends in a reachable state |
| `IpcObject.PerformedIsReachable` | pkg/protorun/protocol.go:380-405 | the same for every call of the object, timeouts, late answers, deliveries, consumed replies and shutdown included |
| `IpcObject.ServedIsReachable` | pkg/protorun/protocol.go:380-405 | any sequence of whole calls ends in a state of the fine-grained state machine, with its invariant |
| `Gossip.ExcludingMembers` | cmd/gossip/gossip/protocol.go:173-181 | exactly the other peers are kept |
| `Gossip.Protocol.SendAll` | cmd/gossip/gossip/protocol.go:161-171 | one packet per peer, in order |
| `Gossip.Protocol.Others` | cmd/gossip/gossip/protocol.go:173-181 | the loop computes the exclusion |
| `Gossip.Protocol.Disseminate` | cmd/gossip/gossip/protocol.go:119-131 | marks seen, delivers once, sends to the whole view |
| `Gossip.Protocol.HandleInbound` | cmd/gossip/gossip/protocol.go:133-140 | drops a duplicate; otherwise marks, delivers and sends to the view without the sender |
| `Gossip.Protocol.HandleInitialView` | cmd/gossip/gossip/protocol.go:142-148 | a reply replaces the view, an error leaves it |
| `Gossip.Protocol.HandleViewChanged` | cmd/gossip/gossip/protocol.go:150-159 | adds unless present, or removes |
| `GossipNetwork.RunIsSound` | cmd/gossip/gossip/protocol.go:119-140 | over every run each message keeps: only reachable nodes know it, copies run along view edges unaltered, neighbours of knowing nodes know, are being told or are on record as missed, one delivery per knowing node, sends paid for by views |
| `GossipNetwork.CoverageCondition` | cmd/gossip/gossip/protocol.go:123-140 | over every run, with losses and any labels: once nothing is in flight the nodes that have seen a message are exactly those reachable from its origin if and only if every host whose copy was lost or whom a wrong label left out has seen it |
| `GossipNetwork.GossipCovers` | cmd/gossip/gossip/protocol.go:123-140 | without losses, and with copies labelled with their sender or a host outside the view, once nothing is in flight the nodes that have seen a message are exactly those reachable from its origin, although senders are excluded |
| `GossipNetwork.StrayLabelUncovers` | cmd/gossip/gossip/protocol.go:133-140 | in a chain of any three nodes one such label ends gossip, with nothing lost or in flight, before a reachable node has seen the message |
| `GossipNetwork.DeliveryIsSafe` | cmd/gossip/gossip/protocol.go:133-140 | with or without losses and whatever the labels, only nodes reachable from the origin deliver a message, at most once each, unaltered, and exactly if they have seen it |
| `GossipNetwork.PotentialFalls` | cmd/gossip/gossip/protocol.go:133-140 | every receive and every loss strictly lowers the views of unseen nodes plus the copies in flight, so gossip of a message terminates |
| `GossipNetwork.TrafficIsBounded` | cmd/gossip/gossip/protocol.go:165-181 | sends of one message never exceed the sum of view sizes and are received, lost or in flight |
| `Membership.Protocol.constructor` | cmd/gossip/membership/protocol.go:51-57 | starts with an empty view and nothing published |
| `Membership.Protocol.OnSessionConnected` | cmd/gossip/membership/protocol.go:72-78 | adds and announces a new host; a known one changes nothing |
| `Membership.Protocol.OnSessionDisconnected` | cmd/gossip/membership/protocol.go:80-86 | removes and announces a known host; an unknown one changes nothing |
| `Membership.Protocol.HandleGetView` | cmd/gossip/membership/protocol.go:88-94 | lists exactly the view, each host once |
| `Membership.Protocol.Serve` | cmd/gossip/membership/protocol.go:72-86 | any sequence of session events leaves the state of that run |
| `Membership.MembershipHistory` | cmd/gossip/membership/protocol.go:72-86 | over every sequence of events the notifications alternate and fold to the view, adds minus removes is its size, and it is the hosts whose latest event was Connected |
| `Membership.NotificationsAlternate` | cmd/gossip/membership/protocol.go:72-86 | between two equal notifications about a host lies the opposite one |
| `Membership.FoldIsLatest` | cmd/gossip/gossip/protocol.go:150-159 | folding notifications is decided per host by the latest one |
| `Membership.ViewFollowsSessions` | pkg/protorun/runtime.go:429-463 | through the dispatcher, whatever retry table each event finds, the view is the hosts whose latest Connected or Disconnected session event was Connected |
| `Membership.FailureIsInvisible` | pkg/protorun/runtime.go:447-460 | no SessionFailed ever changes the view, whatever retry table it finds |
| `SessionViews.LogsExactly` | pkg/transport/session.go:165-362 | every input causes exactly the event foretold from the state it finds |
| `SessionViews.EntryAgrees` | pkg/protorun/runtime.go:429-463 | view and sessions agreeing, an event keeps them so if and only if it is not one of the three kinds that part them |
| `SessionViews.ViewCondition` | pkg/protorun/runtime.go:429-463 | from session inputs through dispatcher and membership, whatever retry tables the events find: the view is the peers of the established sessions throughout a run if and only if no input is a failure of the last session with a peer, a disconnect naming a peer held by another session, or a disconnect naming another host than the one whose last session it ends (its mapping was taken by an explicit disconnect) |
| `SessionViews.FailureSkewsView` | pkg/protorun/runtime.go:447-460 | for every peer, a dial that comes up and then fails leaves the peer in the view |
| `SessionViews.CrossedDialsSkewView` | pkg/transport/session.go:327-346 | for any two peers that dial each other, losing the older connection removes a peer that a session still holds from the view |
| `SessionViews.HangupSkewsView` | pkg/transport/session.go:568-571 | for every accepted peer, an explicit disconnect by its transport host leaves the peer in the view |
| `ViewReplication.FoldViewIsFold` | cmd/gossip/gossip/protocol.go:150-159 | gossip's list has the members of the folded set, never twice |
| `ViewReplication.ReplyCondition` | cmd/gossip/gossip/protocol.go:142-148 | taking the snapshot reply leaves gossip converged if and only if the reply agrees with gossip's view on every host that no queued notification mentions |
| `ViewReplication.ConvergenceStep` | cmd/gossip/gossip/protocol.go:142-159 | in every converged state of every run, a step keeps convergence if and only if it is not such a reverting reply |
| `ViewReplication.ThroughoutCondition` | cmd/gossip/gossip/protocol.go:142-159 | over every run, gossip is converged throughout if and only if no reply of the run reverts in the state it finds |
| `ViewReplication.ConvergenceCondition` | cmd/gossip/gossip/protocol.go:142-159 | over every run, a view that parted is healed if and only if later notifications have covered every host on which its base was wrong; it never has duplicates |
| `ViewReplication.ViewConverges` | cmd/gossip/gossip/protocol.go:142-159 | that is so whenever no notification newer than the snapshot was consumed before it, however many older ones are replayed on it |
| `ViewReplication.StaleSnapshotLosesPeer` | cmd/gossip/gossip/protocol.go:142-148 | otherwise any peer can be missing with everything consumed |
| `Stack.BuildBody` | pkg/protorun/message.go:63-74 | wire identifier, then payload |
| `Stack.Dispatcher.constructor` | pkg/protorun/runtime.go:484-485 | starts with the registered codecs and empty mailboxes |
| `Stack.Dispatcher.ProcessMessage` | pkg/protorun/runtime.go:484-542 | drops for a short header, an unknown identifier, a missing codec or a decoding error, and otherwise appends the decoded message and its sender to the owner's mailbox and no other, unless the context is done |
| `Stack.Dispatcher.HandleMessages` | pkg/protorun/runtime.go:380-390 | session messages are processed one by one, in order, until the context is done |
| `Stack.BodyRoundTrip` | pkg/protorun/message.go:63-74 | every envelope is judged by the receiver as it was sent, whether it is delivered or dropped |
| `Stack.VerdictExactly` | pkg/protorun/runtime.go:484-542 | each of the five verdicts and exactly when it is given, in terms of the bytes and the registry |
| `Stack.FramesReachTheInbox` | pkg/transport/session.go:522-545 | whatever frames arrive on a connection, the application bodies among them reach the inbox in order and nothing else does |
| `Stack.FullStackRoundTrip` | pkg/protorun/runtime.go:484-542 | of any legal frames with handshake frames anywhere among them, under any chunking, every protocol receives exactly the envelopes that are its own and decode, decoded, in order and labelled with the connection, with nothing left over |
| `Stack.SenderCarries` | pkg/transport/session.go:573-584 | over every run of a sending layer, its frames to a transport host are handshake frames and, in order, exactly the bodies that resolved to that host, all within the limit if the bodies are |
| `Stack.SendToMailbox` | pkg/protorun/message.go:63-74 | from Send on any run of one layer to the mailboxes behind another: every protocol receives exactly its own of the envelopes sent, decoded and in order |
| `Stack.PayloadLimit` | pkg/transport/tcp.go:78-80 | a single message crosses if and only if its payload leaves nine bytes of the frame limit |
| `Stack.GossipRoundTrip` | cmd/gossip/gossip/messages.go:25-47 | gossip messages survive marshalling, the whole stack and unmarshalling, in order |

## Left out

- Reconnect.NoPeerIsForgotten: a safety statement for peers with a port other than 0 (a zero port means "no host" to the session layer); its assumption on foreign Hellos is exact (`Reconnect.ForgettingCondition`). That the remaining timer or event is eventually served is not stated.
- Reconnect.NoDialledPeerIsForgotten: assumes a port other than 0 and that the transport reports connections and messages under a peer's address only once the layer has a session there.
- GossipNetwork.CoverageCondition: views are fixed and mention only nodes of the network, and minted identifiers are fresh (the program draws them at random from 64 bits).
- GossipNetwork.GossipCovers: the same, and assumes proper labels, as when connections are dialled to the hosts of the view and accepted from ephemeral ports (`Reconnect.LabelNamesItsPeer`); `GossipNetwork.StrayLabelUncovers` shows that this is needed.
- Backoff.DelayBounds: over exact reals, truncated to whole nanoseconds; rounding of floating point is not modelled.
- SessionViews.ViewCondition: speaks of runs whose events have all been dispatched; what protocols see while events are queued is a prefix of that.
- Stack.SendToMailbox: one connection carries all frames to a transport host; what a lost connection takes with it is not modelled there.
- IpcObject.Runtime.Serve: operations are whole calls; interleavings inside `SendRequest` or a handler invocation are covered by the steps of `Ipc`, not by the object.
- Ipc.CallbackRunsOnce: request numbers are unbounded, so the wrap-around of the 64-bit counter is not modelled.
- Ipc.PanicIsReportedFirst: handlers do not pass the panic error to Fail themselves.
- GossipCodec.Marshal: the writes go to memory and cannot fail, so the error returns of the writers are not modelled.
- Membership.Protocol.HandleGetView: the order in which the map is listed is arbitrary, as in the program.
- Channels are unbounded; that a full channel blocks its sender, and deadlocks that could follow, are not modelled.
- Sockets, dialling, the accept loop, read deadlines and the connection table of the TCP layer: the transport is an environment that reports connections and carries bytes in order.
- Wall-clock time and randomness: a timer is armed and then fires at any time, the jitter draw is a parameter.
- Shutdown order and draining: one `cancelled` flag guards the guarantees, and losing a queued item is a step of its own that needs it.
- The timer table, strict mode, registration and routing maps, codec reflection and wire-identifier hashing: single map updates or library behaviour.
- The last error a session remembers, logging, metrics, configuration, the main programs and the ping-pong example.
