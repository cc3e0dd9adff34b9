/** The session layer as a state machine: one step per `select` arm of
    `SessionLayer.handler` in `pkg/transport/session.go`. The class that performs these
    steps in place is in `session_layer.dfy`. */
module Session {
  import opened Bytes
  import opened Hosts
  import opened Handshake

  datatype Status = Idle | HandshakingClient | HandshakingServer | Established | Failed | Closing

  /** A `sessionConn`; its transport host is the key it is stored under. */
  datatype Conn = Conn(logical: Host, status: Status)

  /** What the layer asks of the transport. */
  datatype Command = Dial(to: Host) | Hangup(to: Host) | Transmit(to: Host, frame: seq<byte>)

  /** The session events in emission order, tagged with the session they come from, plus a
      mark where an explicit disconnect took a session's host mapping away. `Up` is
      SessionConnected (`accepted` for the server side of a handshake), `Down` is
      SessionDisconnected, `Fell` is SessionFailed. */
  datatype Entry =
    | Up(session: Host, host: Host, accepted: bool)
    | Down(session: Host, host: Host)
    | Fell(session: Host, host: Host)
    | Mismatch(session: Host)
    | Unmapped(session: Host)

  datatype AppMessage = AppMessage(from: Host, body: seq<byte>)

  datatype Layer = Layer(
    self: Host,
    sessions: map<Host, Conn>,
    toLogical: map<Host, Host>,
    toTransport: map<Host, Host>,
    log: seq<Entry>,
    commands: seq<Command>,
    inbox: seq<AppMessage>)

  datatype Input =
    | Connect(host: Host)
    | Disconnect(host: Host)
    | Send(body: seq<byte>, host: Host)
    | TransportConnected(host: Host)
    | TransportDisconnected(host: Host)
    | TransportFailed(host: Host)
    | Receive(host: Host, frame: seq<byte>)

  function Fresh(self: Host): Layer {
    Layer(self, map[], map[], map[], [], [], [])
  }

  // --- the maps ---------------------------------------------------------------------------

  /** `withSession`: look up or create; a logical host with a port replaces the stored one. */
  function WithSession(s: Layer, t: Host, logical: Host): (r: Layer)
    ensures t in r.sessions
  {
    if t !in s.sessions then s.(sessions := s.sessions[t := Conn(logical, Idle)])
    else if logical.port != 0 then s.(sessions := s.sessions[t := s.sessions[t].(logical := logical)])
    else s
  }

  function SetStatus(s: Layer, t: Host, status: Status): (r: Layer)
    requires t in s.sessions
    ensures t in r.sessions
  {
    s.(sessions := s.sessions[t := s.sessions[t].(status := status)])
  }

  function SetMapping(s: Layer, t: Host, logical: Host): Layer {
    s.(toLogical := s.toLogical[t := logical], toTransport := s.toTransport[logical := t])
  }

  function CleanupMapping(s: Layer, t: Host): Layer {
    if t in s.toLogical then
      s.(toLogical := s.toLogical - {t}, toTransport := s.toTransport - {s.toLogical[t]})
    else s
  }

  function MapToHost(s: Layer, t: Host): Host {
    if t in s.toLogical then s.toLogical[t] else t
  }

  function ResolveUnderlying(s: Layer, h: Host): Host {
    if h in s.toTransport then s.toTransport[h] else h
  }

  function Issue(s: Layer, c: Command): Layer {
    s.(commands := s.commands + [c])
  }

  function Emit(s: Layer, e: Entry): Layer {
    s.(log := s.log + [e])
  }

  // --- the handlers ------------------------------------------------------------------------

  function ConnectClient(s: Layer, h: Host): Layer {
    var s1 := WithSession(s, h, h);
    if s1.sessions[h].status in {Idle, Failed, Closing}
    then Issue(SetStatus(s1, h, HandshakingClient), Dial(h))
    else s1
  }

  /** An explicit disconnect closes the connection and forgets the mapping, but leaves the
      session's state alone until the transport reports back. */
  function DisconnectHost(s: Layer, h: Host): Layer {
    var s1 := Issue(s, Hangup(h));
    if h in s.toLogical then Emit(CleanupMapping(s1, h), Unmapped(h)) else s1
  }

  function SendTo(s: Layer, body: seq<byte>, h: Host): Layer {
    Issue(s, Transmit(ResolveUnderlying(s, h), Serialize(APPLICATION, body)))
  }

  /** A session created by traffic from the transport is a server-side one. */
  function Adopt(s: Layer, t: Host): (r: Layer)
    ensures t in r.sessions
  {
    var s1 := WithSession(s, t, ZERO_HOST);
    if s1.sessions[t].status == Idle then SetStatus(s1, t, HandshakingServer) else s1
  }

  function OnConnected(s: Layer, t: Host): Layer {
    var s1 := Adopt(s, t);
    if s1.sessions[t].status != HandshakingClient then s1
    else
      var logical := s1.sessions[t].logical;
      match EncodeHello(s1.self)
      case None => Emit(SetStatus(s1, t, Failed), Fell(t, logical))
      case Some(hello) =>
        var s2 := Issue(s1, Transmit(t, Serialize(SESSION, hello)));
        Emit(SetMapping(SetStatus(s2, t, Established), t, logical), Up(t, logical, false))
  }

  function OnDisconnected(s: Layer, t: Host): Layer {
    var s1 := WithSession(s, t, ZERO_HOST);
    if s1.sessions[t].status in {Established, HandshakingClient, HandshakingServer}
    then Emit(CleanupMapping(SetStatus(s1, t, Closing), t), Down(t, MapToHost(s1, t)))
    else SetStatus(s1, t, Failed)
  }

  function OnFailed(s: Layer, t: Host): Layer {
    var s1 := WithSession(s, t, ZERO_HOST);
    Emit(SetStatus(CleanupMapping(s1, t), t, Failed), Fell(t, MapToHost(s1, t)))
  }

  /** The server side of the handshake: learn the peer's logical host, answer with an Ack. */
  function Accept(s: Layer, t: Host, peer: Host): Layer
    requires t in s.sessions
  {
    var s1 := s.(sessions := s.sessions[t := Conn(peer, Established)]);
    Emit(SetMapping(Issue(s1, Transmit(t, AckFrame())), t, peer), Up(t, peer, true))
  }

  function OnHandshake(s: Layer, t: Host, payload: Payload): Layer {
    var s1 := Adopt(s, t);
    match payload
    case VersionMismatch => Issue(Emit(s1, Mismatch(t)), Hangup(t))
    case Hello(peer) => if s1.sessions[t].status == HandshakingServer then Accept(s1, t, peer) else s1
    case _ => s1
  }

  function OnReceive(s: Layer, t: Host, frame: seq<byte>): Layer {
    var (layer, body) := Deserialize(frame);
    if layer == APPLICATION then s.(inbox := s.inbox + [AppMessage(t, body)])
    else if layer == SESSION then OnHandshake(s, t, ParsePayload(body))
    else s
  }

  function Step(s: Layer, i: Input): Layer {
    match i
    case Connect(h) => ConnectClient(s, h)
    case Disconnect(h) => DisconnectHost(s, h)
    case Send(body, h) => SendTo(s, body, h)
    case TransportConnected(t) => OnConnected(s, t)
    case TransportDisconnected(t) => OnDisconnected(s, t)
    case TransportFailed(t) => OnFailed(s, t)
    case Receive(t, frame) => OnReceive(s, t, frame)
  }

  function Run(self: Host, inputs: seq<Input>): Layer {
    if inputs == [] then Fresh(self)
    else Step(Run(self, inputs[..|inputs| - 1]), inputs[|inputs| - 1])
  }

  // --- what the log says about a session -------------------------------------------------------

  /** A session's phase according to the events it has emitted: raised by SessionConnected,
      lowered by SessionDisconnected or SessionFailed. */
  datatype Phase = Lowered | Raised(host: Host, unmapped: bool)

  function PhaseAfter(phase: Phase, e: Entry): Phase {
    match e
    case Up(_, host, _) => Raised(host, false)
    case Down(_, _) => Lowered
    case Fell(_, _) => Lowered
    case Mismatch(_) => phase
    case Unmapped(_) => if phase.Raised? then phase.(unmapped := true) else phase
  }

  function PhaseOf(log: seq<Entry>, t: Host): Phase {
    if log == [] then Lowered
    else
      var before := PhaseOf(log[..|log| - 1], t);
      var e := log[|log| - 1];
      if e.session == t then PhaseAfter(before, e) else before
  }

  /** A session is raised only when lowered, unmapped at most once per raised period, and the
      event that ends a raised period names the host that began it, or the session's own
      transport host if its mapping was taken away in between. */
  ghost predicate Follows(phase: Phase, e: Entry) {
    match e
    case Up(_, _, _) => phase.Lowered?
    case Down(t, h) => phase.Raised? ==> h == if phase.unmapped then t else phase.host
    case Fell(t, h) => phase.Raised? ==> h == if phase.unmapped then t else phase.host
    case Mismatch(_) => true
    case Unmapped(_) => phase.Raised? && !phase.unmapped
  }

  ghost predicate Disciplined(log: seq<Entry>) {
    forall j :: 0 <= j < |log| ==> Follows(PhaseOf(log[..j], log[j].session), log[j])
  }

  /** How many server handshakes session `t` has completed. */
  function Accepted(log: seq<Entry>, t: Host): nat {
    if log == [] then 0
    else
      var e := log[|log| - 1];
      Accepted(log[..|log| - 1], t) + (if e.Up? && e.accepted && e.session == t then 1 else 0)
  }

  /** How many Acks have been sent to transport host `t`. */
  function Acks(commands: seq<Command>, t: Host): nat {
    if commands == [] then 0
    else
      Acks(commands[..|commands| - 1], t)
      + (if commands[|commands| - 1] == Transmit(t, AckFrame()) then 1 else 0)
  }

  lemma LogGrows(log: seq<Entry>, e: Entry, t: Host)
    ensures PhaseOf(log + [e], t) == if e.session == t then PhaseAfter(PhaseOf(log, t), e) else PhaseOf(log, t)
    ensures Accepted(log + [e], t)
         == Accepted(log, t) + if e.Up? && e.accepted && e.session == t then 1 else 0
  {
    assert (log + [e])[..|log|] == log;
  }

  lemma StaysDisciplined(log: seq<Entry>, e: Entry)
    requires Disciplined(log) && Follows(PhaseOf(log, e.session), e)
    ensures Disciplined(log + [e])
  {
    forall j | 0 <= j < |log + [e]|
      ensures Follows(PhaseOf((log + [e])[..j], (log + [e])[j].session), (log + [e])[j])
    {
      assert (log + [e])[..j] == log[..j];
      assert log[..|log|] == log;
    }
  }

  lemma CommandsGrow(commands: seq<Command>, c: Command, t: Host)
    ensures Acks(commands + [c], t) == Acks(commands, t) + if c == Transmit(t, AckFrame()) then 1 else 0
  {
    assert (commands + [c])[..|commands|] == commands;
  }

  // --- the invariant ----------------------------------------------------------------------------

  function StatusAt(s: Layer, t: Host): Option<Status> {
    if t in s.sessions then Some(s.sessions[t].status) else None
  }

  function MappedAt(s: Layer, t: Host): Option<Host> {
    if t in s.toLogical then Some(s.toLogical[t]) else None
  }

  /** Everything the layer holds about the session at one transport host. */
  datatype Local = Local(status: Option<Status>, mapped: Option<Host>, phase: Phase, accepted: nat, acks: nat)

  function At(s: Layer, t: Host): Local {
    Local(StatusAt(s, t), MappedAt(s, t), PhaseOf(s.log, t), Accepted(s.log, t), Acks(s.commands, t))
  }

  /** A session is established exactly in its raised phase; its mapping is the host it was
      raised with until an explicit disconnect takes it away; it sends one Ack per completed
      server handshake, at most one, and none while it could still complete one. */
  ghost predicate LocalInv(v: Local) {
    && v.status != Some(Idle)
    && (v.status == Some(Established) <==> v.phase.Raised?)
    && (v.phase.Raised? ==> v.mapped == if v.phase.unmapped then None else Some(v.phase.host))
    && (v.phase.Lowered? ==> v.mapped == None)
    && v.acks == v.accepted <= 1
    && (v.status in {None, Some(HandshakingServer)} ==> v.accepted == 0)
  }

  /** Following a logical host to its transport and back is the identity. */
  ghost predicate ReverseInv(s: Layer) {
    forall l :: l in s.toTransport ==>
      s.toTransport[l] in s.toLogical && s.toLogical[s.toTransport[l]] == l
  }

  ghost predicate Inv(s: Layer) {
    && (forall t :: LocalInv(At(s, t)))
    && ReverseInv(s)
    && Disciplined(s.log)
  }

  predicate Grows<T(==)>(before: seq<T>, after: seq<T>, x: Option<T>) {
    match x
    case None => after == before
    case Some(v) => after == before + [v]
  }

  predicate IsAccept(e: Entry) {
    e.Up? && e.accepted
  }

  /** The record of a session after it logs `e` and issues `c`. */
  function Advance(v: Local, s': Layer, t: Host, e: Option<Entry>, c: Option<Command>): Local {
    Local(
      StatusAt(s', t), MappedAt(s', t),
      if e.Some? then PhaseAfter(v.phase, e.value) else v.phase,
      v.accepted + (if e.Some? && IsAccept(e.value) then 1 else 0),
      v.acks + (if c == Some(Transmit(t, AckFrame())) then 1 else 0))
  }

  /** A sound move from `s` to `s'` on behalf of session `t`: it logs `e`, issues `c`, keeps
      the session's record consistent and leaves every other session alone. */
  ghost predicate Sound(s: Layer, s': Layer, t: Host, e: Option<Entry>, c: Option<Command>) {
    && (forall x :: x != t ==> StatusAt(s', x) == StatusAt(s, x) && MappedAt(s', x) == MappedAt(s, x))
    && Grows(s.log, s'.log, e)
    && Grows(s.commands, s'.commands, c)
    && (e.Some? ==> e.value.session == t && Follows(PhaseOf(s.log, t), e.value))
    && (c.Some? && c.value.Transmit? && c.value.frame == AckFrame() ==> c.value.to == t)
    && LocalInv(Advance(At(s, t), s', t, e, c))
    && ReverseInv(s')
  }

  lemma LogAfter(log: seq<Entry>, log': seq<Entry>, t: Host, e: Option<Entry>, x: Host)
    requires Grows(log, log', e) && (e.Some? ==> e.value.session == t)
    ensures PhaseOf(log', x) == if x == t && e.Some? then PhaseAfter(PhaseOf(log, x), e.value) else PhaseOf(log, x)
    ensures Accepted(log', x) == Accepted(log, x) + if x == t && e.Some? && IsAccept(e.value) then 1 else 0
  {
    if e.Some? { LogGrows(log, e.value, x); }
  }

  lemma AcksAfter(commands: seq<Command>, commands': seq<Command>, t: Host, c: Option<Command>, x: Host)
    requires Grows(commands, commands', c)
    requires c.Some? && c.value.Transmit? && c.value.frame == AckFrame() ==> c.value.to == t
    ensures Acks(commands', x) == Acks(commands, x) + if x == t && c == Some(Transmit(t, AckFrame())) then 1 else 0
  {
    if c.Some? { CommandsGrow(commands, c.value, x); }
  }

  lemma AtAfter(s: Layer, s': Layer, t: Host, e: Option<Entry>, c: Option<Command>, x: Host)
    requires x != t ==> StatusAt(s', x) == StatusAt(s, x) && MappedAt(s', x) == MappedAt(s, x)
    requires Grows(s.log, s'.log, e) && Grows(s.commands, s'.commands, c)
    requires e.Some? ==> e.value.session == t
    requires c.Some? && c.value.Transmit? && c.value.frame == AckFrame() ==> c.value.to == t
    ensures At(s', x) == if x == t then Advance(At(s, t), s', t, e, c) else At(s, x)
  {
    LogAfter(s.log, s'.log, t, e, x);
    AcksAfter(s.commands, s'.commands, t, c, x);
  }

  lemma SoundKeeps(s: Layer, s': Layer, t: Host, e: Option<Entry>, c: Option<Command>)
    requires Inv(s) && Sound(s, s', t, e, c)
    ensures Inv(s')
  {
    assert Disciplined(s'.log) by {
      if e.Some? { StaysDisciplined(s.log, e.value); }
    }
    forall x ensures LocalInv(At(s', x)) {
      assert LocalInv(At(s, x));
      AtAfter(s, s', t, e, c, x);
    }
  }

  /** What a dial does, field by field. */
  lemma DialFrame(s: Layer, h: Host)
    requires StatusAt(s, h) in {None, Some(Failed), Some(Closing)}
    ensures var s' := ConnectClient(s, h);
            && SameMapsAndLog(s, s') && s'.commands == s.commands + [Dial(h)]
            && StatusAt(s', h) == Some(HandshakingClient)
            && forall x :: x != h ==> StatusAt(s', x) == StatusAt(s, x)
  {
  }

  lemma DialIsSound(s: Layer, h: Host)
    requires LocalInv(At(s, h)) && ReverseInv(s) && StatusAt(s, h) in {None, Some(Failed), Some(Closing)}
    ensures Sound(s, ConnectClient(s, h), h, None, Some(Dial(h)))
  {
    DialFrame(s, h);
  }

  ghost predicate SameMapsAndLog(s: Layer, s': Layer) {
    s'.toLogical == s.toLogical && s'.toTransport == s.toTransport && s'.log == s.log
  }

  lemma ConnectIsSound(s: Layer, h: Host) returns (e: Option<Entry>, c: Option<Command>)
    requires LocalInv(At(s, h)) && ReverseInv(s)
    ensures Sound(s, ConnectClient(s, h), h, e, c)
  {
    e, c := None, None;
    if StatusAt(s, h) in {None, Some(Failed), Some(Closing)} {
      DialIsSound(s, h);
      c := Some(Dial(h));
    }
  }

  lemma DisconnectIsSound(s: Layer, h: Host) returns (e: Option<Entry>, c: Option<Command>)
    requires LocalInv(At(s, h)) && ReverseInv(s)
    ensures Sound(s, DisconnectHost(s, h), h, e, c)
  {
    e, c := None, Some(Hangup(h));
    if h in s.toLogical { e := Some(Unmapped(h)); }
  }

  lemma SendIsSound(s: Layer, body: seq<byte>, h: Host) returns (e: Option<Entry>, c: Option<Command>)
    requires LocalInv(At(s, h)) && ReverseInv(s)
    ensures Sound(s, SendTo(s, body, h), h, e, c)
  {
    var frame := Serialize(APPLICATION, body);
    assert frame[0] != AckFrame()[0];
    e, c := None, Some(Transmit(ResolveUnderlying(s, h), frame));
  }

  lemma HelloFailureIsSound(s: Layer, t: Host)
    requires LocalInv(At(s, t)) && ReverseInv(s)
    requires StatusAt(s, t) == Some(HandshakingClient) && EncodeHello(s.self).None?
    ensures Sound(s, OnConnected(s, t), t, Some(Fell(t, s.sessions[t].logical)), None)
  {
  }

  lemma HelloSentIsSound(s: Layer, t: Host)
    requires LocalInv(At(s, t)) && ReverseInv(s)
    requires StatusAt(s, t) == Some(HandshakingClient) && EncodeHello(s.self).Some?
    ensures Sound(s, OnConnected(s, t), t, Some(Up(t, s.sessions[t].logical, false)),
                  Some(Transmit(t, Serialize(SESSION, EncodeHello(s.self).value))))
  {
    assert Serialize(SESSION, EncodeHello(s.self).value)[1] != AckFrame()[1];
  }

  lemma ConnectedIsSound(s: Layer, t: Host) returns (e: Option<Entry>, c: Option<Command>)
    requires LocalInv(At(s, t)) && ReverseInv(s)
    ensures Sound(s, OnConnected(s, t), t, e, c)
  {
    e, c := None, None;
    if StatusAt(s, t) != Some(HandshakingClient) {
      AdoptIsSound(s, t);
      assert OnConnected(s, t) == Adopt(s, t);
    } else if EncodeHello(s.self).None? {
      HelloFailureIsSound(s, t);
      e := Some(Fell(t, s.sessions[t].logical));
    } else {
      HelloSentIsSound(s, t);
      e := Some(Up(t, s.sessions[t].logical, false));
      c := Some(Transmit(t, Serialize(SESSION, EncodeHello(s.self).value)));
    }
  }

  /** Ending a session: its mapping goes and its end is logged under the mapped host. */
  function Ended(s: Layer, t: Host, status: Status, e: Entry): Layer {
    var s1 := WithSession(s, t, ZERO_HOST);
    Emit(CleanupMapping(SetStatus(s1, t, status), t), e)
  }

  lemma CleanupKeepsReverse(s: Layer, t: Host)
    requires ReverseInv(s)
    ensures ReverseInv(CleanupMapping(s, t))
  {
  }

  lemma EndedKeepsReverse(s: Layer, t: Host, status: Status, e: Entry)
    requires ReverseInv(s)
    ensures ReverseInv(Ended(s, t, status, e))
  {
    CleanupKeepsReverse(s, t);
    var s', s1 := Ended(s, t, status, e), CleanupMapping(s, t);
    assert s'.toLogical == s1.toLogical && s'.toTransport == s1.toTransport;
  }

  lemma EndedIsSound(s: Layer, t: Host, status: Status, e: Entry)
    requires LocalInv(At(s, t)) && ReverseInv(s) && status in {Failed, Closing}
    requires e == Down(t, MapToHost(s, t)) || e == Fell(t, MapToHost(s, t))
    ensures Sound(s, Ended(s, t, status, e), t, Some(e), None)
  {
    EndedKeepsReverse(s, t, status, e);
    EndedFrame(s, t, status, e);
  }

  lemma EndedFrame(s: Layer, t: Host, status: Status, e: Entry)
    ensures var s' := Ended(s, t, status, e);
            && StatusAt(s', t) == Some(status) && MappedAt(s', t) == None
            && s'.log == s.log + [e] && s'.commands == s.commands
            && forall x :: x != t ==> StatusAt(s', x) == StatusAt(s, x) && MappedAt(s', x) == MappedAt(s, x)
  {
  }

  lemma DisconnectedIsSound(s: Layer, t: Host) returns (e: Option<Entry>, c: Option<Command>)
    requires LocalInv(At(s, t)) && ReverseInv(s)
    ensures Sound(s, OnDisconnected(s, t), t, e, c)
  {
    e, c := None, None;
    if StatusAt(s, t) in {Some(Established), Some(HandshakingClient), Some(HandshakingServer)} {
      e := Some(Down(t, MapToHost(s, t)));
      EndedIsSound(s, t, Closing, e.value);
      assert OnDisconnected(s, t) == Ended(s, t, Closing, e.value);
    }
  }

  lemma FailedIsSound(s: Layer, t: Host) returns (e: Option<Entry>, c: Option<Command>)
    requires LocalInv(At(s, t)) && ReverseInv(s)
    ensures Sound(s, OnFailed(s, t), t, e, c)
  {
    e, c := Some(Fell(t, MapToHost(s, t))), None;
    EndedIsSound(s, t, Failed, e.value);
    assert OnFailed(s, t) == Ended(s, t, Failed, e.value);
  }

  lemma AcceptIsSound(s: Layer, t: Host, peer: Host)
    requires LocalInv(At(s, t)) && ReverseInv(s) && StatusAt(s, t) in {None, Some(HandshakingServer)}
    ensures Sound(s, Accept(Adopt(s, t), t, peer), t, Some(Up(t, peer, true)), Some(Transmit(t, AckFrame())))
  {
    var s' := Accept(Adopt(s, t), t, peer);
    assert MappedAt(s, t) == None;
    assert s'.toLogical == s.toLogical[t := peer] && s'.toTransport == s.toTransport[peer := t];
    assert ReverseInv(s');
  }

  lemma HandshakeIsSound(s: Layer, t: Host, p: Payload) returns (e: Option<Entry>, c: Option<Command>)
    requires LocalInv(At(s, t)) && ReverseInv(s)
    ensures Sound(s, OnHandshake(s, t, p), t, e, c)
  {
    if p.Hello? && StatusAt(s, t) in {None, Some(HandshakingServer)} {
      AcceptIsSound(s, t, p.host);
      e, c := Some(Up(t, p.host, true)), Some(Transmit(t, AckFrame()));
    } else if p.VersionMismatch? {
      MismatchIsSound(s, t);
      e, c := Some(Mismatch(t)), Some(Hangup(t));
    } else {
      AdoptIsSound(s, t);
      e, c := None, None;
    }
  }

  /** What adopting leaves alone. */
  lemma AdoptFrame(s: Layer, t: Host)
    ensures var s' := Adopt(s, t);
            && SameMapsAndLog(s, s') && s'.commands == s.commands && s'.self == s.self
            && StatusAt(s', t)
               == Some(if StatusAt(s, t) in {None, Some(Idle)} then HandshakingServer else StatusAt(s, t).value)
            && forall x :: x != t ==> StatusAt(s', x) == StatusAt(s, x)
  {
  }

  lemma AdoptIsSound(s: Layer, t: Host)
    requires LocalInv(At(s, t)) && ReverseInv(s)
    ensures Sound(s, Adopt(s, t), t, None, None)
  {
    AdoptFrame(s, t);
  }

  lemma MismatchIsSound(s: Layer, t: Host)
    requires LocalInv(At(s, t)) && ReverseInv(s)
    ensures Sound(s, Issue(Emit(Adopt(s, t), Mismatch(t)), Hangup(t)), t, Some(Mismatch(t)), Some(Hangup(t)))
  {
    AdoptIsSound(s, t);
  }

  lemma ReceiveIsSound(s: Layer, t: Host, frame: seq<byte>) returns (e: Option<Entry>, c: Option<Command>)
    requires LocalInv(At(s, t)) && ReverseInv(s)
    ensures Sound(s, OnReceive(s, t, frame), t, e, c)
  {
    e, c := None, None;
    var (layer, body) := Deserialize(frame);
    if layer == SESSION {
      e, c := HandshakeIsSound(s, t, ParsePayload(body));
    }
  }

  lemma StepIsSound(s: Layer, i: Input) returns (e: Option<Entry>, c: Option<Command>)
    requires LocalInv(At(s, i.host)) && ReverseInv(s)
    ensures Sound(s, Step(s, i), i.host, e, c)
  {
    match i
    case Connect(h) => e, c := ConnectIsSound(s, h);
    case Disconnect(h) => e, c := DisconnectIsSound(s, h);
    case Send(body, h) => e, c := SendIsSound(s, body, h);
    case TransportConnected(t) => e, c := ConnectedIsSound(s, t);
    case TransportDisconnected(t) => e, c := DisconnectedIsSound(s, t);
    case TransportFailed(t) => e, c := FailedIsSound(s, t);
    case Receive(t, frame) => e, c := ReceiveIsSound(s, t, frame);
  }

  lemma StepKeeps(s: Layer, i: Input)
    requires Inv(s)
    ensures Inv(Step(s, i))
  {
    assert LocalInv(At(s, i.host));
    var e, c := StepIsSound(s, i);
    SoundKeeps(s, Step(s, i), i.host, e, c);
  }

  lemma {:induction false} RunKeeps(self: Host, inputs: seq<Input>)
    ensures Inv(Run(self, inputs))
    decreases |inputs|
  {
    if inputs == [] {
    } else {
      RunKeeps(self, inputs[..|inputs| - 1]);
      StepKeeps(Run(self, inputs[..|inputs| - 1]), inputs[|inputs| - 1]);
    }
  }

  // --- what holds over every run --------------------------------------------------------------------

  /** Host maps: a transport host is mapped only while its session is established, and
      logical to transport to logical is the identity, whatever the order of dials, inbound
      connections, handshakes, failures and explicit disconnects. */
  lemma HostMapsAgree(self: Host, inputs: seq<Input>)
    ensures var s := Run(self, inputs);
            && (forall t :: t in s.toLogical ==> StatusAt(s, t) == Some(Established))
            && (forall l :: l in s.toTransport ==>
                  && s.toTransport[l] in s.toLogical
                  && s.toLogical[s.toTransport[l]] == l
                  && StatusAt(s, s.toTransport[l]) == Some(Established))
  {
    RunKeeps(self, inputs);
    var s := Run(self, inputs);
    forall t | t in s.toLogical ensures StatusAt(s, t) == Some(Established) {
      assert LocalInv(At(s, t));
    }
  }

  /** Event discipline: a session is established exactly when its latest Connected,
      Disconnected or Failed event was Connected. */
  lemma EstablishedIffRaised(self: Host, inputs: seq<Input>, t: Host)
    ensures var s := Run(self, inputs);
            && (StatusAt(s, t) == Some(Established) <==> PhaseOf(s.log, t).Raised?)
            && Disciplined(s.log)
  {
    RunKeeps(self, inputs);
    assert LocalInv(At(Run(self, inputs), t));
  }

  /** An entry that raises or lowers session `t`. */
  predicate Turns(e: Entry, t: Host) {
    e.session == t && (e.Up? || e.Down? || e.Fell?)
  }

  /** Between two turning points the phase is the one the first turning point set. */
  lemma {:induction false} PhaseHolds(log: seq<Entry>, t: Host, i: nat, k: nat)
    requires i < k <= |log| && log[i].Up? && log[i].session == t
    requires forall m :: i < m < k ==> !Turns(log[m], t)
    ensures PhaseOf(log[..k], t) == Raised(log[i].host, Unmapped(t) in log[i..k])
    decreases k
  {
    var before := log[..k][..|log[..k]| - 1];
    assert before == log[..k - 1];
    if k == i + 1 {
      assert log[i..k] == [log[i]];
    } else {
      PhaseHolds(log, t, i, k - 1);
      assert log[i..k] == log[i..k - 1] + [log[k - 1]];
    }
  }

  /** The event that ends an established period names the host that began it, unless an
      explicit disconnect took the mapping away in between; then it names the transport host. */
  lemma EndingNamesTheBeginning(self: Host, inputs: seq<Input>, t: Host, i: nat, j: nat)
    requires var log := Run(self, inputs).log;
             && i < j < |log|
             && log[i].Up? && Turns(log[i], t) && Turns(log[j], t)
             && (forall m :: i < m < j ==> !Turns(log[m], t))
    ensures var log := Run(self, inputs).log;
            !log[j].Up? && log[j].host == if Unmapped(t) in log[i..j] then t else log[i].host
  {
    RunKeeps(self, inputs);
    PhaseHolds(Run(self, inputs).log, t, i, j);
  }

  /** Each transport host completes the server handshake, and so is sent an Ack, at most once. */
  lemma ServerHandshakeOnce(self: Host, inputs: seq<Input>, t: Host)
    ensures var s := Run(self, inputs); Acks(s.commands, t) == Accepted(s.log, t) <= 1
  {
    RunKeeps(self, inputs);
    assert LocalInv(At(Run(self, inputs), t));
  }

  /** An application message to a mapped logical host leaves on an established session that
      belongs to that very host. */
  lemma SendReachesItsOwner(self: Host, inputs: seq<Input>, body: seq<byte>, l: Host)
    requires l in Run(self, inputs).toTransport
    ensures var s := Run(self, inputs);
            var t := ResolveUnderlying(s, l);
            && SendTo(s, body, l).commands == s.commands + [Transmit(t, Serialize(APPLICATION, body))]
            && StatusAt(s, t) == Some(Established) && MapToHost(s, t) == l
  {
    HostMapsAgree(self, inputs);
  }

  // --- a transport address is served only once -------------------------------------------------------

  ghost predicate Dead(s: Layer, t: Host) {
    StatusAt(s, t) in {Some(Failed), Some(Closing)}
  }

  lemma DeadHandshake(s: Layer, x: Host, p: Payload, t: Host)
    requires Dead(s, t)
    ensures Dead(OnHandshake(s, x, p), t)
  {
  }

  lemma DeadReceive(s: Layer, x: Host, frame: seq<byte>, t: Host)
    requires Dead(s, t)
    ensures Dead(OnReceive(s, x, frame), t)
  {
    var (layer, body) := Deserialize(frame);
    if layer == SESSION { DeadHandshake(s, x, ParsePayload(body), t); }
  }

  lemma DeadConnected(s: Layer, x: Host, t: Host)
    requires Dead(s, t)
    ensures Dead(OnConnected(s, x), t)
  {
  }

  lemma DeadEnded(s: Layer, x: Host, t: Host)
    requires Dead(s, t)
    ensures Dead(OnDisconnected(s, x), t) && Dead(OnFailed(s, x), t)
  {
  }

  lemma DeadLocal(s: Layer, i: Input, t: Host)
    requires Dead(s, t) && i != Connect(t) && (i.Connect? || i.Disconnect? || i.Send?)
    ensures Dead(Step(s, i), t)
  {
  }

  lemma DeadStep(s: Layer, i: Input, t: Host)
    requires Dead(s, t) && i != Connect(t)
    ensures Dead(Step(s, i), t)
  {
    match i
    case Receive(x, frame) => DeadReceive(s, x, frame, t);
    case TransportConnected(x) => DeadConnected(s, x, t);
    case TransportDisconnected(x) => DeadEnded(s, x, t);
    case TransportFailed(x) => DeadEnded(s, x, t);
    case _ => DeadLocal(s, i, t);
  }

  /** Once a connection from a transport address has ended, later connections from the same
      address are never established, whatever they send: only dialling it revives a session. */
  lemma {:induction false} DeadAddressStaysDead(self: Host, inputs: seq<Input>, more: seq<Input>, t: Host)
    requires Dead(Run(self, inputs), t)
    requires forall k :: 0 <= k < |more| ==> more[k] != Connect(t)
    ensures Dead(Run(self, inputs + more), t)
    decreases |more|
  {
    if more == [] {
      assert inputs + more == inputs;
    } else {
      var n := |more| - 1;
      DeadAddressStaysDead(self, inputs, more[..n], t);
      DeadExtends(self, inputs + more[..n], more[n], t);
      assert inputs + more[..n] + [more[n]] == inputs + more;
    }
  }

  lemma DeadExtends(self: Host, inputs: seq<Input>, i: Input, t: Host)
    requires Dead(Run(self, inputs), t) && i != Connect(t)
    ensures Dead(Run(self, inputs + [i]), t)
  {
    RunSnoc(self, inputs, i);
    DeadStep(Run(self, inputs), i, t);
  }

  lemma RunSnoc(self: Host, inputs: seq<Input>, i: Input)
    ensures Run(self, inputs + [i]) == Step(Run(self, inputs), i)
  {
    assert (inputs + [i])[..|inputs|] == inputs;
  }

  // --- when the two maps are inverse to each other ----------------------------------------------------

  /** The other direction of the inverse: transport to logical to transport. */
  ghost predicate Invertible(s: Layer) {
    forall t :: t in s.toLogical ==>
      s.toLogical[t] in s.toTransport && s.toTransport[s.toLogical[t]] == t
  }

  /** The logical host an input is about to map its session to, if any: a dialled connection
      comes up with a Hello to send, or a Hello is read where one is still awaited. */
  function MapsTo(s: Layer, i: Input): Option<Host> {
    match i
    case TransportConnected(t) =>
      if StatusAt(s, t) == Some(HandshakingClient) && EncodeHello(s.self).Some?
      then Some(s.sessions[t].logical) else None
    case Receive(t, frame) => AcceptsHello(s, t, Deserialize(frame).0, ParsePayload(Deserialize(frame).1))
    case _ => None
  }

  function AcceptsHello(s: Layer, t: Host, layer: byte, p: Payload): Option<Host> {
    if layer == SESSION && p.Hello? && StatusAt(s, t) in {None, Some(Idle), Some(HandshakingServer)}
    then Some(p.host) else None
  }

  /** Some other session carries `l`. */
  ghost predicate Elsewhere(s: Layer, t: Host, l: Host) {
    exists x :: x in s.toLogical && x != t && s.toLogical[x] == l
  }

  /** An input is about to map a second transport to a logical host. */
  ghost predicate Doubles(s: Layer, i: Input) {
    MapsTo(s, i).Some? && Elsewhere(s, i.host, MapsTo(s, i).value)
  }

  ghost predicate SameMaps(s: Layer, s': Layer) {
    s'.toLogical == s.toLogical && s'.toTransport == s.toTransport
  }

  /** The maps gain the entry of the so far unmapped session `t`, or they stay or lose it. */
  ghost predicate MapsMoved(s: Layer, s': Layer, t: Host, to: Option<Host>) {
    match to
    case Some(l) => t !in s.toLogical && SameMaps(SetMapping(s, t, l), s')
    case None => SameMaps(s, s') || SameMaps(CleanupMapping(s, t), s')
  }

  lemma HandshakeMovesMaps(s: Layer, t: Host, p: Payload)
    requires LocalInv(At(s, t))
    ensures MapsMoved(s, OnHandshake(s, t, p), t, AcceptsHello(s, t, SESSION, p))
  {
    AdoptFrame(s, t);
    if AcceptsHello(s, t, SESSION, p).Some? {
      assert OnHandshake(s, t, p) == Accept(Adopt(s, t), t, p.host);
    } else {
      assert SameMaps(s, OnHandshake(s, t, p));
    }
  }

  lemma ReceiveMovesMaps(s: Layer, t: Host, frame: seq<byte>)
    requires LocalInv(At(s, t))
    ensures MapsMoved(s, OnReceive(s, t, frame), t, MapsTo(s, Receive(t, frame)))
  {
    var (layer, body) := Deserialize(frame);
    if layer == SESSION {
      HandshakeMovesMaps(s, t, ParsePayload(body));
    }
  }

  lemma DisconnectedMovesMaps(s: Layer, t: Host)
    ensures MapsMoved(s, OnDisconnected(s, t), t, None)
  {
  }

  lemma ConnectedMovesMaps(s: Layer, t: Host)
    requires LocalInv(At(s, t))
    ensures MapsMoved(s, OnConnected(s, t), t, MapsTo(s, TransportConnected(t)))
  {
  }

  lemma FailedMovesMaps(s: Layer, t: Host)
    ensures MapsMoved(s, OnFailed(s, t), t, None)
  {
  }

  lemma ConnectMovesMaps(s: Layer, h: Host)
    ensures SameMaps(s, ConnectClient(s, h))
  {
  }

  lemma DisconnectMovesMaps(s: Layer, h: Host)
    ensures SameMaps(CleanupMapping(s, h), DisconnectHost(s, h))
  {
  }

  lemma MapsMove(s: Layer, i: Input)
    requires LocalInv(At(s, i.host))
    ensures MapsMoved(s, Step(s, i), i.host, MapsTo(s, i))
  {
    match i
    case TransportConnected(t) => ConnectedMovesMaps(s, t);
    case TransportDisconnected(t) => DisconnectedMovesMaps(s, t);
    case TransportFailed(t) => FailedMovesMaps(s, t);
    case Receive(t, frame) => ReceiveMovesMaps(s, t, frame);
    case Connect(h) => ConnectMovesMaps(s, h);
    case Disconnect(h) => DisconnectMovesMaps(s, h);
    case Send(_, _) =>
  }

  /** On the maps alone: maps that are inverse stay so exactly if no logical host is doubled. */
  lemma MoveInverts(s: Layer, s': Layer, t: Host, to: Option<Host>)
    requires ReverseInv(s) && Invertible(s) && MapsMoved(s, s', t, to)
    ensures Invertible(s') <==> !(to.Some? && Elsewhere(s, t, to.value))
  {
    if to.Some? && Elsewhere(s, t, to.value) {
      var x :| x in s.toLogical && x != t && s.toLogical[x] == to.value;
      assert x in s'.toLogical && s'.toTransport[to.value] == t;
    }
  }

  /** One input, exactly: inverse maps stay inverse if and only if it doubles no logical host. */
  lemma InverseStep(self: Host, inputs: seq<Input>, i: Input)
    requires InvertibleAfter(self, inputs)
    ensures InvertibleAfter(self, inputs + [i]) <==> !Doubles(Run(self, inputs), i)
  {
    RunKeeps(self, inputs);
    RunSnoc(self, inputs, i);
    assert LocalInv(At(Run(self, inputs), i.host));
    MapsMove(Run(self, inputs), i);
    MoveInverts(Run(self, inputs), Run(self, inputs + [i]), i.host, MapsTo(Run(self, inputs), i));
  }

  ghost predicate InvertibleAfter(self: Host, inputs: seq<Input>) {
    Invertible(Run(self, inputs))
  }

  ghost predicate DoublesAfter(self: Host, inputs: seq<Input>, i: Input) {
    Doubles(Run(self, inputs), i)
  }

  /** The maps invert each other throughout a run exactly when no input, as it is served, finds
      the logical host it is about to map already carried by another transport; when both
      peers dial each other, one does. */
  lemma InverseCondition(self: Host, inputs: seq<Input>)
    ensures (forall n :: 0 <= n <= |inputs| ==> InvertibleAfter(self, inputs[..n]))
       <==> (forall n :: 0 <= n < |inputs| ==> !DoublesAfter(self, inputs[..n], inputs[n]))
  {
    if forall n :: 0 <= n <= |inputs| ==> InvertibleAfter(self, inputs[..n]) {
      forall n | 0 <= n < |inputs| ensures !DoublesAfter(self, inputs[..n], inputs[n]) {
        assert inputs[..n + 1] == inputs[..n] + [inputs[n]];
        assert InvertibleAfter(self, inputs[..n]) && InvertibleAfter(self, inputs[..n + 1]);
        InverseStep(self, inputs[..n], inputs[n]);
      }
    }
    if forall n :: 0 <= n < |inputs| ==> !DoublesAfter(self, inputs[..n], inputs[n]) {
      forall n | 0 <= n <= |inputs| ensures InvertibleAfter(self, inputs[..n]) {
        UndoubledInverts(self, inputs, n);
      }
    }
  }

  lemma {:induction false} UndoubledInverts(self: Host, inputs: seq<Input>, n: nat)
    requires n <= |inputs|
    requires forall m :: 0 <= m < |inputs| ==> !DoublesAfter(self, inputs[..m], inputs[m])
    ensures InvertibleAfter(self, inputs[..n])
  {
    if n == 0 {
    } else {
      UndoubledInverts(self, inputs, n - 1);
      assert inputs[..n] == inputs[..n - 1] + [inputs[n - 1]];
      assert !DoublesAfter(self, inputs[..n - 1], inputs[n - 1]);
      InverseStep(self, inputs[..n - 1], inputs[n - 1]);
    }
  }

  function Dialled(self: Host, peer: Host): Layer {
    OnConnected(ConnectClient(Fresh(self), peer), peer)
  }

  lemma DialledMaps(self: Host, peer: Host)
    requires HostOnWire(self).Some?
    ensures var s := Dialled(self, peer);
            s.sessions.Keys == {peer} && s.toLogical == s.toTransport == map[peer := peer]
            && s.sessions[peer].status == Established
  {
  }

  lemma CrossedMaps(s: Layer, peer: Host, ephemeral: Host)
    requires s.sessions.Keys == {peer} && s.toLogical == s.toTransport == map[peer := peer]
    requires s.sessions[peer].status == Established && peer != ephemeral
    ensures var s' := OnDisconnected(OnHandshake(s, ephemeral, Hello(peer)), peer);
            s'.toLogical == map[ephemeral := peer] && s'.toTransport == map[]
  {
    var s1 := OnHandshake(s, ephemeral, Hello(peer));
    assert s1.toLogical == map[peer := peer, ephemeral := peer];
    assert s1.toTransport == map[peer := ephemeral];
  }

  /** A Hello frame is handled as the host it announces. */
  lemma HelloIsHeard(s: Layer, t: Host, peer: Host)
    requires EncodeHello(peer).Some?
    ensures OnReceive(s, t, Serialize(SESSION, EncodeHello(peer).value))
         == OnHandshake(s, t, Hello(Announced(peer)))
  {
    PayloadRoundTrip(peer);
    LayerRoundTrip(SESSION, EncodeHello(peer).value);
  }

  lemma DialRun(self: Host, inputs: seq<Input>, peer: Host) returns (more: seq<Input>)
    ensures Run(self, more) == ConnectClient(Run(self, inputs), peer)
  {
    RunSnoc(self, inputs, Connect(peer));
    more := inputs + [Connect(peer)];
  }

  lemma ConnectedRun(self: Host, inputs: seq<Input>, peer: Host) returns (more: seq<Input>)
    ensures Run(self, more) == OnConnected(Run(self, inputs), peer)
  {
    RunSnoc(self, inputs, TransportConnected(peer));
    more := inputs + [TransportConnected(peer)];
  }

  lemma DialledRun(self: Host, peer: Host) returns (inputs: seq<Input>)
    ensures Run(self, inputs) == Dialled(self, peer)
  {
    var dialled := DialRun(self, [], peer);
    inputs := ConnectedRun(self, dialled, peer);
  }

  lemma HelloRun(self: Host, inputs: seq<Input>, t: Host, peer: Host) returns (more: seq<Input>)
    requires EncodeHello(peer).Some? && Announced(peer) == peer
    ensures Run(self, more) == OnHandshake(Run(self, inputs), t, Hello(peer))
  {
    var hello := Receive(t, Serialize(SESSION, EncodeHello(peer).value));
    RunSnoc(self, inputs, hello);
    HelloIsHeard(Run(self, inputs), t, peer);
    more := inputs + [hello];
  }

  lemma LostRun(self: Host, inputs: seq<Input>, t: Host) returns (more: seq<Input>)
    ensures Run(self, more) == OnDisconnected(Run(self, inputs), t)
  {
    RunSnoc(self, inputs, TransportDisconnected(t));
    more := inputs + [TransportDisconnected(t)];
  }

  lemma CrossedRun(self: Host, peer: Host, ephemeral: Host) returns (inputs: seq<Input>)
    requires EncodeHello(peer).Some? && Announced(peer) == peer
    ensures Run(self, inputs)
         == OnDisconnected(OnHandshake(Dialled(self, peer), ephemeral, Hello(peer)), peer)
  {
    inputs := DialledRun(self, peer);
    inputs := HelloRun(self, inputs, ephemeral, peer);
    inputs := LostRun(self, inputs, peer);
  }

  /** Two peers that dial each other: the client session and the inbound session carry the
      same logical host, and losing the older one strands the newer one, the only one left,
      without a reverse entry. */
  lemma CrossedDialsBreakTheInverse(self: Host, peer: Host, ephemeral: Host) returns (inputs: seq<Input>)
    requires HostOnWire(self).Some? && HostOnWire(peer).Some? && 0 <= peer.port < 0x1_0000
    requires peer != ephemeral
    ensures Run(self, inputs).toLogical == map[ephemeral := peer] && Run(self, inputs).toTransport == map[]
    ensures !InvertibleAfter(self, inputs)
  {
    inputs := CrossedRun(self, peer, ephemeral);
    DialledMaps(self, peer);
    CrossedMaps(Dialled(self, peer), peer, ephemeral);
    assert ephemeral in Run(self, inputs).toLogical;
  }
}
