/** The session layer as a transition table, written down from the states of
    `pkg/transport/session.go` and independently of the handlers: what every input does in
    every state to its session, to the host maps, to the events, to the commands for the
    transport and to the inbox, and what it leaves alone. The handlers of module `Session`
    follow it, and what was issued over a run can be counted by it. */
module SessionTable {
  import opened Bytes
  import opened Hosts
  import opened Handshake
  import opened Session

  datatype Mapping = Keep | MapTo(logical: Host) | Unmap

  /** The session after an input, and what else the input does. */
  datatype Row = Row(
    session: Option<Conn>, mapping: Mapping,
    event: Option<Entry>, command: Option<Command>, message: Option<AppMessage>)

  function SessionAt(s: Layer, t: Host): Option<Conn> {
    if t in s.sessions then Some(s.sessions[t]) else None
  }

  function Quiet(session: Option<Conn>): Row {
    Row(session, Keep, None, None, None)
  }

  /** The logical host a session has been given, none yet for one seen first through the
      transport. */
  function LogicalAt(s: Layer, t: Host): Host {
    if t in s.sessions then s.sessions[t].logical else Host(0, [])
  }

  function MappedOr(s: Layer, t: Host): Host {
    if t in s.toLogical then s.toLogical[t] else t
  }

  function UnmapIfMapped(s: Layer, t: Host): Mapping {
    if t in s.toLogical then Unmap else Keep
  }

  /** A dial goes out unless a handshake or a session is under way. */
  function ConnectRow(s: Layer, h: Host): Row {
    var logical := if h in s.sessions && h.port == 0 then s.sessions[h].logical else h;
    match StatusAt(s, h)
    case Some(HandshakingClient) => Quiet(Some(Conn(logical, HandshakingClient)))
    case Some(HandshakingServer) => Quiet(Some(Conn(logical, HandshakingServer)))
    case Some(Established) => Quiet(Some(Conn(logical, Established)))
    case _ => Quiet(Some(Conn(logical, HandshakingClient))).(command := Some(Dial(h)))
  }

  /** A disconnect always hangs up; of the session only the mapping goes at once. */
  function DisconnectRow(s: Layer, h: Host): Row {
    Row(SessionAt(s, h), UnmapIfMapped(s, h),
        if h in s.toLogical then Some(Unmapped(h)) else None, Some(Hangup(h)), None)
  }

  /** A message goes to the transport host its logical host is reached through, or to the host
      itself where none is known. */
  function SendRow(s: Layer, body: seq<byte>, h: Host): Row {
    var to := if h in s.toTransport then s.toTransport[h] else h;
    Quiet(SessionAt(s, h)).(command := Some(Transmit(to, [0] + body)))
  }

  /** A connection that was dialled carries our Hello at once and counts as established; any
      new one is a server's. */
  function ConnectedRow(s: Layer, t: Host): Row {
    var logical := LogicalAt(s, t);
    match StatusAt(s, t)
    case Some(HandshakingClient) =>
      if |s.self.ip| > 0xFFFF then
        Row(Some(Conn(logical, Failed)), Keep, Some(Fell(t, logical)), None, None)
      else
        Row(Some(Conn(logical, Established)), MapTo(logical), Some(Up(t, logical, false)),
            Some(Transmit(t, [1] + EncodeHello(s.self).value)), None)
    case None => Quiet(Some(Conn(logical, HandshakingServer)))
    case Some(Idle) => Quiet(Some(Conn(logical, HandshakingServer)))
    case _ => Quiet(SessionAt(s, t))
  }

  function DisconnectedRow(s: Layer, t: Host): Row {
    var logical := LogicalAt(s, t);
    if StatusAt(s, t) in {None, Some(Idle), Some(Failed), Some(Closing)} then Quiet(Some(Conn(logical, Failed)))
    else Row(Some(Conn(logical, Closing)), UnmapIfMapped(s, t), Some(Down(t, MappedOr(s, t))), None, None)
  }

  function FailedRow(s: Layer, t: Host): Row {
    Row(Some(Conn(LogicalAt(s, t), Failed)), UnmapIfMapped(s, t), Some(Fell(t, MappedOr(s, t))), None, None)
  }

  /** A Hello counts only while one is awaited, and is answered with an Ack; one of another
      version is reported and hung up on in any state. */
  function HandshakeRow(s: Layer, t: Host, p: Payload): Row {
    var awaited := StatusAt(s, t) in {None, Some(Idle), Some(HandshakingServer)};
    var session := if awaited then Conn(LogicalAt(s, t), HandshakingServer) else s.sessions[t];
    match p
    case Hello(peer) =>
      if awaited then
        Row(Some(Conn(peer, Established)), MapTo(peer), Some(Up(t, peer, true)), Some(Transmit(t, [1, 2])), None)
      else Quiet(Some(session))
    case VersionMismatch => Row(Some(session), Keep, Some(Mismatch(t)), Some(Hangup(t)), None)
    case Ack => Quiet(Some(session))
    case Malformed => Quiet(Some(session))
  }

  function ReceiveRow(s: Layer, t: Host, frame: seq<byte>): Row {
    if frame == [] then Quiet(SessionAt(s, t)).(message := Some(AppMessage(t, [])))
    else if frame[0] == 0 then Quiet(SessionAt(s, t)).(message := Some(AppMessage(t, frame[1..])))
    else if frame[0] == 1 then HandshakeRow(s, t, ParsePayload(frame[1..]))
    else Quiet(SessionAt(s, t))
  }

  function Expected(s: Layer, i: Input): Row {
    match i
    case Connect(h) => ConnectRow(s, h)
    case Disconnect(h) => DisconnectRow(s, h)
    case Send(body, h) => SendRow(s, body, h)
    case TransportConnected(t) => ConnectedRow(s, t)
    case TransportDisconnected(t) => DisconnectedRow(s, t)
    case TransportFailed(t) => FailedRow(s, t)
    case Receive(t, frame) => ReceiveRow(s, t, frame)
  }

  ghost predicate MapsFollow(s: Layer, s': Layer, t: Host, m: Mapping) {
    match m
    case Keep => s'.toLogical == s.toLogical && s'.toTransport == s.toTransport
    case MapTo(l) => s'.toLogical == s.toLogical[t := l] && s'.toTransport == s.toTransport[l := t]
    case Unmap =>
      t in s.toLogical && s'.toLogical == s.toLogical - {t} && s'.toTransport == s.toTransport - {s.toLogical[t]}
  }

  /** `s'` is `s` after the row: that and nothing else. */
  ghost predicate FollowsRow(s: Layer, s': Layer, t: Host, row: Row) {
    && s'.self == s.self
    && SessionAt(s', t) == row.session && (forall x :: x != t ==> SessionAt(s', x) == SessionAt(s, x))
    && MapsFollow(s, s', t, row.mapping)
    && Grows(s.log, s'.log, row.event)
    && Grows(s.commands, s'.commands, row.command)
    && Grows(s.inbox, s'.inbox, row.message)
  }

  lemma BusyConnectFollows(s: Layer, h: Host)
    requires StatusAt(s, h) in {Some(HandshakingClient), Some(HandshakingServer), Some(Established)}
    ensures FollowsRow(s, ConnectClient(s, h), h, ConnectRow(s, h))
  {
  }

  lemma ConnectFollows(s: Layer, h: Host)
    ensures FollowsRow(s, ConnectClient(s, h), h, ConnectRow(s, h))
  {
    if StatusAt(s, h) in {Some(HandshakingClient), Some(HandshakingServer), Some(Established)} {
      BusyConnectFollows(s, h);
    } else {
      LiveOrNot(StatusAt(s, h));
    }
  }

  lemma DisconnectFollows(s: Layer, h: Host)
    ensures FollowsRow(s, DisconnectHost(s, h), h, DisconnectRow(s, h))
  {
  }

  lemma SendFollows(s: Layer, body: seq<byte>, h: Host)
    ensures FollowsRow(s, SendTo(s, body, h), h, SendRow(s, body, h))
  {
  }

  lemma ConnectedFollows(s: Layer, t: Host)
    ensures FollowsRow(s, OnConnected(s, t), t, ConnectedRow(s, t))
  {
  }

  lemma LiveOrNot(status: Option<Status>)
    ensures status in {None, Some(Idle), Some(Failed), Some(Closing)}
       <==> status !in {Some(Established), Some(HandshakingClient), Some(HandshakingServer)}
  {
    if status.Some? {
      match status.value
      case Idle => case HandshakingClient => case HandshakingServer =>
      case Established => case Failed => case Closing =>
    }
  }

  lemma DisconnectedFollows(s: Layer, t: Host)
    ensures FollowsRow(s, OnDisconnected(s, t), t, DisconnectedRow(s, t))
  {
    LiveOrNot(StatusAt(s, t));
    var s1 := WithSession(s, t, ZERO_HOST);
    assert s1.sessions[t] == if t in s.sessions then s.sessions[t] else Conn(Host(0, []), Idle);
  }

  lemma FailedFollows(s: Layer, t: Host)
    ensures FollowsRow(s, OnFailed(s, t), t, FailedRow(s, t))
  {
  }

  lemma AdoptFollows(s: Layer, t: Host)
    ensures FollowsRow(s, Adopt(s, t), t, HandshakeRow(s, t, Ack))
  {
  }

  lemma AcceptFollows(s: Layer, t: Host, peer: Host)
    requires t in s.sessions
    ensures FollowsRow(s, Accept(s, t, peer), t,
              Row(Some(Conn(peer, Established)), MapTo(peer), Some(Up(t, peer, true)), Some(Transmit(t, [1, 2])), None))
  {
    assert AckFrame() == [1, 2];
  }

  /** A row on top of one that only moved the session. */
  lemma RowsCompose(s: Layer, s1: Layer, s2: Layer, t: Host, session: Option<Conn>, row: Row)
    requires FollowsRow(s, s1, t, Quiet(session)) && FollowsRow(s1, s2, t, row)
    ensures FollowsRow(s, s2, t, row)
  {
  }

  lemma HandshakeFollows(s: Layer, t: Host, p: Payload)
    ensures FollowsRow(s, OnHandshake(s, t, p), t, HandshakeRow(s, t, p))
  {
    var s1 := Adopt(s, t);
    AdoptFollows(s, t);
    var session := HandshakeRow(s, t, Ack).session;
    if p.Hello? && s1.sessions[t].status == HandshakingServer {
      AcceptFollows(s1, t, p.host);
      RowsCompose(s, s1, Accept(s1, t, p.host), t, session, HandshakeRow(s, t, p));
    } else if p.VersionMismatch? {
      RowsCompose(s, s1, OnHandshake(s, t, p), t, session, HandshakeRow(s, t, p));
    }
  }

  lemma ReceiveFollows(s: Layer, t: Host, frame: seq<byte>)
    ensures FollowsRow(s, OnReceive(s, t, frame), t, ReceiveRow(s, t, frame))
  {
    if frame != [] && frame[0] == 1 { HandshakeFollows(s, t, ParsePayload(frame[1..])); }
  }

  /** Every input, in every state, does what the table says and nothing else. */
  lemma StepFollowsTable(s: Layer, i: Input)
    ensures FollowsRow(s, Step(s, i), i.host, Expected(s, i))
  {
    match i
    case Connect(h) => ConnectFollows(s, h);
    case Disconnect(h) => DisconnectFollows(s, h);
    case Send(body, h) => SendFollows(s, body, h);
    case TransportConnected(t) => ConnectedFollows(s, t);
    case TransportDisconnected(t) => DisconnectedFollows(s, t);
    case TransportFailed(t) => FailedFollows(s, t);
    case Receive(t, frame) => ReceiveFollows(s, t, frame);
  }

  // --- counting over runs -------------------------------------------------------------------------

  function Bit(b: bool): nat {
    if b then 1 else 0
  }

  function Issued(s: Layer, c: Command): nat {
    multiset(s.commands)[c]
  }

  function Asked(inputs: seq<Input>, i: Input): nat {
    multiset(inputs)[i]
  }

  /** How often session `t` came up as a client's. */
  function ClientUps(log: seq<Entry>, t: Host): nat {
    if log == [] then 0
    else
      var e := log[|log| - 1];
      ClientUps(log[..|log| - 1], t) + Bit(e.Up? && !e.accepted && e.session == t)
  }

  lemma ClientUpsGrow(log: seq<Entry>, e: Entry, t: Host)
    ensures ClientUps(log + [e], t) == ClientUps(log, t) + Bit(e.Up? && !e.accepted && e.session == t)
  {
    assert (log + [e])[..|log|] == log;
  }

  lemma AskedSnoc(inputs: seq<Input>, i: Input, j: Input)
    ensures Asked(inputs + [i], j) == Asked(inputs, j) + Bit(i == j)
  {
  }

  lemma CountGrows<T>(before: seq<T>, after: seq<T>, x: Option<T>, y: T)
    requires Grows(before, after, x)
    ensures multiset(after)[y] == multiset(before)[y] + Bit(x == Some(y))
  {
  }

  /** The rows that hang up on `h`: those of an explicit disconnect, and of a mismatch. */
  lemma HangupRows(s: Layer, i: Input, h: Host)
    ensures Bit(Expected(s, i).command == Some(Hangup(h)))
         == Bit(i == Disconnect(h)) + Bit(Expected(s, i).event == Some(Mismatch(h)))
  {
  }

  /** Hanging up is accounted for: over every run the connections to `h` are closed exactly as
      often as a disconnect from `h` was asked for or `h` spoke another version. */
  lemma {:induction false} HangupLaw(self: Host, inputs: seq<Input>, h: Host)
    ensures var s := Run(self, inputs);
            Issued(s, Hangup(h)) == Asked(inputs, Disconnect(h)) + multiset(s.log)[Mismatch(h)]
    decreases |inputs|
  {
    if inputs == [] {
    } else {
      var n := |inputs| - 1;
      var before, i := inputs[..n], inputs[n];
      HangupLaw(self, before, h);
      LastInput(inputs);
      RunSnoc(self, before, i);
      HangupStep(Run(self, before), i, Run(self, inputs), h);
      AskedSnoc(before, i, Disconnect(h));
    }
  }

  lemma HangupStep(s: Layer, i: Input, s': Layer, h: Host)
    requires s' == Step(s, i)
    ensures Issued(s', Hangup(h)) == Issued(s, Hangup(h)) + Bit(Expected(s, i).command == Some(Hangup(h)))
    ensures multiset(s'.log)[Mismatch(h)]
         == multiset(s.log)[Mismatch(h)] + Bit(Expected(s, i).event == Some(Mismatch(h)))
    ensures Bit(Expected(s, i).command == Some(Hangup(h)))
         == Bit(i == Disconnect(h)) + Bit(Expected(s, i).event == Some(Mismatch(h)))
  {
    StepFollowsTable(s, i);
    CountGrows(s.commands, s'.commands, Expected(s, i).command, Hangup(h));
    CountGrows(s.log, s'.log, Expected(s, i).event, Mismatch(h));
    HangupRows(s, i, h);
  }

  function HelloTo(self: Host, t: Host): Command
    requires EncodeHello(self).Some?
  {
    Transmit(t, [1] + EncodeHello(self).value)
  }

  predicate ClientUp(e: Option<Entry>, t: Host) {
    e.Some? && e.value.Up? && !e.value.accepted && e.value.session == t
  }

  /** The rows that send our Hello to `t` are those that bring a client session up. */
  lemma HelloRows(s: Layer, i: Input, t: Host)
    requires EncodeHello(s.self).Some?
    ensures Expected(s, i).command == Some(HelloTo(s.self, t)) <==> ClientUp(Expected(s, i).event, t)
  {
    var hello := [1] + EncodeHello(s.self).value;
    assert hello[0] == 1 && hello[1] == 1 && [1, 2][1] == 2;
    if i.Send? { assert ([0] + i.body)[0] == 0; }
  }

  /** The rows that dial, and those that bring a client session up or end its handshake. */
  lemma DialRows(s: Layer, i: Input, t: Host)
    ensures var row := Expected(s, i);
            var before, after := StatusAt(s, t), if i.host == t then StatusOf(row) else StatusAt(s, t);
            && Bit(ClientUp(row.event, t)) + Bit(after == Some(HandshakingClient))
               <= Bit(row.command == Some(Dial(t))) + Bit(before == Some(HandshakingClient))
            && (row.command == Some(Dial(t)) ==> i == Connect(t) && after == Some(HandshakingClient))
  {
  }

  function StatusOf(row: Row): Option<Status> {
    if row.session.Some? then Some(row.session.value.status) else None
  }

  lemma StatusFollows(s: Layer, i: Input, t: Host)
    ensures StatusAt(Step(s, i), t) == if i.host == t then StatusOf(Expected(s, i)) else StatusAt(s, t)
  {
    StepFollowsTable(s, i);
    assert SessionAt(Step(s, i), t) == if i.host == t then Expected(s, i).session else SessionAt(s, t);
  }

  /** Dialling is accounted for: a client session comes up, or is on its way up, at most once
      per dial, and a dial goes out at most once per connect request. */
  lemma {:induction false} DialLaw(self: Host, inputs: seq<Input>, t: Host)
    ensures var s := Run(self, inputs);
            && ClientUps(s.log, t) + Bit(StatusAt(s, t) == Some(HandshakingClient)) <= Issued(s, Dial(t))
            && Issued(s, Dial(t)) <= Asked(inputs, Connect(t))
    decreases |inputs|
  {
    if inputs == [] {
    } else {
      var n := |inputs| - 1;
      var before, i := inputs[..n], inputs[n];
      DialLaw(self, before, t);
      LastInput(inputs);
      RunSnoc(self, before, i);
      DialStep(Run(self, before), i, Run(self, inputs), t);
      AskedSnoc(before, i, Connect(t));
    }
  }

  lemma LastInput(inputs: seq<Input>)
    requires inputs != []
    ensures inputs == inputs[..|inputs| - 1] + [inputs[|inputs| - 1]]
  {
  }

  lemma UpsFollow(s: Layer, i: Input, s': Layer, t: Host)
    requires s' == Step(s, i)
    ensures ClientUps(s'.log, t) == ClientUps(s.log, t) + Bit(ClientUp(Expected(s, i).event, t))
  {
    StepFollowsTable(s, i);
    var e := Expected(s, i).event;
    if e.Some? { ClientUpsGrow(s.log, e.value, t); }
  }

  lemma DialStep(s: Layer, i: Input, s': Layer, t: Host)
    requires s' == Step(s, i)
    ensures Issued(s', Dial(t)) == Issued(s, Dial(t)) + Bit(Expected(s, i).command == Some(Dial(t)))
    ensures Expected(s, i).command == Some(Dial(t)) ==> i == Connect(t)
    ensures ClientUps(s'.log, t) + Bit(StatusAt(s', t) == Some(HandshakingClient)) - Issued(s', Dial(t))
         <= ClientUps(s.log, t) + Bit(StatusAt(s, t) == Some(HandshakingClient)) - Issued(s, Dial(t))
  {
    StepFollowsTable(s, i);
    CountGrows(s.commands, s'.commands, Expected(s, i).command, Dial(t));
    UpsFollow(s, i, s', t);
    StatusFollows(s, i, t);
    DialRows(s, i, t);
  }

  /** Hellos are accounted for: one goes out exactly for every client session that came up. */
  lemma {:induction false} HelloLaw(self: Host, inputs: seq<Input>, t: Host)
    requires EncodeHello(self).Some?
    ensures var s := Run(self, inputs);
            s.self == self && Issued(s, HelloTo(self, t)) == ClientUps(s.log, t)
    decreases |inputs|
  {
    if inputs == [] {
    } else {
      var n := |inputs| - 1;
      HelloLaw(self, inputs[..n], t);
      HelloStep(Run(self, inputs[..n]), inputs[n], Run(self, inputs), t);
    }
  }

  lemma HelloStep(s: Layer, i: Input, s': Layer, t: Host)
    requires s' == Step(s, i) && EncodeHello(s.self).Some?
    ensures s'.self == s.self
    ensures Issued(s', HelloTo(s.self, t)) - Issued(s, HelloTo(s.self, t))
         == ClientUps(s'.log, t) - ClientUps(s.log, t)
  {
    StepFollowsTable(s, i);
    CountGrows(s.commands, s'.commands, Expected(s, i).command, HelloTo(s.self, t));
    UpsFollow(s, i, s', t);
    HelloRows(s, i, t);
  }
}
