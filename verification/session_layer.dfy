/** The session layer as the program keeps it: an object whose maps the handlers of
    `pkg/transport/session.go` update in place. Every handler performs the step of module
    `Session` it stands for. */
module SessionObject {
  import opened Bytes
  import opened Hosts
  import opened Handshake
  import opened Session

  class SessionLayer {
    const self: Host
    var sessions: map<Host, Conn>
    var toLogical: map<Host, Host>
    var toTransport: map<Host, Host>
    var log: seq<Entry>
    var commands: seq<Command>
    var inbox: seq<AppMessage>

    ghost function State(): Layer
      reads this
    {
      Layer(self, sessions, toLogical, toTransport, log, commands, inbox)
    }

    constructor (self: Host)
      ensures State() == Fresh(self)
    {
      this.self := self;
      sessions, toLogical, toTransport := map[], map[], map[];
      log, commands, inbox := [], [], [];
    }

    method GetSession(t: Host, logical: Host)
      modifies this`sessions
      ensures State() == WithSession(old(State()), t, logical)
    {
      if t !in sessions {
        sessions := sessions[t := Conn(logical, Idle)];
      } else if logical.port != 0 {
        sessions := sessions[t := sessions[t].(logical := logical)];
      }
    }

    method SetState(t: Host, status: Status)
      requires t in sessions
      modifies this`sessions
      ensures State() == SetStatus(old(State()), t, status)
    {
      sessions := sessions[t := sessions[t].(status := status)];
    }

    method SetServerMapping(t: Host, logical: Host)
      modifies this`toLogical, this`toTransport
      ensures State() == SetMapping(old(State()), t, logical)
    {
      toLogical := toLogical[t := logical];
      toTransport := toTransport[logical := t];
    }

    method CleanupServerMapping(h: Host) returns (removed: bool)
      modifies this`toLogical, this`toTransport
      ensures State() == CleanupMapping(old(State()), h) && removed == (h in old(toLogical))
    {
      removed := h in toLogical;
      if removed {
        var logical := toLogical[h];
        toLogical := toLogical - {h};
        toTransport := toTransport - {logical};
      }
    }

    method HandleConnect(h: Host)
      modifies this
      ensures State() == Step(old(State()), Connect(h))
    {
      GetSession(h, h);
      if sessions[h].status in {Idle, Failed, Closing} {
        SetState(h, HandshakingClient);
        commands := commands + [Dial(h)];
      }
    }

    method HandleDisconnectRequest(h: Host)
      modifies this
      ensures State() == Step(old(State()), Disconnect(h))
    {
      commands := commands + [Hangup(h)];
      var removed := CleanupServerMapping(h);
      if removed {
        log := log + [Unmapped(h)];
      }
    }

    method HandleSend(body: seq<byte>, h: Host)
      modifies this`commands
      ensures State() == Step(old(State()), Send(body, h))
    {
      var underlying := h;
      if h in toTransport {
        underlying := toTransport[h];
      }
      commands := commands + [Transmit(underlying, Serialize(APPLICATION, body))];
    }

    method AdoptInbound(t: Host)
      modifies this`sessions
      ensures State() == Adopt(old(State()), t)
    {
      GetSession(t, ZERO_HOST);
      if sessions[t].status == Idle {
        SetState(t, HandshakingServer);
      }
    }

    method HandleConnected(t: Host)
      modifies this
      ensures State() == Step(old(State()), TransportConnected(t))
    {
      AdoptInbound(t);
      if sessions[t].status != HandshakingClient { return; }
      var logical := sessions[t].logical;
      var hello := EncodeHello(self);
      if hello == None {
        SetState(t, Failed);
        log := log + [Fell(t, logical)];
        return;
      }
      commands := commands + [Transmit(t, Serialize(SESSION, hello.value))];
      SetState(t, Established);
      SetServerMapping(t, logical);
      log := log + [Up(t, logical, false)];
    }

    method HandleDisconnected(t: Host)
      modifies this
      ensures State() == Step(old(State()), TransportDisconnected(t))
    {
      GetSession(t, ZERO_HOST);
      if sessions[t].status in {Established, HandshakingClient, HandshakingServer} {
        SetState(t, Closing);
        var logical := if t in toLogical then toLogical[t] else t;
        var _ := CleanupServerMapping(t);
        log := log + [Down(t, logical)];
      } else {
        SetState(t, Failed);
      }
    }

    method HandleFailed(t: Host)
      modifies this
      ensures State() == Step(old(State()), TransportFailed(t))
    {
      GetSession(t, ZERO_HOST);
      var logical := if t in toLogical then toLogical[t] else t;
      var _ := CleanupServerMapping(t);
      SetState(t, Failed);
      log := log + [Fell(t, logical)];
    }

    method HandleServerHello(t: Host, peer: Host)
      requires t in sessions
      modifies this
      ensures State() == Accept(old(State()), t, peer)
    {
      sessions := sessions[t := sessions[t].(logical := peer)];
      commands := commands + [Transmit(t, AckFrame())];
      SetState(t, Established);
      SetServerMapping(t, peer);
      log := log + [Up(t, peer, true)];
    }

    method HandleHandshake(t: Host, body: seq<byte>)
      modifies this
      ensures State() == OnHandshake(old(State()), t, ParsePayload(body))
    {
      AdoptInbound(t);
      match ParsePayload(body)
      case VersionMismatch =>
        log := log + [Mismatch(t)];
        commands := commands + [Hangup(t)];
      case Hello(peer) =>
        if sessions[t].status == HandshakingServer {
          HandleServerHello(t, peer);
        }
      case _ =>
    }

    method HandleMessage(t: Host, frame: seq<byte>)
      modifies this
      ensures State() == Step(old(State()), Receive(t, frame))
    {
      var (layer, body) := Deserialize(frame);
      if layer == APPLICATION {
        inbox := inbox + [AppMessage(t, body)];
      } else if layer == SESSION {
        HandleHandshake(t, body);
      }
    }

    /** `handler`: serving a sequence of inputs ends in the state of that run. */
    method Serve(inputs: seq<Input>)
      requires State() == Fresh(self)
      modifies this
      ensures State() == Run(self, inputs)
    {
      assert inputs[..0] == [];
      for n := 0 to |inputs|
        invariant State() == Run(self, inputs[..n])
      {
        assert inputs[..n + 1][..n] == inputs[..n];
        match inputs[n] {
          case Connect(h) => HandleConnect(h);
          case Disconnect(h) => HandleDisconnectRequest(h);
          case Send(body, h) => HandleSend(body, h);
          case TransportConnected(t) => HandleConnected(t);
          case TransportDisconnected(t) => HandleDisconnected(t);
          case TransportFailed(t) => HandleFailed(t);
          case Receive(t, frame) => HandleMessage(t, frame);
        }
      }
      assert inputs[..|inputs|] == inputs;
    }
  }
}
