/** The whole way of an application message: the wire identifier of `sendMessage`
    (`pkg/protorun/message.go`), the layer byte of the session, the frame of the transport,
    an arbitrarily cut byte stream, and back up to `processMessage`
    (`pkg/protorun/runtime.go`). */
module Stack {
  import opened Bytes
  import opened Wire
  import opened Hosts
  import Framing
  import Handshake
  import Session
  import GossipCodec

  datatype Envelope = Envelope(wireId: nat, payload: seq<byte>)

  /** The wire identifier occupies eight bytes. */
  ghost predicate Encodable(e: Envelope) {
    e.wireId < 0x1_0000_0000_0000_0000
  }

  function Body(e: Envelope): seq<byte> {
    LittleEndian(e.wireId, 8) + e.payload
  }

  /** `sendMessage`: header, then payload. */
  method BuildBody(e: Envelope) returns (b: seq<byte>)
    ensures b == Body(e)
  {
    var buffer := new Buffer([]);
    WriteUint(buffer, e.wireId, 8);
    buffer.Write(e.payload);
    return buffer.data;
  }

  /** Who owns a wire identifier, and the codecs the protocols registered. */
  datatype Registry<!M> = Registry(owners: map<nat, nat>, codecs: map<(nat, nat), seq<byte> -> Option<M>>)

  /** What becomes of a message: dropped for one of four reasons, or put in a mailbox. */
  datatype Verdict<M> =
    | NoHeader
    | UnknownId(wireId: nat)
    | CodecRaced(wireId: nat)
    | Undecodable(wireId: nat)
    | Dispatched(protocol: nat, message: M)

  function Judge<M>(reg: Registry<M>, e: Envelope): Verdict<M> {
    if e.wireId !in reg.owners then UnknownId(e.wireId)
    else
      var key := (reg.owners[e.wireId], e.wireId);
      if key !in reg.codecs then CodecRaced(e.wireId)
      else match reg.codecs[key](e.payload)
           case None => Undecodable(e.wireId)
           case Some(m) => Dispatched(key.0, m)
  }

  function Process<M>(reg: Registry<M>, body: seq<byte>): Verdict<M> {
    match ParseUint(body, 8)
    case Bad => NoHeader
    case Ok(id, rest) => Judge(reg, Envelope(id, rest))
  }

  /** Each verdict, and exactly when it is given: eight little-endian bytes name the message,
      the registry names its owner, the owner's codec decodes the rest. */
  lemma VerdictExactly<M>(reg: Registry<M>, body: seq<byte>, p: nat, m: M)
    ensures Process(reg, body) == NoHeader <==> |body| < 8
    ensures |body| >= 8 ==>
              var id, payload := FromLittleEndian(body[..8]), body[8..];
              && (Process(reg, body).UnknownId? <==> id !in reg.owners)
              && (Process(reg, body).CodecRaced? <==> id in reg.owners && (reg.owners[id], id) !in reg.codecs)
              && (Process(reg, body) == Dispatched(p, m) <==>
                    && id in reg.owners && reg.owners[id] == p && (p, id) in reg.codecs
                    && reg.codecs[(p, id)](payload) == Some(m))
              && (Process(reg, body).Undecodable? <==>
                    && id in reg.owners && (reg.owners[id], id) in reg.codecs
                    && reg.codecs[(reg.owners[id], id)](payload) == None)
              && (Process(reg, body).UnknownId? || Process(reg, body).CodecRaced? || Process(reg, body).Undecodable? ==>
                    Process(reg, body).wireId == id)
  {
  }

  type Mailboxes<M> = map<nat, seq<(M, Host)>>

  function Box<M>(boxes: Mailboxes<M>, p: nat): seq<(M, Host)> {
    if p in boxes then boxes[p] else []
  }

  function Pushed<M>(boxes: Mailboxes<M>, v: Verdict<M>, from: Host): Mailboxes<M> {
    if v.Dispatched? then boxes[v.protocol := Box(boxes, v.protocol) + [(v.message, from)]] else boxes
  }

  /** The runtime works through a series of messages. */
  function Processed<M>(reg: Registry<M>, boxes: Mailboxes<M>, inbox: seq<Session.AppMessage>): Mailboxes<M> {
    if inbox == [] then boxes
    else
      var n := |inbox| - 1;
      Pushed(Processed(reg, boxes, inbox[..n]), Process(reg, inbox[n].body), inbox[n].from)
  }

  class Dispatcher<M(==)> {
    const registry: Registry<M>
    var mailboxes: Mailboxes<M>

    constructor (registry: Registry<M>)
      ensures this.registry == registry && mailboxes == map[]
    {
      this.registry := registry;
      mailboxes := map[];
    }

    /** `processMessage`: header, owner, codec, decoding, mailbox. If the context is done, the
        push may lose against it. */
    method ProcessMessage(buffer: Buffer, from: Host, done: bool) returns (v: Verdict<M>)
      modifies this`mailboxes, buffer
      ensures v == Process(registry, old(buffer.data))
      ensures mailboxes == if done then old(mailboxes) else Pushed(old(mailboxes), v, from)
    {
      var id := ReadUint(buffer, 8);
      if id == None { return NoHeader; }
      if id.value !in registry.owners { return UnknownId(id.value); }
      var protocol := registry.owners[id.value];
      if (protocol, id.value) !in registry.codecs { return CodecRaced(id.value); }
      var message := registry.codecs[(protocol, id.value)](buffer.data);
      if message == None { return Undecodable(id.value); }
      if !done {
        var box := if protocol in mailboxes then mailboxes[protocol] else [];
        mailboxes := mailboxes[protocol := box + [(message.value, from)]];
      }
      return Dispatched(protocol, message.value);
    }

    /** The runtime's `eventHandler` on a series of session messages, with a context that is done
        after `reach` of them. */
    method HandleMessages(inbox: seq<Session.AppMessage>, reach: nat)
      modifies this`mailboxes
      ensures mailboxes == Processed(registry, old(mailboxes), inbox[..if reach < |inbox| then reach else |inbox|])
    {
      assert inbox[..0] == [];
      var n := 0;
      while n < |inbox| && n < reach
        invariant n <= |inbox| && n <= reach
        invariant mailboxes == Processed(registry, old(mailboxes), inbox[..n])
      {
        assert inbox[..n + 1][..n] == inbox[..n];
        var buffer := new Buffer(inbox[n].body);
        var _ := ProcessMessage(buffer, inbox[n].from, false);
        n := n + 1;
      }
    }
  }

  function OnWire(e: Envelope): seq<byte> {
    Handshake.Serialize(Handshake.APPLICATION, Body(e))
  }

  /** The session layer takes in a series of frames from one connection. */
  function Accepted(s: Session.Layer, from: Host, frames: seq<seq<byte>>): Session.Layer {
    if frames == [] then s
    else Session.OnReceive(Accepted(s, from, frames[..|frames| - 1]), from, frames[|frames| - 1])
  }

  /** Whatever was sent is judged as sent: delivered, or dropped for a reason of its own. */
  lemma BodyRoundTrip<M>(reg: Registry<M>, e: Envelope)
    requires Encodable(e)
    ensures Process(reg, Body(e)) == Judge(reg, e)
  {
    Powers();
    ParseUintInverse(e.wireId, 8, e.payload);
  }

  /** The bodies of the application frames, in order. An empty frame counts as one. */
  function AppBodies(frames: seq<seq<byte>>): seq<seq<byte>> {
    if frames == [] then []
    else
      var n := |frames| - 1;
      var (layer, body) := Handshake.Deserialize(frames[n]);
      AppBodies(frames[..n]) + (if layer == Handshake.APPLICATION then [body] else [])
  }

  function Bodies(es: seq<Envelope>): seq<seq<byte>> {
    seq(|es|, k requires 0 <= k < |es| => Body(es[k]))
  }

  function Messages(from: Host, bodies: seq<seq<byte>>): seq<Session.AppMessage> {
    seq(|bodies|, k requires 0 <= k < |bodies| => Session.AppMessage(from, bodies[k]))
  }

  lemma HandshakeKeepsInbox(s: Session.Layer, t: Host, p: Handshake.Payload)
    ensures Session.OnHandshake(s, t, p).inbox == s.inbox
  {
  }

  lemma ReceiveInbox(s: Session.Layer, from: Host, frame: seq<byte>)
    ensures Session.OnReceive(s, from, frame).inbox
         == s.inbox + if Handshake.Deserialize(frame).0 == Handshake.APPLICATION
                      then [Session.AppMessage(from, Handshake.Deserialize(frame).1)] else []
  {
    var (layer, body) := Handshake.Deserialize(frame);
    if layer == Handshake.SESSION { HandshakeKeepsInbox(s, from, Handshake.ParsePayload(body)); }
  }

  /** Whatever frames arrive on a connection, the application bodies among them reach the
      inbox, in order, and nothing else does. */
  lemma {:induction false} FramesReachTheInbox(s: Session.Layer, from: Host, frames: seq<seq<byte>>)
    ensures Accepted(s, from, frames).inbox == s.inbox + Messages(from, AppBodies(frames))
    decreases |frames|
  {
    if frames == [] {
    } else {
      var n := |frames| - 1;
      FramesReachTheInbox(s, from, frames[..n]);
      ReceiveInbox(Accepted(s, from, frames[..n]), from, frames[n]);
    }
  }

  /** The mailboxes after a series of envelopes, judged as they were sent. */
  function Posted<M>(reg: Registry<M>, boxes: Mailboxes<M>, from: Host, es: seq<Envelope>): Mailboxes<M> {
    if es == [] then boxes
    else
      var n := |es| - 1;
      Pushed(Posted(reg, boxes, from, es[..n]), Judge(reg, es[n]), from)
  }

  lemma {:induction false} MessagesArePosted<M>(reg: Registry<M>, boxes: Mailboxes<M>, from: Host,
                                                es: seq<Envelope>)
    requires forall k :: 0 <= k < |es| ==> Encodable(es[k])
    ensures Processed(reg, boxes, Messages(from, Bodies(es))) == Posted(reg, boxes, from, es)
    decreases |es|
  {
    if es == [] {
    } else {
      var n := |es| - 1;
      MessagesArePosted(reg, boxes, from, es[..n]);
      assert Messages(from, Bodies(es))[..n] == Messages(from, Bodies(es[..n]));
      BodyRoundTrip(reg, es[n]);
    }
  }

  /** What is meant for protocol `p`, in order. */
  function MeantFor<M>(reg: Registry<M>, from: Host, es: seq<Envelope>, p: nat): seq<(M, Host)> {
    if es == [] then []
    else
      var n := |es| - 1;
      var v := Judge(reg, es[n]);
      MeantFor(reg, from, es[..n], p) + (if v.Dispatched? && v.protocol == p then [(v.message, from)] else [])
  }

  lemma {:induction false} EachGetsItsOwn<M>(reg: Registry<M>, boxes: Mailboxes<M>, from: Host,
                                             es: seq<Envelope>, p: nat)
    ensures Box(Posted(reg, boxes, from, es), p) == Box(boxes, p) + MeantFor(reg, from, es, p)
    decreases |es|
  {
    if es == [] {
    } else {
      EachGetsItsOwn(reg, boxes, from, es[..|es| - 1], p);
    }
  }

  /** The way from the stream to the mailboxes, for the messages of one connection. */
  function Arrived<M>(reg: Registry<M>, boxes: Mailboxes<M>, s: Session.Layer, from: Host, chunks: seq<seq<byte>>)
    : Mailboxes<M>
  {
    var inbox := Accepted(s, from, Framing.Feed([], chunks).delivered).inbox;
    Processed(reg, boxes, inbox[if |s.inbox| <= |inbox| then |s.inbox| else |inbox|..])
  }

  /** Full-stack round trip, receiving side: take any legal frames, handshake frames anywhere
      among them, whose application bodies are the given envelopes. However the stream is cut,
      every protocol receives exactly those envelopes that are its own and decode, decoded,
      in order and labelled with the connection, behind what it had, and nothing is left over. */
  lemma FullStackRoundTrip<M>(reg: Registry<M>, boxes: Mailboxes<M>, s: Session.Layer, from: Host,
                              frames: seq<seq<byte>>, es: seq<Envelope>, chunks: seq<seq<byte>>, p: nat)
    requires Framing.Legal(frames) && Framing.Concat(chunks) == Framing.FrameAll(frames)
    requires AppBodies(frames) == Bodies(es) && forall k :: 0 <= k < |es| ==> Encodable(es[k])
    ensures Framing.Feed([], chunks) == Framing.Intake(frames, [], false)
    ensures Accepted(s, from, frames).inbox == s.inbox + Messages(from, Bodies(es))
    ensures Box(Arrived(reg, boxes, s, from, chunks), p) == Box(boxes, p) + MeantFor(reg, from, es, p)
  {
    Framing.LegalStreamsArrive(frames, chunks);
    FramesReachTheInbox(s, from, frames);
    assert (s.inbox + Messages(from, Bodies(es)))[|s.inbox|..] == Messages(from, Bodies(es));
    MessagesArePosted(reg, boxes, from, es);
    EachGetsItsOwn(reg, boxes, from, es, p);
  }

  // --- the sending side -----------------------------------------------------------------------------

  /** The frames a layer has written to transport host `t`. */
  function FramesTo(commands: seq<Session.Command>, t: Host): seq<seq<byte>> {
    if commands == [] then []
    else
      var c := commands[|commands| - 1];
      FramesTo(commands[..|commands| - 1], t) + (if c.Transmit? && c.to == t then [c.frame] else [])
  }

  /** The application bodies that went to transport host `t`, each resolved when it was sent. */
  function SentTo(self: Host, inputs: seq<Session.Input>, t: Host): seq<seq<byte>> {
    if inputs == [] then []
    else
      var n := |inputs| - 1;
      SentTo(self, inputs[..n], t) + BodyTo(Session.Run(self, inputs[..n]), inputs[n], t)
  }

  function BodyTo(s: Session.Layer, i: Session.Input, t: Host): seq<seq<byte>> {
    if i.Send? && Session.ResolveUnderlying(s, i.host) == t then [i.body] else []
  }

  /** A command that puts no application frame on the wire, and no oversized one. */
  ghost predicate Control(c: Session.Command) {
    c.Transmit? ==> 0 < |c.frame| <= Framing.MAX_FRAME_SIZE && c.frame[0] == Handshake.SESSION
  }

  ghost predicate AddsControl(s: Session.Layer, s': Session.Layer) {
    exists c :: Session.Grows(s.commands, s'.commands, c) && (c.Some? ==> Control(c.value))
  }

  lemma HandshakeAddsControl(s: Session.Layer, t: Host, p: Handshake.Payload)
    ensures AddsControl(s, Session.OnHandshake(s, t, p))
  {
    Session.AdoptFrame(s, t);
    var s1, s' := Session.Adopt(s, t), Session.OnHandshake(s, t, p);
    var c := if p.VersionMismatch? then Some(Session.Hangup(t))
             else if p.Hello? && s1.sessions[t].status == Session.HandshakingServer
             then Some(Session.Transmit(t, Handshake.AckFrame()))
             else None;
    assert Session.Grows(s.commands, s'.commands, c);
  }

  lemma ConnectedAddsControl(s: Session.Layer, t: Host)
    ensures AddsControl(s, Session.OnConnected(s, t))
  {
    Session.AdoptFrame(s, t);
    var s1, s' := Session.Adopt(s, t), Session.OnConnected(s, t);
    var hello := Handshake.EncodeHello(s.self);
    var c := if s1.sessions[t].status == Session.HandshakingClient && hello.Some?
             then Some(Session.Transmit(t, Handshake.Serialize(Handshake.SESSION, hello.value)))
             else None;
    assert Session.Grows(s.commands, s'.commands, c);
  }

  lemma LocalAddsControl(s: Session.Layer, i: Session.Input)
    requires i.Connect? || i.Disconnect?
    ensures AddsControl(s, Session.Step(s, i))
  {
    var s' := Session.Step(s, i);
    var c := if i.Disconnect? then Some(Session.Hangup(i.host))
             else if s'.commands == s.commands then None else Some(Session.Dial(i.host));
    assert Session.Grows(s.commands, s'.commands, c);
  }

  lemma EndAddsControl(s: Session.Layer, i: Session.Input)
    requires i.TransportDisconnected? || i.TransportFailed?
    ensures AddsControl(s, Session.Step(s, i))
  {
    assert Session.Grows(s.commands, Session.Step(s, i).commands, None);
  }

  lemma ReceiveAddsControl(s: Session.Layer, t: Host, frame: seq<byte>)
    ensures AddsControl(s, Session.OnReceive(s, t, frame))
  {
    var (layer, body) := Handshake.Deserialize(frame);
    if layer == Handshake.SESSION {
      HandshakeAddsControl(s, t, Handshake.ParsePayload(body));
    } else {
      assert Session.Grows(s.commands, Session.OnReceive(s, t, frame).commands, None);
    }
  }

  /** Only Send puts application frames on the wire. */
  lemma OthersAddControl(s: Session.Layer, i: Session.Input)
    requires !i.Send?
    ensures AddsControl(s, Session.Step(s, i))
  {
    match i
    case Connect(_) => LocalAddsControl(s, i);
    case Disconnect(_) => LocalAddsControl(s, i);
    case TransportConnected(t) => ConnectedAddsControl(s, t);
    case TransportDisconnected(_) => EndAddsControl(s, i);
    case TransportFailed(_) => EndAddsControl(s, i);
    case Receive(t, frame) => ReceiveAddsControl(s, t, frame);
  }

  lemma FramesSnoc(commands: seq<Session.Command>, c: Session.Command, t: Host)
    ensures FramesTo(commands + [c], t)
         == FramesTo(commands, t) + if c.Transmit? && c.to == t then [c.frame] else []
  {
    assert (commands + [c])[..|commands|] == commands;
  }

  lemma BodiesSnoc(frames: seq<seq<byte>>, frame: seq<byte>)
    ensures var (layer, body) := Handshake.Deserialize(frame);
            AppBodies(frames + [frame]) == AppBodies(frames) + if layer == Handshake.APPLICATION then [body] else []
  {
    assert (frames + [frame])[..|frames|] == frames;
  }

  /** What is on the wire to `t` carries the bodies sent to it, and every frame is legal. */
  ghost predicate Carries(commands: seq<Session.Command>, t: Host, bodies: seq<seq<byte>>) {
    && AppBodies(FramesTo(commands, t)) == bodies
    && ((forall k :: 0 <= k < |bodies| ==> |bodies[k]| < Framing.MAX_FRAME_SIZE) ==>
          Framing.Legal(FramesTo(commands, t)))
  }

  lemma ControlCarries(commands: seq<Session.Command>, c: Session.Command, t: Host, bodies: seq<seq<byte>>)
    requires Carries(commands, t, bodies) && Control(c)
    ensures Carries(commands + [c], t, bodies)
  {
    FramesSnoc(commands, c, t);
    if c.Transmit? && c.to == t {
      BodiesSnoc(FramesTo(commands, t), c.frame);
      assert bodies + [] == bodies;
    } else {
      assert FramesTo(commands, t) + [] == FramesTo(commands, t);
    }
  }

  lemma SendCarries(commands: seq<Session.Command>, to: Host, body: seq<byte>, t: Host, bodies: seq<seq<byte>>)
    requires Carries(commands, t, bodies)
    ensures Carries(commands + [Session.Transmit(to, Handshake.Serialize(Handshake.APPLICATION, body))], t,
                    bodies + if to == t then [body] else [])
  {
    var frame := Handshake.Serialize(Handshake.APPLICATION, body);
    FramesSnoc(commands, Session.Transmit(to, frame), t);
    Handshake.LayerRoundTrip(Handshake.APPLICATION, body);
    if to == t {
      BodiesSnoc(FramesTo(commands, t), frame);
      var more := bodies + [body];
      if forall k :: 0 <= k < |more| ==> |more[k]| < Framing.MAX_FRAME_SIZE {
        assert forall k :: 0 <= k < |bodies| ==> bodies[k] == more[k];
        assert more[|bodies|] == body;
      }
    } else {
      assert FramesTo(commands, t) + [] == FramesTo(commands, t) && bodies + [] == bodies;
    }
  }

  lemma StepSends(s: Session.Layer, i: Session.Input, t: Host, bodies: seq<seq<byte>>)
    requires Carries(s.commands, t, bodies)
    ensures Carries(Session.Step(s, i).commands, t, bodies + BodyTo(s, i, t))
  {
    if i.Send? {
      SendCarries(s.commands, Session.ResolveUnderlying(s, i.host), i.body, t, bodies);
    } else {
      OthersAddControl(s, i);
      var c :| Session.Grows(s.commands, Session.Step(s, i).commands, c) && (c.Some? ==> Control(c.value));
      assert bodies + [] == bodies;
      if c.Some? { ControlCarries(s.commands, c.value, t, bodies); }
    }
  }

  /** Over every run of a sending layer, whatever it dials, accepts and loses: the frames it has
      written to a transport host are its handshake frames and, in order, exactly the bodies
      of the messages that resolved to that host. */
  lemma {:induction false} SenderCarries(self: Host, inputs: seq<Session.Input>, t: Host)
    ensures Carries(Session.Run(self, inputs).commands, t, SentTo(self, inputs, t))
    decreases |inputs|
  {
    if inputs == [] {
    } else {
      var n := |inputs| - 1;
      SenderCarries(self, inputs[..n], t);
      StepSends(Session.Run(self, inputs[..n]), inputs[n], t, SentTo(self, inputs[..n], t));
    }
  }

  ghost predicate Fits(e: Envelope) {
    Encodable(e) && |e.payload| + 9 <= Framing.MAX_FRAME_SIZE
  }

  /** From Send to mailbox: a layer runs in any way, and what it wrote to transport host `t`,
      Hellos and Acks included, crosses one connection, cut anyhow, to another layer in any
      state. Every protocol there receives exactly its own of the envelopes sent, in order. */
  lemma SendToMailbox<M>(reg: Registry<M>, boxes: Mailboxes<M>, self: Host, inputs: seq<Session.Input>, t: Host,
                         s: Session.Layer, from: Host, es: seq<Envelope>, chunks: seq<seq<byte>>, p: nat)
    requires SentTo(self, inputs, t) == Bodies(es) && forall k :: 0 <= k < |es| ==> Fits(es[k])
    requires Framing.Concat(chunks) == Framing.FrameAll(FramesTo(Session.Run(self, inputs).commands, t))
    ensures !Framing.Feed([], chunks).failed && Framing.Feed([], chunks).buffer == []
    ensures Box(Arrived(reg, boxes, s, from, chunks), p) == Box(boxes, p) + MeantFor(reg, from, es, p)
  {
    var frames := FramesTo(Session.Run(self, inputs).commands, t);
    SenderCarries(self, inputs, t);
    forall k | 0 <= k < |es| ensures |Bodies(es)[k]| < Framing.MAX_FRAME_SIZE {
      assert Fits(es[k]);
    }
    FullStackRoundTrip(reg, boxes, s, from, frames, es, chunks, p);
  }

  /** What the receiver is handed when a message is framed and sent on a fresh connection. */
  function Crossing(e: Envelope): seq<seq<byte>> {
    match Framing.EncodeFrame(OnWire(e))
    case None => []
    case Some(frame) => Framing.Feed([], [frame]).delivered
  }

  /** The transport's limit seen from the top: a single message crosses exactly when its
      payload leaves room for the nine bytes of header and layer. */
  lemma PayloadLimit(e: Envelope)
    ensures Crossing(e) == [OnWire(e)] <==> |e.payload| + 9 <= Framing.MAX_FRAME_SIZE
  {
    if Framing.EncodeFrame(OnWire(e)).Some? {
      Framing.OversizedFramesAreRefused(OnWire(e));
      if |e.payload| + 9 > Framing.MAX_FRAME_SIZE {
        RefusedFrameIsLost(OnWire(e));
      }
    }
  }

  lemma RefusedFrameIsLost(payload: seq<byte>)
    requires Framing.MAX_FRAME_SIZE < |payload| <= 0xFFFF_FFFF
    ensures Framing.Feed([], [Framing.Frame(payload)]).delivered == []
  {
    var s := Framing.Frame(payload);
    Powers();
    BigEndianRoundTrip(|payload|, 4);
    assert s[..4] == BigEndian(|payload|, 4);
    assert [] + s == s;
  }

  /** Gossip messages as the gossip protocol sends them. */
  function Gossiped(wireId: nat, ms: seq<GossipCodec.Message>): seq<Envelope> {
    seq(|ms|, k requires 0 <= k < |ms| => Envelope(wireId, GossipCodec.OnWire(ms[k])))
  }

  function Labelled<M>(from: Host, ms: seq<M>): seq<(M, Host)> {
    seq(|ms|, k requires 0 <= k < |ms| => (ms[k], from))
  }

  /** Protocol `p` has registered the gossip codec under `wireId`. */
  ghost predicate Gossips(reg: Registry<GossipCodec.Message>, p: nat, wireId: nat) {
    && wireId in reg.owners && reg.owners[wireId] == p && (p, wireId) in reg.codecs
    && forall b :: reg.codecs[(p, wireId)](b) == GossipCodec.Parse(b)
  }

  lemma {:induction false} AllAreMeant<M>(reg: Registry<M>, from: Host, es: seq<Envelope>, ms: seq<M>, p: nat)
    requires |es| == |ms| && forall k :: 0 <= k < |es| ==> Judge(reg, es[k]) == Dispatched(p, ms[k])
    ensures MeantFor(reg, from, es, p) == Labelled(from, ms)
    decreases |es|
  {
    if es == [] {
    } else {
      var n := |es| - 1;
      AllAreMeant(reg, from, es[..n], ms[..n], p);
      assert Labelled(from, ms) == Labelled(from, ms[..n]) + [(ms[n], from)];
    }
  }

  lemma GossipIsJudged(reg: Registry<GossipCodec.Message>, p: nat, wireId: nat, m: GossipCodec.Message)
    requires Gossips(reg, p, wireId) && m.id < 0x1_0000_0000_0000_0000 && |m.payload| < 0x1_0000_0000
    ensures Judge(reg, Envelope(wireId, GossipCodec.OnWire(m))) == Dispatched(p, m)
  {
    GossipCodec.MessageRoundTrip(m);
  }

  /** Gossip messages survive marshalling, the whole stack and unmarshalling, in order. */
  lemma GossipRoundTrip(reg: Registry<GossipCodec.Message>, boxes: Mailboxes<GossipCodec.Message>,
                        self: Host, inputs: seq<Session.Input>, t: Host, s: Session.Layer, from: Host,
                        p: nat, wireId: nat, ms: seq<GossipCodec.Message>, chunks: seq<seq<byte>>)
    requires Gossips(reg, p, wireId) && wireId < 0x1_0000_0000_0000_0000
    requires forall k :: 0 <= k < |ms| ==>
               ms[k].id < 0x1_0000_0000_0000_0000 && |ms[k].payload| + 21 <= Framing.MAX_FRAME_SIZE
    requires SentTo(self, inputs, t) == Bodies(Gossiped(wireId, ms))
    requires Framing.Concat(chunks) == Framing.FrameAll(FramesTo(Session.Run(self, inputs).commands, t))
    ensures Box(Arrived(reg, boxes, s, from, chunks), p) == Box(boxes, p) + Labelled(from, ms)
  {
    var es := Gossiped(wireId, ms);
    SendToMailbox(reg, boxes, self, inputs, t, s, from, es, chunks, p);
    forall k | 0 <= k < |ms| ensures Judge(reg, es[k]) == Dispatched(p, ms[k]) {
      GossipIsJudged(reg, p, wireId, ms[k]);
    }
    AllAreMeant(reg, from, es, ms, p);
  }
}
