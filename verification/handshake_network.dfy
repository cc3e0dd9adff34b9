/** Any number of session layers joined by FIFO connections. The transport is an adversary
    within the limits of TCP: it may open connections between any two nodes under any keys,
    close them, report any connection event at any time and leave messages unread, but it
    delivers on a connection only what the other end wrote to it, in order. */
module HandshakeNetwork {
  import opened Bytes
  import opened Hosts
  import opened Handshake
  import opened Session

  /** One end of a connection: a node and the transport host it knows the connection by. */
  datatype End = End(node: nat, key: Host)

  /** One direction of a connection: what was written, and how much of it was read. */
  datatype Pipe = Pipe(src: End, dst: End, sent: seq<seq<byte>>, read: nat)

  /** `flushed` counts the commands each node's transport has carried out; `active` is its
      connection table. */
  datatype Net = Net(nodes: seq<Layer>, flushed: seq<nat>, pipes: seq<Pipe>, active: map<End, nat>)

  datatype NetStep =
    | Local(node: nat, input: Input)
    | Open(x: End, y: End)
    | Close(x: End)
    | Flush(node: nat)
    | Read(pipe: nat)

  function Start(selves: seq<Host>): Net {
    Net(seq(|selves|, n requires 0 <= n < |selves| => Fresh(selves[n])), seq(|selves|, _ => 0), [], map[])
  }

  predicate Enabled(net: Net, step: NetStep) {
    match step
    case Local(n, i) => n < |net.nodes| && !i.Receive?
    case Open(x, y) => x.node < |net.nodes| && y.node < |net.nodes|
    case Close(_) => true
    case Flush(n) =>
      n < |net.nodes| && n < |net.flushed| && net.flushed[n] < |net.nodes[n].commands|
    case Read(p) =>
      && p < |net.pipes| && net.pipes[p].read < |net.pipes[p].sent|
      && net.pipes[p].dst.node < |net.nodes|
  }

  /** One step; a step that is not enabled changes nothing. */
  function Next(net: Net, step: NetStep): Net {
    if !Enabled(net, step) then net else
    match step
    case Local(n, i) => net.(nodes := net.nodes[n := Session.Step(net.nodes[n], i)])
    case Open(x, y) =>
      var k := |net.pipes|;
      net.(pipes := net.pipes + [Pipe(x, y, [], 0), Pipe(y, x, [], 0)],
           active := net.active[x := k][y := k + 1])
    case Close(x) => net.(active := net.active - {x})
    case Flush(n) =>
      var c := net.nodes[n].commands[net.flushed[n]];
      var net1 := net.(flushed := net.flushed[n := net.flushed[n] + 1]);
      if c.Transmit? && End(n, c.to) in net.active && net.active[End(n, c.to)] < |net.pipes|
      then
        var k := net.active[End(n, c.to)];
        net1.(pipes := net.pipes[k := net.pipes[k].(sent := net.pipes[k].sent + [c.frame])])
      else net1
    case Read(p) =>
      var pipe := net.pipes[p];
      var m := pipe.dst.node;
      net.(pipes := net.pipes[p := pipe.(read := pipe.read + 1)],
           nodes := net.nodes[m := Session.Step(net.nodes[m], Receive(pipe.dst.key, pipe.sent[pipe.read]))])
  }

  function NetRun(selves: seq<Host>, steps: seq<NetStep>): Net {
    if steps == [] then Start(selves)
    else Next(NetRun(selves, steps[..|steps| - 1]), steps[|steps| - 1])
  }

  // --- what a layer may put on the wire ----------------------------------------------------------

  function HelloFrame(self: Host): Option<seq<byte>> {
    match EncodeHello(self)
    case Some(b) => Some(Serialize(SESSION, b))
    case None => None
  }

  /** Application traffic, an Ack, or this node's own Hello. */
  ghost predicate Honest(self: Host, frame: seq<byte>) {
    |frame| > 0 && (frame[0] == APPLICATION || frame == AckFrame() || HelloFrame(self) == Some(frame))
  }

  ghost predicate HonestLayer(s: Layer) {
    forall k :: 0 <= k < |s.commands| && s.commands[k].Transmit? ==> Honest(s.self, s.commands[k].frame)
  }

  /** `s'` only adds honest commands. */
  ghost predicate AddsHonest(s: Layer, s': Layer) {
    HonestLayer(s') && s'.self == s.self && s.commands <= s'.commands
  }

  lemma ConnectedIsHonest(s: Layer, t: Host)
    requires HonestLayer(s)
    ensures AddsHonest(s, OnConnected(s, t))
  {
  }

  lemma HandshakeIsHonest(s: Layer, t: Host, p: Payload)
    requires HonestLayer(s)
    ensures AddsHonest(s, OnHandshake(s, t, p))
  {
    AdoptFrame(s, t);
    assert HonestLayer(Adopt(s, t));
  }

  lemma ReceiveIsHonest(s: Layer, t: Host, frame: seq<byte>)
    requires HonestLayer(s)
    ensures AddsHonest(s, OnReceive(s, t, frame))
  {
    var (layer, body) := Deserialize(frame);
    if layer == SESSION { HandshakeIsHonest(s, t, ParsePayload(body)); }
  }

  lemma LocalIsHonest(s: Layer, i: Input)
    requires HonestLayer(s) && (i.Connect? || i.Disconnect? || i.Send?)
    ensures AddsHonest(s, Session.Step(s, i))
  {
  }

  lemma EndIsHonest(s: Layer, i: Input)
    requires HonestLayer(s) && (i.TransportDisconnected? || i.TransportFailed?)
    ensures AddsHonest(s, Session.Step(s, i))
  {
  }

  lemma StepIsHonest(s: Layer, i: Input)
    requires HonestLayer(s)
    ensures AddsHonest(s, Session.Step(s, i))
  {
    match i
    case TransportConnected(t) => ConnectedIsHonest(s, t);
    case TransportDisconnected(t) => EndIsHonest(s, i);
    case TransportFailed(t) => EndIsHonest(s, i);
    case Receive(t, frame) => ReceiveIsHonest(s, t, frame);
    case _ => LocalIsHonest(s, i);
  }

  /** `s'` has completed no server handshake that `s` had not. */
  ghost predicate AcceptsNothing(s: Layer, s': Layer) {
    forall e :: e in s'.log && IsAccept(e) ==> e in s.log
  }

  lemma HandshakeAccepts(s: Layer, t: Host, p: Payload, e: Entry)
    requires e in OnHandshake(s, t, p).log && IsAccept(e) && e !in s.log
    ensures p == Hello(e.host) && t == e.session
  {
  }

  lemma LocalAcceptsNothing(s: Layer, i: Input)
    requires !i.Receive?
    ensures AcceptsNothing(s, Session.Step(s, i))
  {
    match i
    case Connect(h) => assert AcceptsNothing(s, ConnectClient(s, h));
    case Disconnect(h) => assert AcceptsNothing(s, DisconnectHost(s, h));
    case Send(body, h) => assert AcceptsNothing(s, SendTo(s, body, h));
    case TransportConnected(t) => assert AcceptsNothing(s, OnConnected(s, t));
    case TransportDisconnected(t) => assert AcceptsNothing(s, OnDisconnected(s, t));
    case TransportFailed(t) => assert AcceptsNothing(s, OnFailed(s, t));
  }

  /** Only a Hello read from the transport completes a server handshake, and it names the peer. */
  lemma OnlyHelloIsAccepted(s: Layer, t: Host, frame: seq<byte>, e: Entry)
    requires e in OnReceive(s, t, frame).log && IsAccept(e) && e !in s.log
    ensures t == e.session
    ensures Deserialize(frame).0 == SESSION && ParsePayload(Deserialize(frame).1) == Hello(e.host)
  {
    var (layer, body) := Deserialize(frame);
    HandshakeAccepts(s, t, ParsePayload(body), e);
  }

  /** An honest frame that parses as a Hello is the sender's own Hello. */
  lemma HonestHello(self: Host, frame: seq<byte>, peer: Host)
    requires Honest(self, frame)
    requires Deserialize(frame).0 == SESSION && ParsePayload(Deserialize(frame).1) == Hello(peer)
    ensures HelloFrame(self) == Some(frame) && peer == Announced(self)
  {
    PayloadRoundTrip(self);
    if frame == AckFrame() {
      LayerRoundTrip(SESSION, EncodeAck());
    } else {
      LayerRoundTrip(SESSION, EncodeHello(self).value);
    }
  }

  // --- agreement -------------------------------------------------------------------------------------

  ghost predicate Wired(selves: seq<Host>, net: Net) {
    && |net.nodes| == |net.flushed| == |selves|
    && (forall n :: 0 <= n < |selves| ==> net.nodes[n].self == selves[n] && HonestLayer(net.nodes[n]))
    && (forall k :: 0 <= k < |net.pipes| ==> PipeInv(selves, net.pipes[k]))
    && (forall x :: x in net.active ==> net.active[x] < |net.pipes| && net.pipes[net.active[x]].src == x)
  }

  ghost predicate PipeInv(selves: seq<Host>, p: Pipe) {
    && p.src.node < |selves| && p.dst.node < |selves| && p.read <= |p.sent|
    && forall j :: 0 <= j < |p.sent| ==> Honest(selves[p.src.node], p.sent[j])
  }

  /** Pipe `p` ends at session `t` of node `m`, and its writer's Hello, which announces `peer`,
      was read from it. */
  ghost predicate Vouches(selves: seq<Host>, p: Pipe, m: nat, t: Host, peer: Host) {
    && p.dst == End(m, t) && p.src.node < |selves| && p.read <= |p.sent|
    && HelloFrame(selves[p.src.node]).Some?
    && HelloFrame(selves[p.src.node]).value in p.sent[..p.read]
    && peer == Announced(selves[p.src.node])
  }

  ghost predicate Vouched(selves: seq<Host>, net: Net, m: nat, e: Entry)
    requires e.Up?
  {
    exists k :: 0 <= k < |net.pipes| && Vouches(selves, net.pipes[k], m, e.session, e.host)
  }

  ghost predicate Agreed(selves: seq<Host>, net: Net) {
    forall m, e :: 0 <= m < |net.nodes| && e in net.nodes[m].log && IsAccept(e) ==> Vouched(selves, net, m, e)
  }

  /** Pipes only grow, so what they vouch for stays vouched for. */
  ghost predicate PipesGrow(net: Net, net': Net) {
    && |net.pipes| <= |net'.pipes|
    && forall k :: 0 <= k < |net.pipes| ==> PipeGrows(net.pipes[k], net'.pipes[k])
  }

  ghost predicate PipeGrows(p: Pipe, q: Pipe) {
    && q.src == p.src && q.dst == p.dst
    && p.sent <= q.sent && p.read <= q.read <= |q.sent|
  }

  lemma VouchedStays(selves: seq<Host>, net: Net, net': Net, m: nat, e: Entry)
    requires e.Up? && PipesGrow(net, net') && Vouched(selves, net, m, e)
    ensures Vouched(selves, net', m, e)
  {
    var k :| 0 <= k < |net.pipes| && Vouches(selves, net.pipes[k], m, e.session, e.host);
    var p, q := net.pipes[k], net'.pipes[k];
    assert PipeGrows(p, q);
    var hello := HelloFrame(selves[p.src.node]).value;
    var j :| 0 <= j < p.read && p.sent[..p.read][j] == hello;
    assert q.sent[..q.read][j] == hello;
    assert Vouches(selves, q, m, e.session, e.host);
  }

  /** Writing an honest frame to a pipe. */
  lemma SendIsWired(selves: seq<Host>, p: Pipe, frame: seq<byte>)
    requires PipeInv(selves, p) && Honest(selves[p.src.node], frame)
    ensures PipeInv(selves, p.(sent := p.sent + [frame])) && PipeGrows(p, p.(sent := p.sent + [frame]))
  {
  }

  lemma WriteIsWired(selves: seq<Host>, net: Net, k: nat, frame: seq<byte>)
    requires Wired(selves, net) && k < |net.pipes| && Honest(selves[net.pipes[k].src.node], frame)
    ensures var net' := net.(pipes := net.pipes[k := net.pipes[k].(sent := net.pipes[k].sent + [frame])]);
            Wired(selves, net') && PipesGrow(net, net')
  {
    SendIsWired(selves, net.pipes[k], frame);
  }

  lemma FlushIsWired(selves: seq<Host>, net: Net, n: nat)
    requires Wired(selves, net) && Enabled(net, Flush(n))
    ensures Wired(selves, Next(net, Flush(n))) && PipesGrow(net, Next(net, Flush(n)))
  {
    assert HonestLayer(net.nodes[n]);
    var c := net.nodes[n].commands[net.flushed[n]];
    if c.Transmit? && End(n, c.to) in net.active {
      WriteIsWired(selves, net, net.active[End(n, c.to)], c.frame);
    }
  }

  lemma ReadIsWired(selves: seq<Host>, net: Net, p: nat)
    requires Wired(selves, net) && Enabled(net, Read(p))
    ensures Wired(selves, Next(net, Read(p))) && PipesGrow(net, Next(net, Read(p)))
  {
    var pipe := net.pipes[p];
    assert PipeInv(selves, pipe);
    ReceiveIsHonest(net.nodes[pipe.dst.node], pipe.dst.key, pipe.sent[pipe.read]);
  }

  lemma OpenIsWired(selves: seq<Host>, net: Net, x: End, y: End)
    requires Wired(selves, net) && Enabled(net, Open(x, y))
    ensures Wired(selves, Next(net, Open(x, y))) && PipesGrow(net, Next(net, Open(x, y)))
  {
  }

  lemma NextIsWired(selves: seq<Host>, net: Net, step: NetStep)
    requires Wired(selves, net) && Enabled(net, step)
    ensures Wired(selves, Next(net, step)) && PipesGrow(net, Next(net, step))
  {
    match step
    case Local(n, i) => StepIsHonest(net.nodes[n], i);
    case Open(x, y) => OpenIsWired(selves, net, x, y);
    case Close(x) =>
    case Flush(n) => FlushIsWired(selves, net, n);
    case Read(p) => ReadIsWired(selves, net, p);
  }

  /** An accepted session that is new after reading from pipe `p` is vouched for by that pipe. */
  /** Reading moves the reader only. */
  lemma ReadMoves(net: Net, p: nat, m: nat)
    requires Enabled(net, Read(p)) && m < |net.nodes|
    ensures var pipe := net.pipes[p];
            && Next(net, Read(p)).pipes == net.pipes[p := pipe.(read := pipe.read + 1)]
            && Next(net, Read(p)).nodes[m]
               == if m == pipe.dst.node then OnReceive(net.nodes[m], pipe.dst.key, pipe.sent[pipe.read])
                  else net.nodes[m]
  {
  }

  lemma ReadVouches(selves: seq<Host>, net: Net, p: nat, m: nat, e: Entry)
    requires Wired(selves, net) && Enabled(net, Read(p)) && m < |net.nodes|
    requires e in Next(net, Read(p)).nodes[m].log && e !in net.nodes[m].log && IsAccept(e)
    ensures Vouched(selves, Next(net, Read(p)), m, e)
  {
    var pipe := net.pipes[p];
    ReadMoves(net, p, m);
    assert PipeInv(selves, pipe);
    OnlyHelloIsAccepted(net.nodes[m], pipe.dst.key, pipe.sent[pipe.read], e);
    ReadPipeVouches(selves, pipe, m, e.session, e.host);
    assert Next(net, Read(p)).pipes[p] == pipe.(read := pipe.read + 1);
  }

  lemma ReadPipeVouches(selves: seq<Host>, pipe: Pipe, m: nat, t: Host, peer: Host)
    requires PipeInv(selves, pipe) && pipe.dst == End(m, t) && pipe.read < |pipe.sent|
    requires var frame := pipe.sent[pipe.read];
             Deserialize(frame).0 == SESSION && ParsePayload(Deserialize(frame).1) == Hello(peer)
    ensures Vouches(selves, pipe.(read := pipe.read + 1), m, t, peer)
  {
    var frame := pipe.sent[pipe.read];
    HonestHello(selves[pipe.src.node], frame, peer);
    assert pipe.sent[..pipe.read + 1][pipe.read] == frame;
  }

  lemma NextAgrees(selves: seq<Host>, net: Net, step: NetStep)
    requires Wired(selves, net) && Agreed(selves, net) && Enabled(net, step)
    ensures Agreed(selves, Next(net, step))
  {
    var net' := Next(net, step);
    NextIsWired(selves, net, step);
    forall m, e | 0 <= m < |net'.nodes| && e in net'.nodes[m].log && IsAccept(e)
      ensures Vouched(selves, net', m, e)
    {
      if e in net.nodes[m].log {
        VouchedStays(selves, net, net', m, e);
      } else if step.Local? {
        LocalAcceptsNothing(net.nodes[m], step.input);
      } else if step.Read? {
        ReadVouches(selves, net, step.pipe, m, e);
      }
    }
  }

  lemma {:induction false} RunAgrees(selves: seq<Host>, steps: seq<NetStep>)
    ensures Wired(selves, NetRun(selves, steps)) && Agreed(selves, NetRun(selves, steps))
    decreases |steps|
  {
    if steps == [] {
    } else {
      var before, step := steps[..|steps| - 1], steps[|steps| - 1];
      RunAgrees(selves, before);
      if Enabled(NetRun(selves, before), step) {
        NextIsWired(selves, NetRun(selves, before), step);
        NextAgrees(selves, NetRun(selves, before), step);
      }
    }
  }

  /** Handshake agreement: whenever a node has reported an accepted session as connected to a
      peer, some node had already written its Hello to that very connection, and the peer is
      that node as far as 16 bits of port can tell. */
  lemma HandshakeAgreement(selves: seq<Host>, steps: seq<NetStep>, m: nat, e: Entry)
    requires var net := NetRun(selves, steps); m < |net.nodes| && e in net.nodes[m].log && IsAccept(e)
    ensures Vouched(selves, NetRun(selves, steps), m, e)
    ensures (forall n :: 0 <= n < |selves| ==> 0 <= selves[n].port < 0x1_0000) ==> e.host in selves
  {
    RunAgrees(selves, steps);
    VouchedIsNode(selves, NetRun(selves, steps), m, e);
  }

  lemma VouchedIsNode(selves: seq<Host>, net: Net, m: nat, e: Entry)
    requires e.Up? && Vouched(selves, net, m, e)
    ensures (forall n :: 0 <= n < |selves| ==> 0 <= selves[n].port < 0x1_0000) ==> e.host in selves
  {
    var k :| 0 <= k < |net.pipes| && Vouches(selves, net.pipes[k], m, e.session, e.host);
    if forall n :: 0 <= n < |selves| ==> 0 <= selves[n].port < 0x1_0000 {
      var self := selves[net.pipes[k].src.node];
      assert Announced(self) == self;
    }
  }

  // --- each connection is accepted once ----------------------------------------------------------

  ghost predicate LayersInv(net: Net) {
    forall n :: 0 <= n < |net.nodes| ==> Session.Inv(net.nodes[n])
  }

  lemma NextKeepsLayers(net: Net, step: NetStep)
    requires LayersInv(net) && Enabled(net, step)
    ensures LayersInv(Next(net, step))
  {
    match step
    case Local(n, i) => StepKeeps(net.nodes[n], i);
    case Read(p) =>
      var pipe := net.pipes[p];
      StepKeeps(net.nodes[pipe.dst.node], Receive(pipe.dst.key, pipe.sent[pipe.read]));
    case _ =>
  }

  lemma {:induction false} RunKeepsLayers(selves: seq<Host>, steps: seq<NetStep>)
    ensures LayersInv(NetRun(selves, steps))
    decreases |steps|
  {
    if steps == [] {
      forall n | 0 <= n < |selves| ensures Session.Inv(Fresh(selves[n])) { RunKeeps(selves[n], []); }
    } else {
      var net, step := NetRun(selves, steps[..|steps| - 1]), steps[|steps| - 1];
      RunKeepsLayers(selves, steps[..|steps| - 1]);
      if Enabled(net, step) { NextKeepsLayers(net, step); }
    }
  }

  /** Over every run of the network, a node completes the server handshake with a transport
      host, and so sends it an Ack, at most once, however often that host connects. */
  lemma HandshakeOncePerHost(selves: seq<Host>, steps: seq<NetStep>, m: nat, t: Host)
    requires m < |NetRun(selves, steps).nodes|
    ensures var s := NetRun(selves, steps).nodes[m]; Acks(s.commands, t) == Accepted(s.log, t) <= 1
  {
    RunKeepsLayers(selves, steps);
    assert LocalInv(At(NetRun(selves, steps).nodes[m], t));
  }

  // --- a handshake that completes ----------------------------------------------------------------

  lemma NetSnoc(selves: seq<Host>, steps: seq<NetStep>, step: NetStep)
    ensures NetRun(selves, steps + [step]) == Next(NetRun(selves, steps), step)
  {
    assert (steps + [step])[..|steps|] == steps;
  }

  /** The dialler once its connection is up: it has dialled, said Hello and counts as connected. */
  lemma DiallerIsUp(self: Host, to: Host)
    requires HelloFrame(self).Some?
    ensures ConnectClient(Fresh(self), to).commands == [Dial(to)]
    ensures var s := Dialled(self, to);
            s.commands == [Dial(to), Transmit(to, HelloFrame(self).value)] && s.log == [Up(to, to, false)]
  {
  }

  /** The listener once it has read the Hello. */
  lemma ListenerIsUp(self: Host, key: Host, peer: Host)
    requires HelloFrame(peer).Some?
    ensures var s := OnReceive(Fresh(self), key, HelloFrame(peer).value);
            s.log == [Up(key, Announced(peer), true)] && s.commands == [Transmit(key, AckFrame())]
  {
    HelloIsHeard(Fresh(self), key, peer);
  }

  /** The network after node `a` has dialled `to`, which is node `b`, who knows the connection
      as `key`; `frames` are on the wire. */
  function Joined(selves: seq<Host>, a: nat, to: Host, b: nat, key: Host, dialler: Layer, flushed: nat,
                  frames: seq<seq<byte>>): Net
    requires a < |selves|
  {
    var start := Start(selves);
    Net(start.nodes[a := dialler], start.flushed[a := flushed],
        [Pipe(End(a, to), End(b, key), frames, 0), Pipe(End(b, key), End(a, to), [], 0)],
        map[End(a, to) := 0, End(b, key) := 1])
  }

  lemma OpenJoins(selves: seq<Host>, a: nat, to: Host, b: nat, key: Host) returns (steps: seq<NetStep>)
    requires a < |selves| && b < |selves| && a != b
    ensures NetRun(selves, steps) == Joined(selves, a, to, b, key, ConnectClient(Fresh(selves[a]), to), 0, [])
  {
    NetSnoc(selves, [], NetStep.Local(a, Connect(to)));
    steps := [] + [NetStep.Local(a, Connect(to))];
    NetSnoc(selves, steps, Open(End(a, to), End(b, key)));
    steps := steps + [Open(End(a, to), End(b, key))];
    assert Start(selves).flushed[a := 0] == Start(selves).flushed;
  }

  lemma LocalMoves(net: Net, a: nat, i: Input)
    requires a < |net.nodes| && !i.Receive?
    ensures Next(net, NetStep.Local(a, i)) == net.(nodes := net.nodes[a := Session.Step(net.nodes[a], i)])
  {
  }

  lemma ComesUp(selves: seq<Host>, steps: seq<NetStep>, a: nat, to: Host, b: nat, key: Host)
    requires a < |selves|
    requires NetRun(selves, steps) == Joined(selves, a, to, b, key, ConnectClient(Fresh(selves[a]), to), 0, [])
    ensures NetRun(selves, steps + [NetStep.Local(a, TransportConnected(to))])
         == Joined(selves, a, to, b, key, Dialled(selves[a], to), 0, [])
  {
    NetSnoc(selves, steps, NetStep.Local(a, TransportConnected(to)));
    LocalMoves(NetRun(selves, steps), a, TransportConnected(to));
  }

  lemma FlushCommand(net: Net, a: nat)
    requires Enabled(net, Flush(a)) && !net.nodes[a].commands[net.flushed[a]].Transmit?
    ensures Next(net, Flush(a)) == net.(flushed := net.flushed[a := net.flushed[a] + 1])
  {
  }

  lemma FlushFrame(net: Net, a: nat, k: nat, frame: seq<byte>)
    requires Enabled(net, Flush(a)) && net.nodes[a].commands[net.flushed[a]].Transmit?
    requires End(a, net.nodes[a].commands[net.flushed[a]].to) in net.active && k < |net.pipes|
    requires net.active[End(a, net.nodes[a].commands[net.flushed[a]].to)] == k
    requires frame == net.nodes[a].commands[net.flushed[a]].frame
    ensures Next(net, Flush(a))
         == net.(flushed := net.flushed[a := net.flushed[a] + 1],
                 pipes := net.pipes[k := net.pipes[k].(sent := net.pipes[k].sent + [frame])])
  {
  }

  lemma DialIsFlushed(selves: seq<Host>, a: nat, to: Host, b: nat, key: Host, s: Layer)
    requires a < |selves| && |s.commands| > 0 && !s.commands[0].Transmit?
    ensures Next(Joined(selves, a, to, b, key, s, 0, []), Flush(a)) == Joined(selves, a, to, b, key, s, 1, [])
  {
    FlushCommand(Joined(selves, a, to, b, key, s, 0, []), a);
  }

  lemma HelloIsFlushed(selves: seq<Host>, a: nat, to: Host, b: nat, key: Host, s: Layer, frame: seq<byte>)
    requires a < |selves| && a != b && |s.commands| > 1 && s.commands[1] == Transmit(to, frame)
    ensures Next(Joined(selves, a, to, b, key, s, 1, []), Flush(a)) == Joined(selves, a, to, b, key, s, 2, [frame])
  {
    var net := Joined(selves, a, to, b, key, s, 1, []);
    FlushFrame(net, a, 0, frame);
    assert [] + [frame] == [frame];
  }

  lemma HelloIsOnTheWire(selves: seq<Host>, a: nat, to: Host, b: nat, key: Host) returns (steps: seq<NetStep>)
    requires a < |selves| && b < |selves| && a != b && HelloFrame(selves[a]).Some?
    ensures NetRun(selves, steps)
         == Joined(selves, a, to, b, key, Dialled(selves[a], to), 2, [HelloFrame(selves[a]).value])
  {
    var s := Dialled(selves[a], to);
    DiallerIsUp(selves[a], to);
    steps := OpenJoins(selves, a, to, b, key);
    ComesUp(selves, steps, a, to, b, key);
    steps := steps + [NetStep.Local(a, TransportConnected(to))];
    DialIsFlushed(selves, a, to, b, key, s);
    NetSnoc(selves, steps, Flush(a));
    steps := steps + [Flush(a)];
    HelloIsFlushed(selves, a, to, b, key, s, HelloFrame(selves[a]).value);
    NetSnoc(selves, steps, Flush(a));
    steps := steps + [Flush(a)];
  }

  lemma HelloIsRead(selves: seq<Host>, a: nat, to: Host, b: nat, key: Host, s: Layer, frame: seq<byte>)
    requires a < |selves| && b < |selves| && a != b
    ensures var net := Next(Joined(selves, a, to, b, key, s, 2, [frame]), Read(0));
            && |net.nodes| == |selves| && net.nodes[a] == s
            && net.nodes[b] == OnReceive(Fresh(selves[b]), key, frame)
  {
    ReadMoves(Joined(selves, a, to, b, key, s, 2, [frame]), 0, a);
    ReadMoves(Joined(selves, a, to, b, key, s, 2, [frame]), 0, b);
  }

  /** Agreement is not empty: for any two nodes there is a run in which one dials the other and
      both report the session, the listener with the host the dialler announces, and the Ack
      is on its way. */
  lemma HandshakeCompletes(selves: seq<Host>, a: nat, to: Host, b: nat, key: Host) returns (steps: seq<NetStep>)
    requires a < |selves| && b < |selves| && a != b && HelloFrame(selves[a]).Some?
    ensures var net := NetRun(selves, steps);
            && |net.nodes| == |selves|
            && net.nodes[a].log == [Up(to, to, false)]
            && net.nodes[b].log == [Up(key, Announced(selves[a]), true)]
            && net.nodes[b].commands == [Transmit(key, AckFrame())]
  {
    DiallerIsUp(selves[a], to);
    ListenerIsUp(selves[b], key, selves[a]);
    steps := HelloIsOnTheWire(selves, a, to, b, key);
    HelloIsRead(selves, a, to, b, key, Dialled(selves[a], to), HelloFrame(selves[a]).value);
    NetSnoc(selves, steps, Read(0));
    steps := steps + [Read(0)];
  }

  /** Nothing is written to a connection that has been closed. */
  lemma ClosedIsSilent(net: Net, n: nat, key: Host)
    requires Enabled(net, Flush(n)) && net.nodes[n].commands[net.flushed[n]].Transmit?
    requires net.nodes[n].commands[net.flushed[n]].to == key
    ensures Next(Next(net, Close(End(n, key))), Flush(n)).pipes == net.pipes
  {
  }
}
