/** The reconnect engine end to end: the retry table and dispatcher of the runtime, the
    session layer underneath, the channels between them, and the goroutines that are on
    their way from one to the other. Steps interleave freely. */
module Reconnect {
  import opened Bytes
  import opened Hosts
  import opened Handshake
  import opened Session
  import opened Retry

  /** `consumed` is how far the runtime has worked through the layer's event log. `firing`
      holds timer callbacks that have started but not yet looked the host up, `connecting`
      the callers inside `connect`, `hangingUp` the callers inside `disconnect`. */
  datatype Sys = Sys(
    layer: Layer,
    table: Table,
    consumed: nat,
    firing: multiset<Host>,
    connecting: multiset<Host>,
    hangingUp: multiset<Host>,
    cancelled: bool)

  datatype SysStep =
    | CallConnectWithRetry(host: Host)
    | CallConnect(host: Host)
    | CallDisconnect(host: Host)
    | TakeConnect(host: Host)
    | TakeDisconnect(host: Host)
    | TransportActs(input: Input)
    | DispatchEvent
    | TimerFires(timer: nat)
    | CallbackRuns(host: Host)
    | Cancel
    | GiveUpConnecting(host: Host)
    | LoseEvent

  function Boot(self: Host, maxAttempts: int): Sys {
    Sys(Fresh(self), Empty(maxAttempts), 0, multiset{}, multiset{}, multiset{}, false)
  }

  /** Calls that are abandoned and events that are lost belong to shutdown only. */
  predicate Enabled(s: Sys, step: SysStep) {
    match step
    case TakeConnect(h) => h in s.connecting
    case TakeDisconnect(h) => h in s.hangingUp
    case TransportActs(i) => !i.Connect? && !i.Disconnect?
    case DispatchEvent => s.consumed < |s.layer.log|
    case TimerFires(id) => id in s.table.armed
    case CallbackRuns(h) => h in s.firing
    case GiveUpConnecting(h) => s.cancelled && h in s.connecting
    case LoseEvent => s.cancelled && s.consumed < |s.layer.log|
    case _ => true
  }

  /** `connect` and `disconnect` refuse once the runtime is cancelled. */
  function CallConnecting(s: Sys, h: Host): Sys {
    if s.cancelled then s else s.(connecting := s.connecting + multiset{h})
  }

  function CallHangup(s: Sys, h: Host): Sys {
    if s.cancelled then s else s.(hangingUp := s.hangingUp + multiset{h})
  }

  function Move(s: Sys, step: SysStep): Sys {
    if !Enabled(s, step) then s else
    match step
    case CallConnectWithRetry(h) =>
      if h in s.table.entries then s else CallConnecting(s.(table := Track(s.table, h)), h)
    case CallConnect(h) => CallConnecting(s, h)
    case CallDisconnect(h) => CallHangup(s.(table := Retry.Stop(s.table, h)), h)
    case TakeConnect(h) =>
      s.(connecting := s.connecting - multiset{h}, layer := Step(s.layer, Connect(h)))
    case TakeDisconnect(h) =>
      s.(hangingUp := s.hangingUp - multiset{h}, layer := Step(s.layer, Disconnect(h)))
    case TransportActs(i) => s.(layer := Step(s.layer, i))
    case DispatchEvent =>
      s.(table := DispatchTable(s.table, s.layer.log[s.consumed]), consumed := s.consumed + 1)
    case TimerFires(id) =>
      s.(table := Fire(s.table, id), firing := s.firing + multiset{s.table.armed[id]})
    case CallbackRuns(h) =>
      var s1 := s.(firing := s.firing - multiset{h});
      if h in s.table.entries && !s.cancelled then s1.(connecting := s.connecting + multiset{h}) else s1
    case Cancel => s.(cancelled := true)
    case GiveUpConnecting(h) => s.(connecting := s.connecting - multiset{h})
    case LoseEvent => s.(consumed := s.consumed + 1)
  }

  /** Where a sequence of steps leads from `s`. */
  function After(s: Sys, steps: seq<SysStep>): Sys {
    if steps == [] then s else Move(After(s, steps[..|steps| - 1]), steps[|steps| - 1])
  }

  function SysRun(self: Host, maxAttempts: int, steps: seq<SysStep>): Sys {
    After(Boot(self, maxAttempts), steps)
  }

  // --- what must not happen -------------------------------------------------------------------------

  /** The session at `h` has left the state in which a Hello could be accepted. */
  ghost predicate Deaf(s: Layer, h: Host) {
    StatusAt(s, h) !in {None, Some(Idle), Some(HandshakingServer)}
  }

  /** If the frame is a Hello, it announces the host under whose address it arrives. */
  ghost predicate FairFrame(t: Host, frame: seq<byte>) {
    var p := ParsePayload(Deserialize(frame).1);
    Deserialize(frame).0 == SESSION && p.Hello? ==> p.host == t
  }

  /** The application asks for retries only towards `peers`, and the layer does not accept,
      under a peer's own address, a Hello that names somebody else. */
  ghost predicate Harmless(peers: set<Host>, s: Layer, step: SysStep) {
    match step
    case CallConnectWithRetry(h) => h in peers
    case TransportActs(i) => i.Receive? && i.host in peers ==> Deaf(s, i.host) || FairFrame(i.host, i.frame)
    case _ => true
  }

  ghost predicate HarmlessFrom(peers: set<Host>, s: Sys, steps: seq<SysStep>) {
    forall k :: 0 <= k < |steps| ==> Harmless(peers, After(s, steps[..k]).layer, steps[k])
  }

  /** A zero port stands for no host at all. */
  ghost predicate Dialable(peers: set<Host>) {
    forall h :: h in peers ==> h.port != 0
  }

  // --- what it means not to be forgotten -----------------------------------------------------------

  ghost predicate Live(s: Layer, h: Host) {
    StatusAt(s, h) in {Some(HandshakingClient), Some(HandshakingServer), Some(Established)}
  }

  predicate Names(e: Entry, h: Host) {
    (e.Up? || e.Down? || e.Fell?) && e.host == h
  }

  ghost predicate EventQueued(s: Sys, h: Host) {
    exists k :: s.consumed <= k < |s.layer.log| && Names(s.layer.log[k], h)
  }

  ghost predicate TimerArmed(s: Sys, h: Host) {
    exists id :: id in s.table.armed && s.table.armed[id] == h
  }

  /** Something is still going to happen for `h`: a timer, a callback, a connect call, an
      event on its way to the runtime, or a session that has not ended. */
  ghost predicate Remembered(s: Sys, h: Host) {
    TimerArmed(s, h) || h in s.firing || h in s.connecting || EventQueued(s, h) || Live(s.layer, h)
  }

  // --- the session layer, seen from one peer ----------------------------------------------------------

  /** A session under a peer's own address stands for that peer. */
  ghost predicate Own(s: Layer, h: Host) {
    && (StatusAt(s, h) == Some(HandshakingClient) ==> s.sessions[h].logical == h)
    && (h in s.toLogical ==> s.toLogical[h] == h)
  }

  /** A live session stays live or its end is announced under the peer's name. */
  ghost predicate Carries(s: Layer, s': Layer, h: Host) {
    && Own(s', h)
    && s.log <= s'.log
    && (Live(s, h) ==> Live(s', h) || (|s'.log| > |s.log| && Names(s'.log[|s.log|], h)))
  }

  /** A dial leaves its session live. */
  lemma ConnectLives(s: Layer, h: Host)
    ensures Live(ConnectClient(s, h), h)
  {
    match WithSession(s, h, h).sessions[h].status {
      case HandshakingClient =>
      case HandshakingServer =>
      case Established =>
      case _ =>
    }
  }

  lemma ConnectCarries(s: Layer, x: Host, h: Host)
    requires Own(s, h) && h.port != 0
    ensures Carries(s, ConnectClient(s, x), h)
    ensures x == h ==> Live(ConnectClient(s, x), h)
  {
    ConnectLives(s, x);
  }

  lemma ConnectedCarries(s: Layer, x: Host, h: Host)
    requires Own(s, h)
    ensures Carries(s, OnConnected(s, x), h)
  {
  }

  lemma DisconnectedCarries(s: Layer, x: Host, h: Host)
    requires Own(s, h)
    ensures Carries(s, OnDisconnected(s, x), h)
  {
  }

  lemma FailedCarries(s: Layer, x: Host, h: Host)
    requires Own(s, h)
    ensures Carries(s, OnFailed(s, x), h)
  {
  }

  lemma AdoptCarries(s: Layer, x: Host, h: Host)
    requires Own(s, h)
    ensures Carries(s, Adopt(s, x), h) && Adopt(s, x).log == s.log
  {
  }

  lemma AcceptCarries(s: Layer, x: Host, peer: Host, h: Host)
    requires Own(s, h) && x in s.sessions && (x == h ==> peer == h)
    ensures Carries(s, Accept(s, x, peer), h)
  {
  }

  lemma HandshakeCarries(s: Layer, x: Host, p: Payload, h: Host)
    requires Own(s, h) && (x == h && p.Hello? ==> Deaf(s, h) || p.host == h)
    ensures Carries(s, OnHandshake(s, x, p), h)
  {
    var s1 := Adopt(s, x);
    AdoptCarries(s, x, h);
    if p.Hello? && s1.sessions[x].status == HandshakingServer {
      AcceptCarries(s1, x, p.host, h);
    }
  }

  lemma ReceiveCarries(s: Layer, x: Host, frame: seq<byte>, h: Host)
    requires Own(s, h) && (x == h ==> Deaf(s, h) || FairFrame(h, frame))
    ensures Carries(s, OnReceive(s, x, frame), h)
  {
    var (layer, body) := Deserialize(frame);
    if layer == SESSION { HandshakeCarries(s, x, ParsePayload(body), h); }
  }

  lemma StepCarries(s: Layer, i: Input, h: Host)
    requires Own(s, h) && h.port != 0
    requires i.Receive? && i.host == h ==> Deaf(s, h) || FairFrame(h, i.frame)
    ensures Carries(s, Step(s, i), h)
    ensures i == Connect(h) ==> Live(Step(s, i), h)
  {
    match i
    case Connect(x) => ConnectCarries(s, x, h);
    case Disconnect(x) =>
    case Send(_, _) =>
    case TransportConnected(x) => ConnectedCarries(s, x, h);
    case TransportDisconnected(x) => DisconnectedCarries(s, x, h);
    case TransportFailed(x) => FailedCarries(s, x, h);
    case Receive(x, frame) => ReceiveCarries(s, x, frame, h);
  }

  // --- the whole engine ----------------------------------------------------------------------------------

  ghost predicate SysInv(peers: set<Host>, s: Sys) {
    && TableInv(s.table)
    && s.table.entries.Keys <= peers
    && s.consumed <= |s.layer.log|
    && (forall h :: h in peers ==> h.port != 0 && Own(s.layer, h))
    && (!s.cancelled ==> forall h :: h in s.table.entries ==> Remembered(s, h))
  }

  /** A step of the layer forgets nobody. */
  lemma LayerMoveRemembers(peers: set<Host>, s: Sys, i: Input, s': Sys)
    requires SysInv(peers, s)
    requires i.Receive? && i.host in peers ==> Deaf(s.layer, i.host) || FairFrame(i.host, i.frame)
    requires s' == s.(layer := Step(s.layer, i))
          || (i.Connect? && s' == s.(layer := Step(s.layer, i), connecting := s.connecting - multiset{i.host}))
    ensures SysInv(peers, s')
  {
    forall h | h in peers ensures Own(s'.layer, h) && s.layer.log <= s'.layer.log {
      StepCarries(s.layer, i, h);
    }
    assert s.layer.log <= s'.layer.log by { LogOnlyGrows(s.layer, i); }
    forall h | h in s.table.entries && !s.cancelled ensures Remembered(s', h) {
      StepCarries(s.layer, i, h);
      assert Remembered(s, h);
      if EventQueued(s, h) {
        var k :| s.consumed <= k < |s.layer.log| && Names(s.layer.log[k], h);
        assert Names(s'.layer.log[k], h);
      } else if TimerArmed(s, h) {
        assert TimerArmed(s', h);
      } else if Live(s.layer, h) && !Live(s'.layer, h) {
        assert Names(s'.layer.log[|s.layer.log|], h);
      }
    }
  }

  lemma LogOnlyGrows(s: Layer, i: Input)
    ensures s.log <= Step(s, i).log
  {
    match i
    case Connect(x) => assert s.log <= ConnectClient(s, x).log;
    case Disconnect(x) => assert s.log <= DisconnectHost(s, x).log;
    case Send(_, _) =>
    case TransportConnected(x) => assert s.log <= OnConnected(s, x).log;
    case TransportDisconnected(x) => assert s.log <= OnDisconnected(s, x).log;
    case TransportFailed(x) => assert s.log <= OnFailed(s, x).log;
    case Receive(t, frame) => ReceiveLog(s, t, frame);
  }

  lemma HandshakeLog(s: Layer, t: Host, p: Payload)
    ensures s.log <= OnHandshake(s, t, p).log
  {
  }

  lemma ReceiveLog(s: Layer, t: Host, frame: seq<byte>)
    ensures s.log <= OnReceive(s, t, frame).log
  {
    var (layer, body) := Deserialize(frame);
    if layer == SESSION { HandshakeLog(s, t, ParsePayload(body)); }
  }

  /** Remembering survives whatever leaves the other hosts' timers and the layer alone. */
  lemma StillRemembered(s: Sys, s': Sys, h: Host)
    requires Remembered(s, h) && s'.layer == s.layer
    requires || s'.consumed == s.consumed
             || (s'.consumed == s.consumed + 1 <= |s.layer.log| && !Names(s.layer.log[s.consumed], h))
    requires h in s.firing ==> h in s'.firing || h in s'.connecting
    requires h in s.connecting ==> h in s'.connecting
    requires TimerArmed(s, h) ==> TimerArmed(s', h) || h in s'.firing
    ensures Remembered(s', h)
  {
    if EventQueued(s, h) {
      var k :| s.consumed <= k < |s.layer.log| && Names(s.layer.log[k], h);
      assert Names(s'.layer.log[k], h);
    }
  }

  /** Moves of the table touch one host only. */
  lemma TableMoveIsLocal(t: Table, step: TableStep, h: Host)
    requires TableInv(t) && h in t.entries
    requires step.DoFire? || step.DoNothing? || step.host != h
    ensures h in Apply(t, step).entries
    ensures forall id :: id in t.armed && t.armed[id] == h && step != DoFire(id) ==>
              id in Apply(t, step).armed && Apply(t, step).armed[id] == h
  {
    match step
    case DoDown(x) => DownIsLocal(t, x, h);
    case DoUp(x) => if x in t.entries { ForgetIsLocal(t, x, h); }
    case DoStop(x) => if x in t.entries { ForgetIsLocal(t, x, h); }
    case _ =>
  }

  lemma ForgetIsLocal(t: Table, x: Host, h: Host)
    requires TimersOwned(t) && x in t.entries && h in t.entries && x != h
    ensures h in Forget(t, x).entries
    ensures forall id :: id in t.armed && t.armed[id] == h ==> id in Forget(t, x).armed && Forget(t, x).armed[id] == h
  {
  }

  lemma DownIsLocal(t: Table, x: Host, h: Host)
    requires TimersOwned(t) && h in t.entries && x != h
    ensures h in OnDown(t, x).entries
    ensures forall id :: id in t.armed && t.armed[id] == h ==> id in OnDown(t, x).armed && OnDown(t, x).armed[id] == h
  {
    if x in t.entries { ForgetIsLocal(t, x, h); }
  }

  lemma IgnoredEventRemembers(s: Sys, h: Host)
    requires Remembered(s, h) && s.consumed < |s.layer.log|
    requires s.layer.log[s.consumed].Mismatch? || s.layer.log[s.consumed].Unmapped?
    ensures Remembered(Move(s, DispatchEvent), h)
  {
    var s' := Move(s, DispatchEvent);
    assert TimerArmed(s, h) ==> TimerArmed(s', h);
    StillRemembered(s, s', h);
  }

  /** An event that names `x` moves `x` only, and leaves it untracked or with a timer. */
  lemma NamedEventRemembers(s: Sys, s': Sys, step: TableStep, h: Host)
    requires step.DoUp? || step.DoDown?
    requires TableInv(s.table) && s.consumed < |s.layer.log| && Names(s.layer.log[s.consumed], step.host)
    requires s' == s.(table := Apply(s.table, step), consumed := s.consumed + 1)
    requires h in s.table.entries ==> Remembered(s, h)
    requires h in s'.table.entries
    ensures Remembered(s', h)
  {
    if h == step.host {
      assert s'.table.armed[s.table.nextTimer] == h;
    } else {
      TableMoveIsLocal(s.table, step, h);
      assert TimerArmed(s, h) ==> TimerArmed(s', h);
      StillRemembered(s, s', h);
    }
  }

  lemma DispatchStep(s: Sys) returns (step: TableStep)
    requires s.consumed < |s.layer.log|
    requires var e := s.layer.log[s.consumed]; e.Up? || e.Down? || e.Fell?
    ensures step.DoUp? || step.DoDown?
    ensures Names(s.layer.log[s.consumed], step.host)
    ensures Move(s, DispatchEvent) == s.(table := Apply(s.table, step), consumed := s.consumed + 1)
  {
    var e := s.layer.log[s.consumed];
    step := if e.Up? then DoUp(e.host) else DoDown(e.host);
  }

  lemma DispatchRemembers(peers: set<Host>, s: Sys)
    requires SysInv(peers, s) && s.consumed < |s.layer.log|
    ensures SysInv(peers, Move(s, DispatchEvent))
  {
    var e, s' := s.layer.log[s.consumed], Move(s, DispatchEvent);
    if e.Mismatch? || e.Unmapped? {
      forall h | h in s'.table.entries && !s.cancelled ensures Remembered(s', h) {
        IgnoredEventRemembers(s, h);
      }
    } else {
      var step := DispatchStep(s);
      TableStepKeeps(s.table, step);
      forall h | h in s'.table.entries && !s.cancelled ensures Remembered(s', h) {
        NamedEventRemembers(s, s', step, h);
      }
    }
  }

  /** Asking for a peer, or letting go of one, moves nobody else. */
  lemma TableCallRemembers(s: Sys, s': Sys, t: TableStep, h: Host)
    requires t.DoTrack? || t.DoStop?
    requires TableInv(s.table) && s'.table == Apply(s.table, t) && s'.layer == s.layer && s'.consumed == s.consumed
    requires s'.firing == s.firing && s.connecting <= s'.connecting
    requires h != t.host && h in s.table.entries && Remembered(s, h)
    ensures Remembered(s', h)
  {
    TableMoveIsLocal(s.table, t, h);
    assert TimerArmed(s, h) ==> TimerArmed(s', h);
    StillRemembered(s, s', h);
  }

  lemma TrackRemembers(peers: set<Host>, s: Sys, x: Host)
    requires SysInv(peers, s) && x in peers
    ensures SysInv(peers, Move(s, CallConnectWithRetry(x)))
  {
    var s' := Move(s, CallConnectWithRetry(x));
    TableStepKeeps(s.table, DoTrack(x));
    forall h | h in s'.table.entries && !s.cancelled ensures Remembered(s', h) {
      if x !in s.table.entries && h != x { TableCallRemembers(s, s', DoTrack(x), h); }
    }
  }

  lemma StopRemembers(peers: set<Host>, s: Sys, x: Host)
    requires SysInv(peers, s)
    ensures SysInv(peers, Move(s, CallDisconnect(x)))
  {
    var s' := Move(s, CallDisconnect(x));
    TableStepKeeps(s.table, DoStop(x));
    forall h | h in s'.table.entries && !s.cancelled ensures Remembered(s', h) {
      TableCallRemembers(s, s', DoStop(x), h);
    }
  }

  lemma ConnectRemembers(peers: set<Host>, s: Sys, x: Host)
    requires SysInv(peers, s)
    ensures SysInv(peers, Move(s, CallConnect(x)))
  {
    var s' := Move(s, CallConnect(x));
    forall h | h in s'.table.entries && !s.cancelled ensures Remembered(s', h) {
      assert TimerArmed(s, h) ==> TimerArmed(s', h);
      StillRemembered(s, s', h);
    }
  }

  lemma FiredTimer(s: Sys, timer: nat, h: Host)
    requires timer in s.table.armed && TimerArmed(s, h)
    ensures var s' := Move(s, TimerFires(timer)); TimerArmed(s', h) || h in s'.firing
  {
    var s' := Move(s, TimerFires(timer));
    if s.table.armed[timer] != h {
      var id :| id in s.table.armed && s.table.armed[id] == h;
      assert id in s'.table.armed && s'.table.armed[id] == h;
    }
  }

  lemma FireRemembers(peers: set<Host>, s: Sys, timer: nat)
    requires SysInv(peers, s) && timer in s.table.armed
    ensures SysInv(peers, Move(s, TimerFires(timer)))
  {
    var s' := Move(s, TimerFires(timer));
    TableStepKeeps(s.table, DoFire(timer));
    forall h | h in s'.table.entries && !s.cancelled ensures Remembered(s', h) {
      if TimerArmed(s, h) { FiredTimer(s, timer, h); }
      StillRemembered(s, s', h);
    }
  }

  lemma CallbackRemembers(peers: set<Host>, s: Sys, x: Host)
    requires SysInv(peers, s) && x in s.firing
    ensures SysInv(peers, Move(s, CallbackRuns(x)))
  {
    var s' := Move(s, CallbackRuns(x));
    forall h | h in s'.table.entries && !s.cancelled ensures Remembered(s', h) {
      assert TimerArmed(s, h) ==> TimerArmed(s', h);
      StillRemembered(s, s', h);
    }
  }

  lemma MoveRemembers(peers: set<Host>, s: Sys, step: SysStep)
    requires SysInv(peers, s) && Harmless(peers, s.layer, step)
    ensures SysInv(peers, Move(s, step))
  {
    if !Enabled(s, step) { return; }
    match step
    case CallConnectWithRetry(h) => TrackRemembers(peers, s, h);
    case CallConnect(h) => ConnectRemembers(peers, s, h);
    case CallDisconnect(h) => StopRemembers(peers, s, h);
    case TakeConnect(h) => LayerMoveRemembers(peers, s, Connect(h), Move(s, step));
    case TakeDisconnect(h) =>
      var mid := s.(layer := Step(s.layer, Disconnect(h)));
      LayerMoveRemembers(peers, s, Disconnect(h), mid);
      SameForRemembering(mid, Move(s, step));
    case TransportActs(i) => LayerMoveRemembers(peers, s, i, Move(s, step));
    case DispatchEvent => DispatchRemembers(peers, s);
    case TimerFires(id) => FireRemembers(peers, s, id);
    case CallbackRuns(h) => CallbackRemembers(peers, s, h);
    case Cancel =>
    case GiveUpConnecting(h) =>
    case LoseEvent =>
  }

  lemma SameForRemembering(s: Sys, s': Sys)
    requires s' == s.(hangingUp := s'.hangingUp)
    ensures forall h :: Remembered(s, h) ==> Remembered(s', h)
  {
    forall h | Remembered(s, h) ensures Remembered(s', h) {
      assert EventQueued(s, h) ==> EventQueued(s', h);
      assert TimerArmed(s, h) ==> TimerArmed(s', h);
    }
  }

  lemma HarmlessShorter(peers: set<Host>, s: Sys, steps: seq<SysStep>)
    requires steps != [] && HarmlessFrom(peers, s, steps)
    ensures HarmlessFrom(peers, s, steps[..|steps| - 1])
    ensures Harmless(peers, After(s, steps[..|steps| - 1]).layer, steps[|steps| - 1])
  {
    var before := steps[..|steps| - 1];
    forall k | 0 <= k < |before| ensures Harmless(peers, After(s, before[..k]).layer, before[k]) {
      assert before[..k] == steps[..k];
    }
  }

  lemma {:induction false} HarmlessKeeps(peers: set<Host>, s: Sys, steps: seq<SysStep>)
    requires SysInv(peers, s) && HarmlessFrom(peers, s, steps)
    ensures SysInv(peers, After(s, steps))
    decreases |steps|
  {
    if steps == [] {
    } else {
      HarmlessShorter(peers, s, steps);
      HarmlessKeeps(peers, s, steps[..|steps| - 1]);
      MoveRemembers(peers, After(s, steps[..|steps| - 1]), steps[|steps| - 1]);
    }
  }

  /** No tracked peer is ever forgotten: in every uncancelled state of every run in which no
      foreign Hello is accepted under a peer's address, each host in the retry table has a
      timer armed or firing, a connect call in progress, an event naming it on the way to the
      runtime, or a session that has not ended. */
  lemma NoPeerIsForgotten(peers: set<Host>, self: Host, maxAttempts: int, steps: seq<SysStep>, h: Host)
    requires Dialable(peers) && HarmlessFrom(peers, Boot(self, maxAttempts), steps)
    requires var s := SysRun(self, maxAttempts, steps); !s.cancelled && h in s.table.entries
    ensures Remembered(SysRun(self, maxAttempts, steps), h)
  {
    HarmlessKeeps(peers, Boot(self, maxAttempts), steps);
  }

  /** Every Hello that arrives under a peer's address announces that peer. */
  ghost predicate FairRun(peers: set<Host>, steps: seq<SysStep>) {
    forall k :: 0 <= k < |steps| ==>
      && (steps[k].CallConnectWithRetry? ==> steps[k].host in peers)
      && (steps[k].TransportActs? && steps[k].input.Receive? && steps[k].input.host in peers ==>
            FairFrame(steps[k].input.host, steps[k].input.frame))
  }

  lemma NoFairPeerIsForgotten(peers: set<Host>, self: Host, maxAttempts: int, steps: seq<SysStep>, h: Host)
    requires Dialable(peers) && FairRun(peers, steps)
    requires var s := SysRun(self, maxAttempts, steps); !s.cancelled && h in s.table.entries
    ensures Remembered(SysRun(self, maxAttempts, steps), h)
  {
    NoPeerIsForgotten(peers, self, maxAttempts, steps, h);
  }

  /** What labels are worth: a message is labelled with the transport host it came in on, and
      where that is a peer's address the session there belongs to that peer. So a label that
      is in a view of such peers names the true sender. */
  lemma LabelNamesItsPeer(peers: set<Host>, self: Host, maxAttempts: int, steps: seq<SysStep>, h: Host)
    requires Dialable(peers) && HarmlessFrom(peers, Boot(self, maxAttempts), steps)
    requires h in peers && h in SysRun(self, maxAttempts, steps).layer.toLogical
    ensures MapToHost(SysRun(self, maxAttempts, steps).layer, h) == h
  {
    HarmlessKeeps(peers, Boot(self, maxAttempts), steps);
  }

  // --- peers that only ever are dialled ---------------------------------------------------------------

  /** Nobody connects from a peer's address: the transport reports a connection or a message
      under it only once the layer has a session there. */
  ghost predicate Outbound(peers: set<Host>, s: Layer, step: SysStep) {
    match step
    case CallConnectWithRetry(h) => h in peers
    case TransportActs(i) => (i.TransportConnected? || i.Receive?) && i.host in peers ==> i.host in s.sessions
    case _ => true
  }

  ghost predicate OutboundRun(peers: set<Host>, self: Host, maxAttempts: int, steps: seq<SysStep>) {
    && Dialable(peers)
    && (forall k :: 0 <= k < |steps| ==> Outbound(peers, SysRun(self, maxAttempts, steps[..k]).layer, steps[k]))
  }

  ghost predicate NeverServer(s: Layer, h: Host) {
    StatusAt(s, h) !in {Some(Idle), Some(HandshakingServer)}
  }

  lemma HandshakeNeverServer(s: Layer, x: Host, p: Payload, h: Host)
    requires NeverServer(s, h) && (x == h ==> h in s.sessions)
    ensures NeverServer(OnHandshake(s, x, p), h)
  {
  }

  lemma ReceiveNeverServer(s: Layer, x: Host, frame: seq<byte>, h: Host)
    requires NeverServer(s, h) && (x == h ==> h in s.sessions)
    ensures NeverServer(OnReceive(s, x, frame), h)
  {
    var (layer, body) := Deserialize(frame);
    if layer == SESSION { HandshakeNeverServer(s, x, ParsePayload(body), h); }
  }

  lemma ConnectedNeverServer(s: Layer, x: Host, h: Host)
    requires NeverServer(s, h) && (x == h ==> h in s.sessions)
    ensures NeverServer(OnConnected(s, x), h)
  {
  }

  lemma EndedNeverServer(s: Layer, x: Host, h: Host)
    requires NeverServer(s, h)
    ensures NeverServer(OnDisconnected(s, x), h) && NeverServer(OnFailed(s, x), h)
  {
  }

  lemma LocalNeverServer(s: Layer, i: Input, h: Host)
    requires NeverServer(s, h) && (i.Connect? || i.Disconnect? || i.Send?)
    ensures NeverServer(Step(s, i), h)
  {
  }

  lemma StepNeverServer(s: Layer, i: Input, h: Host)
    requires NeverServer(s, h)
    requires (i.TransportConnected? || i.Receive?) && i.host == h ==> h in s.sessions
    ensures NeverServer(Step(s, i), h)
  {
    match i
    case Receive(x, frame) => ReceiveNeverServer(s, x, frame, h);
    case TransportConnected(x) => ConnectedNeverServer(s, x, h);
    case TransportDisconnected(x) => EndedNeverServer(s, x, h);
    case TransportFailed(x) => EndedNeverServer(s, x, h);
    case _ => LocalNeverServer(s, i, h);
  }

  /** A move leaves the layer alone or feeds it one input. */
  lemma MoveNeverServer(peers: set<Host>, s: Sys, step: SysStep, h: Host)
    requires h in peers && NeverServer(s.layer, h) && Outbound(peers, s.layer, step)
    ensures NeverServer(Move(s, step).layer, h)
  {
    if Enabled(s, step) {
      match step
      case TakeConnect(x) => StepNeverServer(s.layer, Connect(x), h);
      case TakeDisconnect(x) => StepNeverServer(s.layer, Disconnect(x), h);
      case TransportActs(i) => StepNeverServer(s.layer, i, h);
      case _ => assert Move(s, step).layer == s.layer;
    }
  }

  lemma {:induction false} OutboundNeverServer(peers: set<Host>, self: Host, maxAttempts: int,
                                               steps: seq<SysStep>, h: Host)
    requires OutboundRun(peers, self, maxAttempts, steps) && h in peers
    ensures NeverServer(SysRun(self, maxAttempts, steps).layer, h)
    decreases |steps|
  {
    if steps == [] {
    } else {
      var n := |steps| - 1;
      OutboundShorter(peers, self, maxAttempts, steps, n);
      OutboundNeverServer(peers, self, maxAttempts, steps[..n], h);
      MoveNeverServer(peers, SysRun(self, maxAttempts, steps[..n]), steps[n], h);
    }
  }

  /** Where no peer connects, no session at a peer's address ever listens for a Hello. */
  lemma OutboundIsHarmless(peers: set<Host>, self: Host, maxAttempts: int, steps: seq<SysStep>)
    requires OutboundRun(peers, self, maxAttempts, steps)
    ensures HarmlessFrom(peers, Boot(self, maxAttempts), steps)
  {
    forall k | 0 <= k < |steps|
      ensures Harmless(peers, After(Boot(self, maxAttempts), steps[..k]).layer, steps[k])
    {
      OutboundShorter(peers, self, maxAttempts, steps, k);
      assert Outbound(peers, SysRun(self, maxAttempts, steps[..k]).layer, steps[k]);
      if steps[k].TransportActs? && steps[k].input.host in peers {
        OutboundNeverServer(peers, self, maxAttempts, steps[..k], steps[k].input.host);
      }
    }
  }

  lemma OutboundShorter(peers: set<Host>, self: Host, maxAttempts: int, steps: seq<SysStep>, n: nat)
    requires n <= |steps| && OutboundRun(peers, self, maxAttempts, steps)
    ensures OutboundRun(peers, self, maxAttempts, steps[..n])
  {
    var before := steps[..n];
    forall k | 0 <= k < n ensures Outbound(peers, SysRun(self, maxAttempts, before[..k]).layer, before[k]) {
      assert before[..k] == steps[..k];
    }
  }

  /** If no peer ever connects from the address it is dialled at, nothing need be assumed
      about what arrives: a tracked peer has a timer armed or firing, a connect call in
      progress, an event naming it on the way, or a session in HandshakingClient or Established. */
  lemma NoDialledPeerIsForgotten(peers: set<Host>, self: Host, maxAttempts: int, steps: seq<SysStep>, h: Host)
    requires OutboundRun(peers, self, maxAttempts, steps)
    requires var s := SysRun(self, maxAttempts, steps); !s.cancelled && h in s.table.entries
    ensures var s := SysRun(self, maxAttempts, steps);
            || TimerArmed(s, h) || h in s.firing || h in s.connecting || EventQueued(s, h)
            || StatusAt(s.layer, h) in {Some(HandshakingClient), Some(Established)}
  {
    OutboundIsHarmless(peers, self, maxAttempts, steps);
    NoPeerIsForgotten(peers, self, maxAttempts, steps, h);
    if h in peers {
      OutboundNeverServer(peers, self, maxAttempts, steps, h);
    } else {
      HarmlessKeeps(peers, Boot(self, maxAttempts), steps);
    }
  }

  // --- the condition is exact ----------------------------------------------------------------------------

  lemma LastOfAppend(a: seq<SysStep>, b: seq<SysStep>)
    requires b != []
    ensures var n := |b| - 1; (a + b)[..|a + b| - 1] == a + b[..n] && (a + b)[|a + b| - 1] == b[n]
  {
  }

  lemma AfterLast(s: Sys, steps: seq<SysStep>, before: seq<SysStep>, last: SysStep)
    requires steps != [] && steps[..|steps| - 1] == before && steps[|steps| - 1] == last
    ensures After(s, steps) == Move(After(s, before), last)
  {
  }

  lemma {:induction false} AfterAppend(s: Sys, a: seq<SysStep>, b: seq<SysStep>)
    ensures After(s, a + b) == After(After(s, a), b)
    decreases |b|
  {
    if b == [] {
      assert a + b == a;
    } else {
      var n := |b| - 1;
      LastOfAppend(a, b);
      AfterLast(s, a + b, a + b[..n], b[n]);
      AfterLast(After(s, a), b, b[..n], b[n]);
      AfterAppend(s, a, b[..n]);
    }
  }

  lemma AfterOne(s: Sys, step: SysStep)
    ensures After(s, [step]) == Move(s, step)
  {
    assert [step][..0] == [];
  }

  /** Steps that are harmless whatever the state. */
  ghost predicate Innocent(peers: set<Host>, steps: seq<SysStep>) {
    forall k :: 0 <= k < |steps| ==>
      && (steps[k].CallConnectWithRetry? ==> steps[k].host in peers)
      && (steps[k].TransportActs? ==> !steps[k].input.Receive?)
  }

  /** A session under `h`'s address that the layer takes for somebody else's. */
  ghost predicate Captive(s: Sys, h: Host) {
    && !s.cancelled && TableInv(s.table) && s.consumed <= |s.layer.log|
    && StatusAt(s.layer, h) == Some(Established)
    && h in s.layer.toLogical && s.layer.toLogical[h] != h
  }

  /** `h` is tracked, and one after the other nothing is left that would act for it: no queued
      event, no timer, no callback, no call. */
  ghost predicate Cornered(s: Sys, h: Host, stage: nat) {
    && Captive(s, h)
    && (stage >= 1 ==> s.consumed == |s.layer.log| && h in s.table.entries)
    && (stage >= 2 ==> !TimerArmed(s, h))
    && (stage >= 3 ==> h !in s.firing)
    && (stage >= 4 ==> h !in s.connecting)
  }

  lemma ActMoves(s: Sys, i: Input)
    requires !i.Connect? && !i.Disconnect?
    ensures Move(s, TransportActs(i)) == s.(layer := Step(s.layer, i))
  {
  }

  lemma ForeignHelloIsHeard(s: Layer, h: Host, frame: seq<byte>)
    requires !Deaf(s, h) && !FairFrame(h, frame)
    ensures var s' := OnReceive(s, h, frame);
            StatusAt(s', h) == Some(Established) && h in s'.toLogical && s'.toLogical[h] != h
  {
    HelloIsAccepted(s, h, ParsePayload(Deserialize(frame).1));
  }

  lemma ForeignHelloCaptures(peers: set<Host>, s: Sys, h: Host, frame: seq<byte>)
    requires SysInv(peers, s) && !s.cancelled && !Deaf(s.layer, h) && !FairFrame(h, frame)
    ensures Captive(Move(s, TransportActs(Receive(h, frame))), h)
  {
    ActMoves(s, Receive(h, frame));
    ForeignHelloIsHeard(s.layer, h, frame);
    ReceiveLog(s.layer, h, frame);
  }

  lemma HelloIsAccepted(s: Layer, h: Host, p: Payload)
    requires !Deaf(s, h) && p.Hello?
    ensures var s' := OnHandshake(s, h, p);
            StatusAt(s', h) == Some(Established) && h in s'.toLogical && s'.toLogical[h] == p.host
  {
  }

  lemma DispatchTableKeeps(t: Table, e: Entry)
    requires TableInv(t)
    ensures TableInv(DispatchTable(t, e))
  {
    if e.Up? { TableStepKeeps(t, DoUp(e.host)); }
    if e.Down? || e.Fell? { TableStepKeeps(t, DoDown(e.host)); }
  }

  lemma DispatchKeepsCaptive(s: Sys, h: Host)
    requires Captive(s, h) && s.consumed < |s.layer.log|
    ensures Captive(Move(s, DispatchEvent), h)
    ensures Move(s, DispatchEvent).layer == s.layer && Move(s, DispatchEvent).consumed == s.consumed + 1
  {
    DispatchTableKeeps(s.table, s.layer.log[s.consumed]);
  }

  lemma {:induction false} DrainEvents(peers: set<Host>, s: Sys, h: Host) returns (steps: seq<SysStep>)
    requires Captive(s, h)
    ensures Innocent(peers, steps) && Captive(After(s, steps), h)
    ensures After(s, steps).consumed == |After(s, steps).layer.log|
    decreases |s.layer.log| - s.consumed
  {
    if s.consumed == |s.layer.log| {
      steps := [];
    } else {
      DispatchKeepsCaptive(s, h);
      AfterOne(s, DispatchEvent);
      var more := DrainEvents(peers, Move(s, DispatchEvent), h);
      AfterAppend(s, [DispatchEvent], more);
      steps := [DispatchEvent] + more;
    }
  }

  lemma AskAgain(peers: set<Host>, s: Sys, h: Host) returns (steps: seq<SysStep>)
    requires Captive(s, h) && s.consumed == |s.layer.log| && h in peers
    ensures Innocent(peers, steps) && Cornered(After(s, steps), h, 1)
  {
    steps := [CallConnectWithRetry(h)];
    AfterOne(s, CallConnectWithRetry(h));
    TableStepKeeps(s.table, DoTrack(h));
  }

  lemma FiringCorners(s: Sys, h: Host, id: nat)
    requires Cornered(s, h, 1) && id in s.table.armed && s.table.armed[id] == h
    ensures Cornered(Move(s, TimerFires(id)), h, 2)
  {
    TableStepKeeps(s.table, DoFire(id));
  }

  lemma FireTimer(peers: set<Host>, s: Sys, h: Host) returns (steps: seq<SysStep>)
    requires Cornered(s, h, 1)
    ensures Innocent(peers, steps) && Cornered(After(s, steps), h, 2)
  {
    if TimerArmed(s, h) {
      var id :| id in s.table.armed && s.table.armed[id] == h;
      FiringCorners(s, h, id);
      AfterOne(s, TimerFires(id));
      steps := [TimerFires(id)];
    } else {
      steps := [];
    }
  }

  lemma CallbackCorners(s: Sys, h: Host)
    requires Cornered(s, h, 2) && h in s.firing
    ensures Cornered(Move(s, CallbackRuns(h)), h, 2)
  {
    assert !TimerArmed(Move(s, CallbackRuns(h)), h);
  }

  lemma {:induction false} RunCallbacks(peers: set<Host>, s: Sys, h: Host) returns (steps: seq<SysStep>)
    requires Cornered(s, h, 2)
    ensures Innocent(peers, steps) && Cornered(After(s, steps), h, 3)
    decreases s.firing[h]
  {
    if h !in s.firing {
      steps := [];
    } else {
      CallbackCorners(s, h);
      AfterOne(s, CallbackRuns(h));
      var more := RunCallbacks(peers, Move(s, CallbackRuns(h)), h);
      AfterAppend(s, [CallbackRuns(h)], more);
      steps := [CallbackRuns(h)] + more;
    }
  }

  /** A dial to an established session is ignored. */
  lemma DialIsSwallowed(s: Layer, h: Host)
    requires StatusAt(s, h) == Some(Established)
    ensures var s' := ConnectClient(s, h);
            StatusAt(s', h) == Some(Established) && s'.log == s.log && s'.toLogical == s.toLogical
  {
  }

  lemma TakingCorners(s: Sys, h: Host)
    requires Cornered(s, h, 3) && h in s.connecting
    ensures Cornered(Move(s, TakeConnect(h)), h, 3)
  {
    DialIsSwallowed(s.layer, h);
    assert !TimerArmed(Move(s, TakeConnect(h)), h);
  }

  lemma {:induction false} TakeCalls(peers: set<Host>, s: Sys, h: Host) returns (steps: seq<SysStep>)
    requires Cornered(s, h, 3)
    ensures Innocent(peers, steps) && Cornered(After(s, steps), h, 4)
    decreases s.connecting[h]
  {
    if h !in s.connecting {
      steps := [];
    } else {
      TakingCorners(s, h);
      AfterOne(s, TakeConnect(h));
      var more := TakeCalls(peers, Move(s, TakeConnect(h)), h);
      AfterAppend(s, [TakeConnect(h)], more);
      steps := [TakeConnect(h)] + more;
    }
  }

  lemma CaptiveEnds(s: Layer, h: Host)
    requires StatusAt(s, h) == Some(Established) && h in s.toLogical
    ensures var s' := OnDisconnected(s, h);
            StatusAt(s', h) == Some(Closing) && s'.log == s.log + [Down(h, s.toLogical[h])]
  {
  }

  ghost predicate Forgotten(s: Sys, h: Host) {
    !s.cancelled && h in s.table.entries && !Remembered(s, h)
  }

  /** The connection goes away, and its end is announced under the wrong name. */
  lemma CorneredIsForgotten(s: Sys, h: Host)
    requires Cornered(s, h, 4)
    ensures Forgotten(Move(s, TransportActs(TransportDisconnected(h))), h)
  {
    CaptiveEnds(s.layer, h);
    assert !TimerArmed(Move(s, TransportActs(TransportDisconnected(h))), h);
  }

  lemma CornerFully(peers: set<Host>, s: Sys, h: Host) returns (steps: seq<SysStep>)
    requires Cornered(s, h, 1)
    ensures Innocent(peers, steps) && Cornered(After(s, steps), h, 4)
  {
    steps := FireTimer(peers, s, h);
    var b := RunCallbacks(peers, After(s, steps), h);
    AfterAppend(s, steps, b);
    steps := steps + b;
    var c := TakeCalls(peers, After(s, steps), h);
    AfterAppend(s, steps, c);
    steps := steps + c;
  }

  lemma DrainAndAsk(peers: set<Host>, s: Sys, h: Host) returns (steps: seq<SysStep>)
    requires Captive(s, h) && h in peers
    ensures Innocent(peers, steps) && Cornered(After(s, steps), h, 1)
  {
    steps := DrainEvents(peers, s, h);
    var a := AskAgain(peers, After(s, steps), h);
    AfterAppend(s, steps, a);
    steps := steps + a;
  }

  lemma CornerCaptive(peers: set<Host>, s: Sys, h: Host) returns (steps: seq<SysStep>)
    requires Captive(s, h) && h in peers
    ensures Innocent(peers, steps) && Cornered(After(s, steps), h, 4)
  {
    steps := DrainAndAsk(peers, s, h);
    var b := CornerFully(peers, After(s, steps), h);
    AfterAppend(s, steps, b);
    steps := steps + b;
  }

  /** From any captive state an innocent continuation loses the peer. */
  lemma CaptiveIsForgotten(peers: set<Host>, s: Sys, h: Host) returns (steps: seq<SysStep>)
    requires Captive(s, h) && h in peers
    ensures Innocent(peers, steps) && Forgotten(After(s, steps), h)
  {
    steps := CornerCaptive(peers, s, h);
    var end := TransportActs(TransportDisconnected(h));
    CorneredIsForgotten(After(s, steps), h);
    AfterAppend(s, steps, [end]);
    AfterOne(After(s, steps), end);
    steps := steps + [end];
  }

  /** Every harmless future of `s` remembers every tracked peer. */
  ghost predicate SafeFrom(peers: set<Host>, s: Sys) {
    forall steps, g :: HarmlessFrom(peers, s, steps) ==> !Forgotten(After(s, steps), g)
  }

  /** The assumption is exact: a frame that arrives under a peer's address, in any state of any
      harmless run, is safe in every harmless future if and only if the session there no
      longer listens for a Hello or the frame is no Hello of somebody else. */
  lemma ForgettingCondition(peers: set<Host>, self: Host, maxAttempts: int, steps: seq<SysStep>,
                            h: Host, frame: seq<byte>)
    requires Dialable(peers) && HarmlessFrom(peers, Boot(self, maxAttempts), steps) && h in peers
    requires !SysRun(self, maxAttempts, steps).cancelled
    ensures var s := SysRun(self, maxAttempts, steps);
            SafeFrom(peers, Move(s, TransportActs(Receive(h, frame)))) <==> Deaf(s.layer, h) || FairFrame(h, frame)
  {
    var s := SysRun(self, maxAttempts, steps);
    var s' := Move(s, TransportActs(Receive(h, frame)));
    HarmlessKeeps(peers, Boot(self, maxAttempts), steps);
    if Deaf(s.layer, h) || FairFrame(h, frame) {
      MoveRemembers(peers, s, TransportActs(Receive(h, frame)));
      forall more, g | HarmlessFrom(peers, s', more) ensures !Forgotten(After(s', more), g) {
        HarmlessKeeps(peers, s', more);
      }
    } else {
      ForeignHelloCaptures(peers, s, h, frame);
      var more := CaptiveIsForgotten(peers, s', h);
      assert HarmlessFrom(peers, s', more) && Forgotten(After(s', more), h);
    }
  }

  /** The smallest instance: on a fresh runtime, one Hello that names somebody else under a
      peer's address is enough to lose the peer, for every peer and every such impostor. */
  lemma ImpostorMakesPeerForgotten(self: Host, maxAttempts: int, h: Host, other: Host) returns (more: seq<SysStep>)
    requires h.port != 0 && h != other && HostOnWire(other).Some? && 0 <= other.port < 0x1_0000
    ensures var hello := Serialize(SESSION, EncodeHello(other).value);
            && Innocent({h}, more)
            && Forgotten(After(Move(Boot(self, maxAttempts), TransportActs(Receive(h, hello))), more), h)
  {
    var hello := Serialize(SESSION, EncodeHello(other).value);
    PayloadRoundTrip(other);
    LayerRoundTrip(SESSION, EncodeHello(other).value);
    ForeignHelloCaptures({h}, Boot(self, maxAttempts), h, hello);
    more := CaptiveIsForgotten({h}, Move(Boot(self, maxAttempts), TransportActs(Receive(h, hello))), h);
  }
}
