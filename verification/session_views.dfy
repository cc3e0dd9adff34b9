/** From the session layer to the membership view, across the runtime's dispatcher: when is
    the view exactly the peers of the established sessions? */
module SessionViews {
  import opened Bytes
  import opened Hosts
  import opened Handshake
  import opened Session
  import Retry
  import Membership

  /** Session `t` is up and was reported as a session with `h`. */
  ghost predicate HeldBy(log: seq<Entry>, t: Host, h: Host) {
    PhaseOf(log, t).Raised? && PhaseOf(log, t).host == h
  }

  ghost predicate Held(log: seq<Entry>, h: Host) {
    exists t :: HeldBy(log, t, h)
  }

  /** A session other than `t` is up with `h`. */
  ghost predicate HeldElsewhere(log: seq<Entry>, t: Host, h: Host) {
    exists x :: x != t && HeldBy(log, x, h)
  }

  /** An event on which membership and the sessions part: a disconnect that names a host which
      another session still holds, or that names another host than the one whose last session
      ended, and a failure of the last session with a host. */
  ghost predicate Skews(log: seq<Entry>, e: Entry) {
    match e
    case Down(t, named) =>
      var phase := PhaseOf(log, t);
      HeldElsewhere(log, t, named)
      || (phase.Raised? && phase.host != named && !HeldElsewhere(log, t, phase.host))
    case Fell(t, _) => PhaseOf(log, t).Raised? && !HeldElsewhere(log, t, PhaseOf(log, t).host)
    case _ => false
  }

  ghost predicate Agrees(log: seq<Entry>) {
    forall h :: Membership.Linked(log, h) <==> Held(log, h)
  }

  lemma HeldSplits(log: seq<Entry>, t: Host, h: Host)
    ensures Held(log, h) <==> HeldBy(log, t, h) || HeldElsewhere(log, t, h)
  {
  }

  lemma OthersStayHeld(log: seq<Entry>, e: Entry, h: Host)
    ensures HeldElsewhere(log + [e], e.session, h) <==> HeldElsewhere(log, e.session, h)
  {
    forall x | x != e.session ensures HeldBy(log + [e], x, h) <==> HeldBy(log, x, h) {
      LogGrows(log, e, x);
    }
  }

  /** Who is held after an event: by the other sessions as before, by its own as it says. */
  lemma HeldAfter(log: seq<Entry>, e: Entry, h: Host)
    ensures Held(log + [e], h) <==>
              || HeldElsewhere(log, e.session, h)
              || (var p := PhaseAfter(PhaseOf(log, e.session), e); p.Raised? && p.host == h)
  {
    HeldSplits(log + [e], e.session, h);
    OthersStayHeld(log, e, h);
    LogGrows(log, e, e.session);
  }

  lemma LinkedAfter(log: seq<Entry>, e: Entry, h: Host)
    ensures Membership.Linked(log + [e], h)
         == match e
            case Up(_, x, _) => x == h || Membership.Linked(log, h)
            case Down(_, x) => x != h && Membership.Linked(log, h)
            case _ => Membership.Linked(log, h)
  {
    assert (log + [e])[..|log|] == log;
  }

  ghost predicate AgreesOn(log: seq<Entry>, h: Host) {
    Membership.Linked(log, h) <==> Held(log, h)
  }

  /** One host at a time: after an event that does not skew, the two sides still agree. */
  lemma StillAgrees(log: seq<Entry>, e: Entry, h: Host)
    requires AgreesOn(log, h) && Follows(PhaseOf(log, e.session), e) && !Skews(log, e)
    ensures AgreesOn(log + [e], h)
  {
    LinkedAfter(log, e, h);
    HeldAfter(log, e, h);
    HeldSplits(log, e.session, h);
  }

  /** After one that does, they differ on the host it names or on the one it ends. */
  lemma Disagrees(log: seq<Entry>, e: Entry) returns (h: Host)
    requires Agrees(log) && Skews(log, e)
    ensures !AgreesOn(log + [e], h)
  {
    var phase := PhaseOf(log, e.session);
    h := if e.Down? && HeldElsewhere(log, e.session, e.host) then e.host else phase.host;
    assert AgreesOn(log, h);
    LinkedAfter(log, e, h);
    HeldAfter(log, e, h);
    HeldSplits(log, e.session, h);
  }

  lemma EntryAgrees(log: seq<Entry>, e: Entry)
    requires Agrees(log) && Follows(PhaseOf(log, e.session), e)
    ensures Agrees(log + [e]) <==> !Skews(log, e)
  {
    if Skews(log, e) {
      var h := Disagrees(log, e);
      assert Membership.Linked(log + [e], h) != Held(log + [e], h);
    } else {
      forall h ensures Membership.Linked(log + [e], h) <==> Held(log + [e], h) {
        assert AgreesOn(log, h);
        StillAgrees(log, e, h);
      }
    }
  }

  // --- the event an input is about to cause ---------------------------------------------------------

  function HandshakeLogged(s: Layer, t: Host, p: Payload): Option<Entry> {
    match p
    case VersionMismatch => Some(Mismatch(t))
    case Hello(peer) =>
      if StatusAt(s, t) in {None, Some(Idle), Some(HandshakingServer)} then Some(Up(t, peer, true)) else None
    case _ => None
  }

  function Logged(s: Layer, i: Input): Option<Entry> {
    match i
    case Disconnect(h) => if h in s.toLogical then Some(Unmapped(h)) else None
    case TransportConnected(t) =>
      if StatusAt(s, t) != Some(HandshakingClient) then None
      else if EncodeHello(s.self).Some? then Some(Up(t, s.sessions[t].logical, false))
      else Some(Fell(t, s.sessions[t].logical))
    case TransportDisconnected(t) =>
      if StatusAt(s, t) in {Some(Established), Some(HandshakingClient), Some(HandshakingServer)}
      then Some(Down(t, MapToHost(s, t))) else None
    case TransportFailed(t) => Some(Fell(t, MapToHost(s, t)))
    case Receive(t, frame) =>
      if Deserialize(frame).0 == SESSION then HandshakeLogged(s, t, ParsePayload(Deserialize(frame).1)) else None
    case _ => None
  }

  lemma HandshakeLogs(s: Layer, t: Host, p: Payload)
    ensures Grows(s.log, OnHandshake(s, t, p).log, HandshakeLogged(s, t, p))
  {
  }

  lemma LogsExactly(s: Layer, i: Input)
    ensures Grows(s.log, Step(s, i).log, Logged(s, i))
  {
    match i
    case Connect(h) => assert ConnectClient(s, h).log == s.log;
    case Disconnect(h) => assert Grows(s.log, DisconnectHost(s, h).log, Logged(s, i));
    case Send(_, _) =>
    case TransportConnected(t) => assert Grows(s.log, OnConnected(s, t).log, Logged(s, i));
    case TransportDisconnected(t) => assert Grows(s.log, OnDisconnected(s, t).log, Logged(s, i));
    case TransportFailed(t) => assert Grows(s.log, OnFailed(s, t).log, Logged(s, i));
    case Receive(t, frame) => HandshakeLogs(s, t, ParsePayload(Deserialize(frame).1));
  }

  /** An input whose event is going to skew the view. */
  ghost predicate Drifts(s: Layer, i: Input) {
    Logged(s, i).Some? && Skews(s.log, Logged(s, i).value)
  }

  // --- over every run ------------------------------------------------------------------------------------

  ghost predicate AgreesAfter(self: Host, inputs: seq<Input>) {
    Agrees(Run(self, inputs).log)
  }

  ghost predicate DriftsAfter(self: Host, inputs: seq<Input>, i: Input) {
    Drifts(Run(self, inputs), i)
  }

  /** No input of the run drifts in the state it finds. */
  ghost predicate NeverDrifts(self: Host, inputs: seq<Input>) {
    forall n :: 0 <= n < |inputs| ==> !DriftsAfter(self, inputs[..n], inputs[n])
  }

  lemma LogSnoc(self: Host, inputs: seq<Input>, i: Input)
    ensures Grows(Run(self, inputs).log, Run(self, inputs + [i]).log, Logged(Run(self, inputs), i))
  {
    RunSnoc(self, inputs, i);
    LogsExactly(Run(self, inputs), i);
  }

  lemma AgreementStep(self: Host, inputs: seq<Input>, i: Input)
    requires AgreesAfter(self, inputs)
    ensures AgreesAfter(self, inputs + [i]) <==> !DriftsAfter(self, inputs, i)
  {
    var log, e := Run(self, inputs).log, Logged(Run(self, inputs), i);
    LogSnoc(self, inputs, i);
    if e.Some? {
      RunKeeps(self, inputs + [i]);
      assert (log + [e.value])[..|log|] == log && (log + [e.value])[|log|] == e.value;
      EntryAgrees(log, e.value);
    }
  }

  lemma {:induction false} UndriftedAgrees(self: Host, inputs: seq<Input>, n: nat)
    requires n <= |inputs|
    requires NeverDrifts(self, inputs)
    ensures AgreesAfter(self, inputs[..n])
  {
    if n == 0 {
      assert forall h, t :: !HeldBy([], t, h);
    } else {
      UndriftedAgrees(self, inputs, n - 1);
      assert inputs[..n] == inputs[..n - 1] + [inputs[n - 1]];
      assert !DriftsAfter(self, inputs[..n - 1], inputs[n - 1]);
      AgreementStep(self, inputs[..n - 1], inputs[n - 1]);
    }
  }

  lemma UndriftedAgreesAtLast(self: Host, inputs: seq<Input>)
    requires NeverDrifts(self, inputs)
    ensures AgreesAfter(self, inputs)
  {
    UndriftedAgrees(self, inputs, |inputs|);
    assert inputs[..|inputs|] == inputs;
  }

  lemma AgreementCondition(self: Host, inputs: seq<Input>)
    ensures (forall n :: 0 <= n <= |inputs| ==> AgreesAfter(self, inputs[..n]))
       <==> NeverDrifts(self, inputs)
  {
    if forall n :: 0 <= n <= |inputs| ==> AgreesAfter(self, inputs[..n]) {
      forall n | 0 <= n < |inputs| ensures !DriftsAfter(self, inputs[..n], inputs[n]) {
        assert inputs[..n + 1] == inputs[..n] + [inputs[n]];
        assert AgreesAfter(self, inputs[..n]) && AgreesAfter(self, inputs[..n + 1]);
        AgreementStep(self, inputs[..n], inputs[n]);
      }
    }
    if NeverDrifts(self, inputs) {
      forall n | 0 <= n <= |inputs| ensures AgreesAfter(self, inputs[..n]) {
        UndriftedAgrees(self, inputs, n);
      }
    }
  }

  /** `h` is the peer of an established session: the host its SessionConnected named. */
  ghost predicate Peer(s: Layer, h: Host) {
    exists t :: StatusAt(s, t) == Some(Established) && HeldBy(s.log, t, h)
  }

  /** Once everything is dispatched, membership's view is the peers of established sessions.
      `tables` are the retry tables the events found. */
  ghost predicate ViewIsTrue(tables: seq<Retry.Table>, self: Host, inputs: seq<Input>)
    requires |tables| == |Run(self, inputs).log|
  {
    var s := Run(self, inputs);
    forall h :: h in Membership.Run(Retry.Fanned(tables, s.log)).view <==> Peer(s, h)
  }

  /** Whatever is being retried. */
  ghost predicate ViewIsTrueAfter(self: Host, inputs: seq<Input>) {
    forall tables | |tables| == |Run(self, inputs).log| :: ViewIsTrue(tables, self, inputs)
  }

  lemma ViewIsAgreement(tables: seq<Retry.Table>, self: Host, inputs: seq<Input>)
    requires |tables| == |Run(self, inputs).log|
    ensures ViewIsTrue(tables, self, inputs) <==> AgreesAfter(self, inputs)
  {
    var s := Run(self, inputs);
    forall h
      ensures h in Membership.Run(Retry.Fanned(tables, s.log)).view <==> Membership.Linked(s.log, h)
      ensures Peer(s, h) <==> Held(s.log, h)
    {
      Membership.ViewFollowsSessions(tables, s.log, h);
      PeersAreHeld(self, inputs, h);
    }
  }

  lemma TrueIsAgreement(self: Host, inputs: seq<Input>)
    ensures ViewIsTrueAfter(self, inputs) <==> AgreesAfter(self, inputs)
  {
    forall tables | |tables| == |Run(self, inputs).log|
      ensures ViewIsTrue(tables, self, inputs) <==> AgreesAfter(self, inputs)
    {
      ViewIsAgreement(tables, self, inputs);
    }
    var some := seq(|Run(self, inputs).log|, _ => Retry.Empty(0));
    assert ViewIsTrue(some, self, inputs) <==> AgreesAfter(self, inputs);
  }

  lemma PeersAreHeld(self: Host, inputs: seq<Input>, h: Host)
    ensures Peer(Run(self, inputs), h) <==> Held(Run(self, inputs).log, h)
  {
    var s := Run(self, inputs);
    forall t | HeldBy(s.log, t, h) ensures StatusAt(s, t) == Some(Established) {
      EstablishedIffRaised(self, inputs, t);
    }
  }

  /** From inputs of the session layer to the view, through dispatcher and membership, whatever
      happens to the retry table between events: the view is the peers of the established
      sessions throughout a run if and only if no input of the run drifts. What drifts is the
      failure of the last session with a peer, a disconnect naming a peer that another session
      still holds (both peers dialled, or a dial to a connected peer did not come up), and the
      disconnect of a session whose mapping an explicit disconnect had taken away. */
  lemma ViewCondition(self: Host, inputs: seq<Input>)
    ensures (forall n :: 0 <= n <= |inputs| ==> ViewIsTrueAfter(self, inputs[..n]))
       <==> NeverDrifts(self, inputs)
  {
    forall n | 0 <= n <= |inputs|
      ensures ViewIsTrueAfter(self, inputs[..n]) <==> AgreesAfter(self, inputs[..n])
    {
      TrueIsAgreement(self, inputs[..n]);
    }
    AgreementCondition(self, inputs);
  }

  // --- each kind of drift happens ----------------------------------------------------------------------

  /** The view is wrong after `inputs`, whatever is being retried. */
  ghost predicate ViewIsWrong(self: Host, inputs: seq<Input>) {
    forall tables | |tables| == |Run(self, inputs).log| :: !ViewIsTrue(tables, self, inputs)
  }

  lemma WrongOn(self: Host, inputs: seq<Input>, h: Host)
    requires !AgreesOn(Run(self, inputs).log, h)
    ensures ViewIsWrong(self, inputs)
  {
    assert !AgreesAfter(self, inputs) by {
      assert Membership.Linked(Run(self, inputs).log, h) != Held(Run(self, inputs).log, h);
    }
    forall tables | |tables| == |Run(self, inputs).log| ensures !ViewIsTrue(tables, self, inputs) {
      ViewIsAgreement(tables, self, inputs);
    }
  }

  lemma DialledLog(self: Host, peer: Host)
    requires HostOnWire(self).Some?
    ensures Dialled(self, peer).log == [Up(peer, peer, false)]
    ensures StatusAt(Dialled(self, peer), peer) == Some(Established) && MapToHost(Dialled(self, peer), peer) == peer
  {
  }

  lemma FailedLog(s: Layer, t: Host)
    ensures OnFailed(s, t).log == s.log + [Fell(t, MapToHost(s, t))]
  {
  }

  lemma LostLog(s: Layer, t: Host)
    requires StatusAt(s, t) == Some(Established)
    ensures OnDisconnected(s, t).log == s.log + [Down(t, MapToHost(s, t))]
  {
  }

  /** After one session with `h` came up and failed, or was taken down under another name,
      nobody holds `h` but the view still has it. */
  lemma LoneEnd(t: Host, h: Host, accepted: bool, more: seq<Entry>)
    requires more == [Fell(t, h)] || (h != t && more == [Unmapped(t), Down(t, t)])
    ensures !AgreesOn([Up(t, h, accepted)] + more, h)
  {
    var up := [Up(t, h, accepted)];
    LinkedAfter([], Up(t, h, accepted), h);
    assert [] + up == up;
    LinkedAfter(up, more[0], h);
    HeldAfter([], Up(t, h, accepted), h);
    OnlyHolder(t, h, accepted);
    HeldAfter(up, more[0], h);
    assert up + [more[0]] == [Up(t, h, accepted), more[0]];
    if |more| == 1 {
      assert up + more == up + [more[0]];
    } else {
      OthersStayHeld(up, more[0], h);
      LinkedAfter(up + [more[0]], more[1], h);
      HeldAfter(up + [more[0]], more[1], h);
      assert up + more == up + [more[0]] + [more[1]];
    }
  }

  lemma OnlyHolder(t: Host, h: Host, accepted: bool)
    ensures !HeldElsewhere([Up(t, h, accepted)], t, h)
  {
    assert forall x :: !HeldBy([], x, h);
    OthersStayHeld([], Up(t, h, accepted), h);
    assert [] + [Up(t, h, accepted)] == [Up(t, h, accepted)];
  }

  /** Kind one: the only session with a peer fails. The peer stays in the view. */
  lemma FailureSkewsView(self: Host, peer: Host) returns (inputs: seq<Input>)
    requires HostOnWire(self).Some?
    ensures ViewIsWrong(self, inputs)
  {
    var dialled := DialledRun(self, peer);
    DialledLog(self, peer);
    RunSnoc(self, dialled, TransportFailed(peer));
    FailedLog(Dialled(self, peer), peer);
    inputs := dialled + [TransportFailed(peer)];
    LoneEnd(peer, peer, false, [Fell(peer, peer)]);
    WrongOn(self, inputs, peer);
  }

  lemma CrossedLog(self: Host, peer: Host, ephemeral: Host)
    requires HostOnWire(self).Some? && peer != ephemeral
    ensures OnDisconnected(OnHandshake(Dialled(self, peer), ephemeral, Hello(peer)), peer).log
         == [Up(peer, peer, false), Up(ephemeral, peer, true)] + [Down(peer, peer)]
  {
    DialledMaps(self, peer);
    DialledLog(self, peer);
    var s := OnHandshake(Dialled(self, peer), ephemeral, Hello(peer));
    assert s.log == [Up(peer, peer, false), Up(ephemeral, peer, true)];
    assert StatusAt(s, peer) == Some(Established) && MapToHost(s, peer) == peer;
    LostLog(s, peer);
  }

  /** Two sessions with a peer, one of which goes down: the other still holds it. */
  lemma SharedEnd(peer: Host, ephemeral: Host)
    requires peer != ephemeral
    ensures !AgreesOn([Up(peer, peer, false), Up(ephemeral, peer, true)] + [Down(peer, peer)], peer)
  {
    var up := [Up(peer, peer, false)];
    var both := [Up(peer, peer, false), Up(ephemeral, peer, true)];
    assert up + [Up(ephemeral, peer, true)] == both;
    LogGrows(up, Up(ephemeral, peer, true), ephemeral);
    assert HeldBy(both, ephemeral, peer);
    HeldAfter(both, Down(peer, peer), peer);
    LinkedAfter(both, Down(peer, peer), peer);
  }

  /** Kind two: both peers dial, and the older connection goes down. The view drops a peer that
      the inbound session still holds. */
  lemma CrossedDialsSkewView(self: Host, peer: Host, ephemeral: Host) returns (inputs: seq<Input>)
    requires HostOnWire(self).Some? && HostOnWire(peer).Some? && 0 <= peer.port < 0x1_0000 && peer != ephemeral
    ensures ViewIsWrong(self, inputs)
  {
    inputs := CrossedRun(self, peer, ephemeral);
    CrossedLog(self, peer, ephemeral);
    SharedEnd(peer, ephemeral);
    WrongOn(self, inputs, peer);
  }

  lemma HungUpLog(self: Host, peer: Host, t: Host)
    ensures OnDisconnected(DisconnectHost(OnHandshake(Fresh(self), t, Hello(peer)), t), t).log
         == [Up(t, peer, true)] + [Unmapped(t), Down(t, t)]
  {
    var s := OnHandshake(Fresh(self), t, Hello(peer));
    assert s.log == [Up(t, peer, true)] && t in s.toLogical;
    var s1 := DisconnectHost(s, t);
    assert s1.log == s.log + [Unmapped(t)] && StatusAt(s1, t) == Some(Established) && MapToHost(s1, t) == t;
    LostLog(s1, t);
  }

  lemma HungUpRun(self: Host, inputs: seq<Input>, t: Host) returns (more: seq<Input>)
    ensures Run(self, more) == DisconnectHost(Run(self, inputs), t)
  {
    RunSnoc(self, inputs, Disconnect(t));
    more := inputs + [Disconnect(t)];
  }

  /** Kind three: an accepted session is disconnected explicitly by its transport host. Its end
      is announced under that host, and the peer stays in the view. */
  lemma HangupSkewsView(self: Host, peer: Host, ephemeral: Host) returns (inputs: seq<Input>)
    requires HostOnWire(peer).Some? && 0 <= peer.port < 0x1_0000 && peer != ephemeral
    ensures ViewIsWrong(self, inputs)
  {
    inputs := HelloRun(self, [], ephemeral, peer);
    inputs := HungUpRun(self, inputs, ephemeral);
    inputs := LostRun(self, inputs, ephemeral);
    HungUpLog(self, peer, ephemeral);
    LoneEnd(ephemeral, peer, true, [Unmapped(ephemeral), Down(ephemeral, ephemeral)]);
    WrongOn(self, inputs, peer);
  }
}
