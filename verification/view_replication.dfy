/** How the gossip protocol's view follows the membership protocol's: notifications arrive in
    order on one channel, the answer to the initial GetView on another, and gossip may take
    from either first (`cmd/gossip/membership/protocol.go`, `handleInitialView` and
    `handleViewChanged` in `cmd/gossip/gossip/protocol.go`). */
module ViewReplication {
  import opened Bytes
  import opened Hosts
  import Retry
  import opened Gossip
  import opened Membership

  /** The answer to GetView and how much had been published when it was given. */
  datatype Snapshot = Snapshot(peers: seq<Host>, at: nat)

  /** `consumed` counts the notifications gossip has taken; `installed` is that count at the
      moment the snapshot replaced its view. */
  datatype Sys = Sys(
    members: Membership.State,
    snapshot: Option<Snapshot>,
    view: seq<Host>,
    consumed: nat,
    installed: Option<nat>)

  datatype Step =
    | SessionEvent(ev: Retry.ProtoEvent)
    | AnswerGetView(peers: seq<Host>)
    | TakeNotification
    | TakeReply

  function Boot(): Sys {
    Sys(Membership.Run([]), None, [], 0, None)
  }

  ghost predicate Enabled(s: Sys, step: Step) {
    match step
    case SessionEvent(_) => true
    case AnswerGetView(peers) => s.snapshot.None? && Lists(peers, s.members.view)
    case TakeNotification => s.consumed < |s.members.published|
    case TakeReply => s.snapshot.Some? && s.installed.None?
  }

  ghost function Next(s: Sys, step: Step): Sys {
    if !Enabled(s, step) then s else
    match step
    case SessionEvent(ev) => s.(members := OnEvent(s.members, ev))
    case AnswerGetView(peers) => s.(snapshot := Some(Snapshot(peers, |s.members.published|)))
    case TakeNotification =>
      s.(view := ViewAfter(s.view, s.members.published[s.consumed]), consumed := s.consumed + 1)
    case TakeReply => s.(view := s.snapshot.value.peers, installed := Some(s.consumed))
  }

  ghost function SysRun(steps: seq<Step>): Sys {
    if steps == [] then Boot() else Next(SysRun(steps[..|steps| - 1]), steps[|steps| - 1])
  }

  // --- gossip's fold ----------------------------------------------------------------------------------

  function AsSet(view: seq<Host>): set<Host> {
    set h | h in view
  }

  ghost predicate NoDuplicates(view: seq<Host>) {
    forall j, k :: 0 <= j < k < |view| ==> view[j] != view[k]
  }

  function FoldView(view: seq<Host>, notes: seq<Note>): seq<Host> {
    if notes == [] then view else ViewAfter(FoldView(view, notes[..|notes| - 1]), notes[|notes| - 1])
  }

  lemma {:induction false} ExcludingKeepsDistinct(peers: seq<Host>, exclude: Host)
    requires NoDuplicates(peers)
    ensures NoDuplicates(Excluding(peers, exclude))
  {
    if peers == [] {
    } else {
      var n := |peers| - 1;
      ExcludingKeepsDistinct(peers[..n], exclude);
      ExcludingMembers(peers[..n], exclude);
      assert peers[n] !in peers[..n];
    }
  }

  lemma ViewAfterIsApply(view: seq<Host>, n: Note)
    ensures AsSet(ViewAfter(view, n)) == Apply(AsSet(view), n)
    ensures NoDuplicates(view) ==> NoDuplicates(ViewAfter(view, n))
  {
    match n
    case Added(h) =>
    case Removed(h) =>
      ExcludingMembers(view, h);
      if NoDuplicates(view) { ExcludingKeepsDistinct(view, h); }
  }

  /** Gossip's list tracks the set: same members, never twice. */
  lemma {:induction false} FoldViewIsFold(view: seq<Host>, notes: seq<Note>)
    ensures AsSet(FoldView(view, notes)) == Fold(AsSet(view), notes)
    ensures NoDuplicates(view) ==> NoDuplicates(FoldView(view, notes))
    decreases |notes|
  {
    if notes == [] {
    } else {
      FoldViewIsFold(view, notes[..|notes| - 1]);
      ViewAfterIsApply(FoldView(view, notes[..|notes| - 1]), notes[|notes| - 1]);
    }
  }

  lemma {:induction false} FoldViewAppend(view: seq<Host>, a: seq<Note>, b: seq<Note>)
    ensures FoldView(view, a + b) == FoldView(FoldView(view, a), b)
    decreases |b|
  {
    if b == [] {
      assert a + b == a;
    } else {
      var n := |b| - 1;
      FoldViewAppend(view, a, b[..n]);
      assert (a + b)[..|a + b| - 1] == a + b[..n];
    }
  }

  // --- the invariant ---------------------------------------------------------------------------------------

  /** What gossip's view was last reset to, and from which notification on it has folded. */
  ghost function Base(s: Sys): (seq<Host>, nat)
    requires s.installed.Some? ==> s.snapshot.Some?
  {
    if s.installed.Some? then (s.snapshot.value.peers, s.installed.value) else ([], 0)
  }

  ghost predicate SysInv(s: Sys) {
    && (s.installed.Some? ==> s.snapshot.Some? && s.installed.value <= s.consumed)
    && s.consumed <= |s.members.published|
    && Fold({}, s.members.published) == s.members.view
    && s.view == FoldView(Base(s).0, s.members.published[Base(s).1..s.consumed])
    && (s.snapshot.Some? ==>
          && s.snapshot.value.at <= |s.members.published|
          && NoDuplicates(s.snapshot.value.peers)
          && AsSet(s.snapshot.value.peers) == Fold({}, s.members.published[..s.snapshot.value.at]))
  }

  lemma EventKeeps(s: Sys, ev: Retry.ProtoEvent)
    requires SysInv(s)
    ensures SysInv(Next(s, SessionEvent(ev)))
  {
    var s' := Next(s, SessionEvent(ev));
    var notes, notes' := s.members.published, s'.members.published;
    if notes' != notes {
      assert notes'[..|notes|] == notes;
      assert notes'[Base(s).1..s.consumed] == notes[Base(s).1..s.consumed];
      if s.snapshot.Some? {
        assert notes'[..s.snapshot.value.at] == notes[..s.snapshot.value.at];
      }
    }
  }

  lemma NotificationKeeps(s: Sys)
    requires SysInv(s) && Enabled(s, TakeNotification)
    ensures SysInv(Next(s, TakeNotification))
  {
    var slice := s.members.published[Base(s).1..s.consumed + 1];
    assert slice[..|slice| - 1] == s.members.published[Base(s).1..s.consumed];
  }

  lemma AnswerKeeps(s: Sys, peers: seq<Host>)
    requires SysInv(s) && Enabled(s, AnswerGetView(peers))
    ensures SysInv(Next(s, AnswerGetView(peers)))
  {
    assert s.members.published[..|s.members.published|] == s.members.published;
  }

  lemma ReplyKeeps(s: Sys)
    requires SysInv(s) && Enabled(s, TakeReply)
    ensures SysInv(Next(s, TakeReply))
  {
    assert s.members.published[s.consumed..s.consumed] == [];
  }

  lemma NextKeeps(s: Sys, step: Step)
    requires SysInv(s) && Enabled(s, step)
    ensures SysInv(Next(s, step))
  {
    match step
    case SessionEvent(ev) => EventKeeps(s, ev);
    case AnswerGetView(peers) => AnswerKeeps(s, peers);
    case TakeNotification => NotificationKeeps(s);
    case TakeReply => ReplyKeeps(s);
  }

  lemma {:induction false} SysRunKeeps(steps: seq<Step>)
    ensures SysInv(SysRun(steps))
    decreases |steps|
  {
    if steps == [] {
    } else {
      var s, step := SysRun(steps[..|steps| - 1]), steps[|steps| - 1];
      SysRunKeeps(steps[..|steps| - 1]);
      if Enabled(s, step) { NextKeeps(s, step); }
    }
  }

  // --- convergence -----------------------------------------------------------------------------------------------

  /** Where gossip's view will be once it has taken everything published so far. */
  ghost function Settled(s: Sys): seq<Host>
    requires s.consumed <= |s.members.published|
  {
    FoldView(s.view, s.members.published[s.consumed..])
  }

  lemma SettledFromBase(s: Sys)
    requires SysInv(s)
    ensures Settled(s) == FoldView(Base(s).0, s.members.published[Base(s).1..])
  {
    var notes, b := s.members.published, Base(s);
    assert notes[b.1..] == notes[b.1..s.consumed] + notes[s.consumed..];
    FoldViewAppend(b.0, notes[b.1..s.consumed], notes[s.consumed..]);
  }

  /** Membership of one host in the settled view and in the true one. */
  lemma SettledMember(s: Sys, h: Host)
    requires SysInv(s)
    ensures var notes, b := s.members.published, Base(s);
            && (h in AsSet(Settled(s)) <==>
                  if Latest(notes[b.1..], h).Some? then Latest(notes[b.1..], h).value else h in b.0)
            && (h in s.members.view <==>
                  if Latest(notes[b.1..], h).Some? then Latest(notes[b.1..], h).value else h in Fold({}, notes[..b.1]))
  {
    var notes, b := s.members.published, Base(s);
    SettledFromBase(s);
    FoldViewIsFold(b.0, notes[b.1..]);
    FoldIsLatest(AsSet(b.0), notes[b.1..], h);
    assert notes == notes[..b.1] + notes[b.1..];
    FoldAppend({}, notes[..b.1], notes[b.1..]);
    FoldIsLatest(Fold({}, notes[..b.1]), notes[b.1..], h);
  }

  /** The base and membership's view at that point agree on every host that no later
      notification mentions. */
  ghost predicate BaseIsCurrent(s: Sys)
    requires SysInv(s)
  {
    forall h :: Latest(s.members.published[Base(s).1..], h).None? ==>
      (h in Base(s).0 <==> h in Fold({}, s.members.published[..Base(s).1]))
  }

  lemma SettledCondition(s: Sys)
    requires SysInv(s)
    ensures AsSet(Settled(s)) == s.members.view <==> BaseIsCurrent(s)
  {
    forall h ensures (h in AsSet(Settled(s)) <==> h in s.members.view)
        <==> (Latest(s.members.published[Base(s).1..], h).None? ==>
                (h in Base(s).0 <==> h in Fold({}, s.members.published[..Base(s).1])))
    {
      SettledMember(s, h);
    }
  }

  lemma SettledHasNoDuplicates(s: Sys)
    requires SysInv(s)
    ensures NoDuplicates(Settled(s))
  {
    SettledFromBase(s);
    FoldViewIsFold(Base(s).0, s.members.published[Base(s).1..]);
  }

  /** A view that has parted heals, exactly: the settled view is membership's view if and only
      if later notifications have covered every host on which the base was wrong. */
  lemma ConvergenceCondition(steps: seq<Step>)
    ensures var s := SysRun(steps);
            && SysInv(s) && NoDuplicates(Settled(s))
            && (AsSet(Settled(s)) == s.members.view <==> BaseIsCurrent(s))
  {
    SysRunKeeps(steps);
    SettledHasNoDuplicates(SysRun(steps));
    SettledCondition(SysRun(steps));
  }

  lemma {:induction false} LatestOfSuffix(notes: seq<Note>, more: seq<Note>, h: Host)
    requires Latest(notes + more, h).None?
    ensures Latest(notes, h).None?
    decreases |more|
  {
    if more == [] {
      assert notes + more == notes;
    } else {
      assert (notes + more)[..|notes + more| - 1] == notes + more[..|more| - 1];
      LatestOfSuffix(notes, more[..|more| - 1], h);
    }
  }

  /** Replaying notifications from before the snapshot cannot move a host that none of the
      notifications from there on mentions. */
  lemma SnapshotAgrees(notes: seq<Note>, from: nat, at: nat, h: Host)
    requires from <= at <= |notes| && Latest(notes[from..], h).None?
    ensures h in Fold({}, notes[..at]) <==> h in Fold({}, notes[..from])
  {
    assert notes[from..] == notes[from..at] + notes[at..];
    LatestOfSuffix(notes[from..at], notes[at..], h);
    assert notes[..at] == notes[..from] + notes[from..at];
    FoldAppend({}, notes[..from], notes[from..at]);
    FoldIsLatest(Fold({}, notes[..from]), notes[from..at], h);
  }

  /** View convergence: if gossip took no notification published after the snapshot before it
      installed the snapshot, or has not installed it at all, its settled view is membership's
      view, without duplicates. Notifications from before the snapshot may be replayed on top
      of it in any number. */
  lemma ViewConverges(steps: seq<Step>)
    requires var s := SysRun(steps);
             s.installed.Some? ==> s.snapshot.Some? && s.installed.value <= s.snapshot.value.at
    ensures var s := SysRun(steps);
            SysInv(s) && NoDuplicates(Settled(s)) && AsSet(Settled(s)) == s.members.view
  {
    ConvergenceCondition(steps);
    BaseAgrees(SysRun(steps));
  }

  lemma BaseAgrees(s: Sys)
    requires SysInv(s) && (s.installed.Some? ==> s.installed.value <= s.snapshot.value.at)
    ensures BaseIsCurrent(s)
  {
    var notes, b := s.members.published, Base(s);
    forall h | Latest(notes[b.1..], h).None? ensures h in b.0 <==> h in Fold({}, notes[..b.1]) {
      if s.installed.Some? {
        SnapshotAgrees(notes, b.1, s.snapshot.value.at, h);
        assert h in b.0 <==> h in AsSet(b.0);
      }
    }
  }

  // --- the step that breaks convergence -----------------------------------------------------------------------------

  /** Once gossip has taken everything published so far it will have membership's view. */
  ghost predicate Converged(s: Sys)
    requires s.consumed <= |s.members.published|
  {
    AsSet(Settled(s)) == s.members.view
  }

  /** The reply gossip is about to take differs from the view it has on a host that none of its
      queued notifications is going to put right. */
  ghost predicate Reverts(s: Sys)
    requires s.snapshot.Some? && s.consumed <= |s.members.published|
  {
    exists h :: Latest(s.members.published[s.consumed..], h).None?
             && (h in AsSet(s.snapshot.value.peers)) != (h in AsSet(s.view))
  }

  /** Before the reply, gossip's view is membership's as of what it has consumed. */
  lemma ViewBeforeReply(s: Sys)
    requires SysInv(s) && s.installed.None?
    ensures AsSet(s.view) == Fold({}, s.members.published[..s.consumed])
  {
    assert s.members.published[0..s.consumed] == s.members.published[..s.consumed];
    FoldViewIsFold([], s.members.published[..s.consumed]);
    assert AsSet([]) == {};
  }

  /** Taking the reply leaves gossip converged if and only if it does not revert. */
  lemma ReplyCondition(s: Sys)
    requires SysInv(s) && Enabled(s, TakeReply)
    ensures SysInv(Next(s, TakeReply))
    ensures Converged(Next(s, TakeReply)) <==> !Reverts(s)
  {
    var s' := Next(s, TakeReply);
    ReplyKeeps(s);
    ViewBeforeReply(s);
    SettledCondition(s');
    assert Base(s') == (s.snapshot.value.peers, s.consumed);
    forall h ensures h in AsSet(s.snapshot.value.peers) <==> h in Base(s').0 {
    }
  }

  lemma {:induction false} FoldViewCons(view: seq<Host>, n: Note, notes: seq<Note>)
    ensures FoldView(view, [n] + notes) == FoldView(ViewAfter(view, n), notes)
  {
    FoldViewAppend(view, [n], notes);
    assert [n][..0] == [];
  }

  lemma NotificationConverges(s: Sys)
    requires SysInv(s) && Enabled(s, TakeNotification) && Converged(s)
    ensures Next(s, TakeNotification).consumed <= |s.members.published| && Converged(Next(s, TakeNotification))
  {
    var notes := s.members.published;
    assert notes[s.consumed..] == [notes[s.consumed]] + notes[s.consumed + 1..];
    FoldViewCons(s.view, notes[s.consumed], notes[s.consumed + 1..]);
  }

  lemma FoldViewSnoc(view: seq<Host>, notes: seq<Note>, n: Note)
    ensures FoldView(view, notes + [n]) == ViewAfter(FoldView(view, notes), n)
  {
    assert (notes + [n])[..|notes|] == notes;
  }

  /** An event publishes at most one notification, which is what it does to the view. */
  lemma EventPublishes(m: Membership.State, ev: Retry.ProtoEvent) returns (n: Option<Note>)
    ensures n.None? ==> OnEvent(m, ev) == m
    ensures n.Some? ==> OnEvent(m, ev) == Membership.State(Apply(m.view, n.value), m.published + [n.value])
  {
    n := match ev
      case PeerConnected(h) => if h in m.view then None else Some(Added(h))
      case PeerDisconnected(h) => if h in m.view then Some(Removed(h)) else None
      case PeerGivenUp(_, _) => None;
  }

  lemma EventConverges(s: Sys, ev: Retry.ProtoEvent)
    requires SysInv(s) && Converged(s)
    ensures var s' := Next(s, SessionEvent(ev)); s'.consumed <= |s'.members.published| && Converged(s')
  {
    var n := EventPublishes(s.members, ev);
    if n.Some? {
      var notes := s.members.published;
      assert (notes + [n.value])[s.consumed..] == notes[s.consumed..] + [n.value];
      FoldViewSnoc(s.view, notes[s.consumed..], n.value);
      ViewAfterIsApply(Settled(s), n.value);
    }
  }

  ghost predicate ConvergedAfter(steps: seq<Step>) {
    SysInv(SysRun(steps)) && Converged(SysRun(steps))
  }

  ghost predicate RevertsAfter(steps: seq<Step>, step: Step) {
    var s := SysRun(steps);
    SysInv(s) && Enabled(s, step) && step.TakeReply? && Reverts(s)
  }

  /** One step, exactly: a converged system stays so if and only if the step is not a reply that
      reverts. */
  lemma ConvergenceStep(steps: seq<Step>, step: Step)
    requires ConvergedAfter(steps)
    ensures ConvergedAfter(steps + [step]) <==> !RevertsAfter(steps, step)
  {
    var s := SysRun(steps);
    SysSnoc(steps, step);
    SysRunKeeps(steps + [step]);
    if Enabled(s, step) {
      match step
      case SessionEvent(ev) => EventConverges(s, ev);
      case AnswerGetView(_) =>
      case TakeNotification => NotificationConverges(s);
      case TakeReply => ReplyCondition(s);
    }
  }

  lemma {:induction false} UnrevertedConverges(steps: seq<Step>, n: nat)
    requires n <= |steps|
    requires forall m :: 0 <= m < |steps| ==> !RevertsAfter(steps[..m], steps[m])
    ensures ConvergedAfter(steps[..n])
  {
    if n == 0 {
      SysRunKeeps([]);
    } else {
      UnrevertedConverges(steps, n - 1);
      assert steps[..n] == steps[..n - 1] + [steps[n - 1]];
      assert !RevertsAfter(steps[..n - 1], steps[n - 1]);
      ConvergenceStep(steps[..n - 1], steps[n - 1]);
    }
  }

  /** Over every run: gossip is converged throughout if and only if the reply, if it is taken,
      does not revert in the state it finds. The condition is one gossip itself could check
      when it takes the reply: its view, the reply and its queue decide it. */
  lemma ThroughoutCondition(steps: seq<Step>)
    ensures (forall n :: 0 <= n <= |steps| ==> ConvergedAfter(steps[..n]))
       <==> (forall n :: 0 <= n < |steps| ==> !RevertsAfter(steps[..n], steps[n]))
  {
    if forall n :: 0 <= n <= |steps| ==> ConvergedAfter(steps[..n]) {
      forall n | 0 <= n < |steps| ensures !RevertsAfter(steps[..n], steps[n]) {
        assert steps[..n + 1] == steps[..n] + [steps[n]];
        assert ConvergedAfter(steps[..n]) && ConvergedAfter(steps[..n + 1]);
        ConvergenceStep(steps[..n], steps[n]);
      }
    }
    if forall n :: 0 <= n < |steps| ==> !RevertsAfter(steps[..n], steps[n]) {
      forall n | 0 <= n <= |steps| ensures ConvergedAfter(steps[..n]) {
        UnrevertedConverges(steps, n);
      }
    }
  }

  lemma SysSnoc(steps: seq<Step>, step: Step)
    ensures SysRun(steps + [step]) == Next(SysRun(steps), step)
  {
    assert (steps + [step])[..|steps|] == steps;
  }

  /** Without that condition a peer can be missing for good: gossip takes the notification that
      adds a host, then installs the empty snapshot answered before it. */
  lemma StaleSnapshotLosesPeer(h: Host) returns (steps: seq<Step>)
    ensures var s := SysRun(steps);
            s.consumed == |s.members.published| && s.view == [] && s.members.view == {h}
  {
    SysSnoc([], AnswerGetView([]));
    steps := [] + [AnswerGetView([])];
    SysSnoc(steps, SessionEvent(Retry.PeerConnected(h)));
    steps := steps + [SessionEvent(Retry.PeerConnected(h))];
    SysSnoc(steps, TakeNotification);
    steps := steps + [TakeNotification];
    SysSnoc(steps, TakeReply);
    steps := steps + [TakeReply];
  }
}
