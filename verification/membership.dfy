/** The membership layer of the gossip example: `cmd/gossip/membership/protocol.go`, and its
    place at the end of the runtime's session-event fan-out. */
module Membership {
  import opened Bytes
  import opened Hosts
  import Session
  import opened Retry

  /** A `ViewChanged` notification. */
  datatype Note = Added(host: Host) | Removed(host: Host)

  /** The view, and every notification published so far. */
  datatype State = State(view: set<Host>, published: seq<Note>)

  function OnEvent(s: State, ev: ProtoEvent): State {
    match ev
    case PeerConnected(h) => if h in s.view then s else State(s.view + {h}, s.published + [Added(h)])
    case PeerDisconnected(h) => if h !in s.view then s else State(s.view - {h}, s.published + [Removed(h)])
    case PeerGivenUp(_, _) => s
  }

  function Run(events: seq<ProtoEvent>): State {
    if events == [] then State({}, []) else OnEvent(Run(events[..|events| - 1]), events[|events| - 1])
  }

  class Protocol {
    var view: set<Host>
    var published: seq<Note>

    ghost function Now(): State
      reads this
    {
      State(view, published)
    }

    constructor ()
      ensures Now() == Run([])
    {
      view, published := {}, [];
    }

    method OnSessionConnected(h: Host)
      modifies this
      ensures Now() == OnEvent(old(Now()), PeerConnected(h))
    {
      if h in view { return; }
      view := view + {h};
      published := published + [Added(h)];
    }

    method OnSessionDisconnected(h: Host)
      modifies this
      ensures Now() == OnEvent(old(Now()), PeerDisconnected(h))
    {
      if h !in view { return; }
      view := view - {h};
      published := published + [Removed(h)];
    }

    /** Any sequence of session events leaves the state of that run. */
    method Serve(events: seq<ProtoEvent>)
      requires Now() == Run([])
      modifies this
      ensures Now() == Run(events)
    {
      assert events[..0] == [];
      for n := 0 to |events|
        invariant Now() == Run(events[..n])
      {
        assert events[..n + 1][..n] == events[..n];
        match events[n] {
          case PeerConnected(h) => OnSessionConnected(h);
          case PeerDisconnected(h) => OnSessionDisconnected(h);
          case PeerGivenUp(_, _) =>
        }
      }
      assert events[..|events|] == events;
    }

    /** `handleGetView`: the hosts of the view, each once, in some order. */
    method HandleGetView() returns (peers: seq<Host>)
      ensures Lists(peers, view)
    {
      peers := [];
      var left := view;
      while left != {}
        invariant left <= view && Lists(peers, view - left)
        decreases left
      {
        var h :| h in left;
        left := left - {h};
        peers := peers + [h];
      }
    }
  }

  ghost predicate Lists(peers: seq<Host>, view: set<Host>) {
    && (forall j, k :: 0 <= j < k < |peers| ==> peers[j] != peers[k])
    && (forall h :: h in peers <==> h in view)
  }

  // --- folding notifications -------------------------------------------------------------------------

  function Apply(view: set<Host>, n: Note): set<Host> {
    match n case Added(h) => view + {h} case Removed(h) => view - {h}
  }

  function Fold(view: set<Host>, notes: seq<Note>): set<Host> {
    if notes == [] then view else Apply(Fold(view, notes[..|notes| - 1]), notes[|notes| - 1])
  }

  lemma {:induction false} FoldAppend(view: set<Host>, a: seq<Note>, b: seq<Note>)
    ensures Fold(view, a + b) == Fold(Fold(view, a), b)
    decreases |b|
  {
    if b == [] {
      assert a + b == a;
    } else {
      var n := |b| - 1;
      FoldAppend(view, a, b[..n]);
      assert (a + b)[..|a + b| - 1] == a + b[..n];
    }
  }

  /** What the latest notification about a host says, if there is one. */
  function Latest(notes: seq<Note>, h: Host): Option<bool> {
    if notes == [] then None
    else
      var n := notes[|notes| - 1];
      if n.host == h then Some(n.Added?) else Latest(notes[..|notes| - 1], h)
  }

  /** Folding is decided host by host, by the latest notification or else by the start. */
  lemma {:induction false} FoldIsLatest(view: set<Host>, notes: seq<Note>, h: Host)
    ensures h in Fold(view, notes) <==> (if Latest(notes, h).Some? then Latest(notes, h).value else h in view)
    decreases |notes|
  {
    if notes == [] {
    } else {
      FoldIsLatest(view, notes[..|notes| - 1], h);
    }
  }

  // --- the history of membership ------------------------------------------------------------------------

  /** Notification `j` adds a host that is out or removes one that is in. */
  ghost predicate Alternates(notes: seq<Note>) {
    forall j :: 0 <= j < |notes| ==> (notes[j].Added? <==> notes[j].host !in Fold({}, notes[..j]))
  }

  function Balance(notes: seq<Note>): int {
    if notes == [] then 0
    else Balance(notes[..|notes| - 1]) + if notes[|notes| - 1].Added? then 1 else -1
  }

  /** Whether the latest connect or disconnect event about a host was a connect. */
  function LatestEvent(events: seq<ProtoEvent>, h: Host): bool {
    if events == [] then false
    else match events[|events| - 1]
         case PeerConnected(x) => x == h || LatestEvent(events[..|events| - 1], h)
         case PeerDisconnected(x) => x != h && LatestEvent(events[..|events| - 1], h)
         case PeerGivenUp(_, _) => LatestEvent(events[..|events| - 1], h)
  }

  lemma NoteGrows(notes: seq<Note>, n: Note)
    requires Alternates(notes) && (n.Added? <==> n.host !in Fold({}, notes))
    ensures Alternates(notes + [n]) && Fold({}, notes + [n]) == Apply(Fold({}, notes), n)
    ensures Balance(notes + [n]) == Balance(notes) + if n.Added? then 1 else -1
  {
    var more := notes + [n];
    assert more[..|notes|] == notes;
    forall j | 0 <= j < |more| ensures more[j].Added? <==> more[j].host !in Fold({}, more[..j]) {
      assert j < |notes| ==> more[..j] == notes[..j];
    }
  }

  /** Membership over every sequence of delivered events: the published notifications
      alternate per host and fold to the view, adds minus removes is the size of the view,
      and the view is exactly the hosts whose latest session event was Connected. */
  lemma {:induction false} MembershipHistory(events: seq<ProtoEvent>)
    ensures var s := Run(events);
            && Alternates(s.published) && Fold({}, s.published) == s.view
            && Balance(s.published) == |s.view|
            && forall h :: h in s.view <==> LatestEvent(events, h)
    decreases |events|
  {
    if events == [] {
    } else {
      var s, ev := Run(events[..|events| - 1]), events[|events| - 1];
      MembershipHistory(events[..|events| - 1]);
      match ev
      case PeerConnected(h) => if h !in s.view { NoteGrows(s.published, Added(h)); }
      case PeerDisconnected(h) => if h in s.view { NoteGrows(s.published, Removed(h)); }
      case PeerGivenUp(_, _) =>
    }
  }

  function Opposite(n: Note): Note {
    if n.Added? then Removed(n.host) else Added(n.host)
  }

  /** Notes about one host that never turn leave it where the first of them put it. */
  lemma {:induction false} TurnsOrRepeats(notes: seq<Note>, n: Note)
    requires n in notes
    ensures Opposite(n) in notes || Latest(notes, n.host) == Some(n.Added?)
    decreases |notes|
  {
    var last := notes[|notes| - 1];
    assert last in notes;
    if last.host != n.host {
      assert notes == notes[..|notes| - 1] + [last];
      TurnsOrRepeats(notes[..|notes| - 1], n);
    }
  }

  lemma AlternatingTurns(notes: seq<Note>, j: nat, k: nat)
    requires Alternates(notes) && j < k < |notes| && notes[j] == notes[k]
    ensures Opposite(notes[j]) in notes[j..k]
  {
    assert notes[..k] == notes[..j] + notes[j..k] && notes[j..k][0] == notes[j];
    FoldAppend({}, notes[..j], notes[j..k]);
    FoldIsLatest(Fold({}, notes[..j]), notes[j..k], notes[j].host);
    TurnsOrRepeats(notes[j..k], notes[j]);
  }

  /** Between two equal notifications about a host lies the opposite one. */
  lemma NotificationsAlternate(events: seq<ProtoEvent>, j: nat, k: nat)
    requires var notes := Run(events).published; j < k < |notes| && notes[j] == notes[k]
    ensures var notes := Run(events).published; Opposite(notes[j]) in notes[j..k]
  {
    MembershipHistory(events);
    AlternatingTurns(Run(events).published, j, k);
  }

  // --- from session events to the view --------------------------------------------------------------------

  /** Whether the latest SessionConnected or SessionDisconnected naming a host was a connect.
      SessionFailed does not count. */
  function Linked(log: seq<Session.Entry>, h: Host): bool {
    if log == [] then false
    else
      var before := Linked(log[..|log| - 1], h);
      match log[|log| - 1]
      case Up(_, x, _) => x == h || before
      case Down(_, x) => x != h && before
      case _ => before
  }

  lemma LatestEventSnoc(events: seq<ProtoEvent>, ev: ProtoEvent, h: Host)
    ensures LatestEvent(events + [ev], h)
         == match ev
            case PeerConnected(x) => x == h || LatestEvent(events, h)
            case PeerDisconnected(x) => x != h && LatestEvent(events, h)
            case PeerGivenUp(_, _) => LatestEvent(events, h)
  {
    assert (events + [ev])[..|events|] == events;
  }

  lemma NoticeIsSilent(t: Table, events: seq<ProtoEvent>, x: Host, h: Host)
    ensures LatestEvent(events + GiveUpNotice(t, x), h) == LatestEvent(events, h)
  {
    if GivesUp(t, x) {
      LatestEventSnoc(events, PeerGivenUp(x, t.entries[x].attempt + 1), h);
    } else {
      assert events + [] == events;
    }
  }

  lemma FanoutMovesLatest(t: Table, events: seq<ProtoEvent>, e: Session.Entry, h: Host)
    ensures LatestEvent(events + DispatchFanout(t, e), h)
         == match e
            case Up(_, x, _) => x == h || LatestEvent(events, h)
            case Down(_, x) => x != h && LatestEvent(events, h)
            case _ => LatestEvent(events, h)
  {
    match e
    case Up(_, x, _) => LatestEventSnoc(events, PeerConnected(x), h);
    case Down(_, x) =>
      var notice := GiveUpNotice(t, x);
      assert events + (notice + [PeerDisconnected(x)]) == events + notice + [PeerDisconnected(x)];
      NoticeIsSilent(t, events, x, h);
      LatestEventSnoc(events + notice, PeerDisconnected(x), h);
    case Fell(_, x) => NoticeIsSilent(t, events, x, h);
    case _ => assert events + [] == events;
  }

  lemma {:induction false} EventsFollowSessions(tables: seq<Table>, log: seq<Session.Entry>, h: Host)
    requires |tables| == |log|
    ensures LatestEvent(Fanned(tables, log), h) <==> Linked(log, h)
    decreases |log|
  {
    if log == [] {
    } else {
      var n := |log| - 1;
      EventsFollowSessions(tables[..n], log[..n], h);
      FanoutMovesLatest(tables[n], Fanned(tables[..n], log[..n]), log[n], h);
    }
  }

  /** End to end: whatever calls and timers do to the retry table between events, the view that
      membership derives from a session log is the hosts whose latest Connected or
      Disconnected event was Connected. */
  lemma ViewFollowsSessions(tables: seq<Table>, log: seq<Session.Entry>, h: Host)
    requires |tables| == |log|
    ensures h in Run(Fanned(tables, log)).view <==> Linked(log, h)
  {
    MembershipHistory(Fanned(tables, log));
    EventsFollowSessions(tables, log, h);
  }

  /** A failure never shrinks the view: SessionFailed is not passed on as a disconnect, even
      when it ends an established session. */
  lemma FailureIsInvisible(tables: seq<Table>, log: seq<Session.Entry>, t: Table, session: Host, h: Host)
    requires |tables| == |log|
    ensures Run(Fanned(tables + [t], log + [Session.Fell(session, h)])).view == Run(Fanned(tables, log)).view
  {
    var more := log + [Session.Fell(session, h)];
    assert more[..|log|] == log;
    forall x ensures x in Run(Fanned(tables + [t], more)).view <==> x in Run(Fanned(tables, log)).view {
      ViewFollowsSessions(tables + [t], more, x);
      ViewFollowsSessions(tables, log, x);
    }
  }
}
