/** What the reconnect engine of module `Reconnect` has done, told in terms of the session
    events it dispatched: its retry table is the table of a history, its session layer is the
    layer of a run, and what it fanned out is what membership has seen. */
module Engine {
  import opened Bytes
  import opened Hosts
  import opened Session
  import opened Retry
  import opened Reconnect
  import Membership
  import SessionViews

  // --- the retry table ---------------------------------------------------------------------------

  function ActOf(e: Entry): TableStep {
    match e
    case Up(_, h, _) => DoUp(h)
    case Down(_, h) => DoDown(h)
    case Fell(_, h) => DoDown(h)
    case _ => DoNothing
  }

  /** The session event a step takes off the channel and dispatches. */
  function EventOf(s: Sys, step: SysStep): Option<Entry> {
    if step == DispatchEvent && s.consumed < |s.layer.log| then Some(s.layer.log[s.consumed]) else None
  }

  /** What a step of the engine does to the retry table. */
  function TableAct(s: Sys, step: SysStep): TableStep {
    match step
    case CallConnectWithRetry(h) => DoTrack(h)
    case CallDisconnect(h) => DoStop(h)
    case TimerFires(id) => if id in s.table.armed then DoFire(id) else DoNothing
    case DispatchEvent => if EventOf(s, step).Some? then ActOf(EventOf(s, step).value) else DoNothing
    case _ => DoNothing
  }

  lemma DispatchIsAct(t: Table, e: Entry)
    ensures DispatchTable(t, e) == Apply(t, ActOf(e))
  {
  }

  /** The table moves as `act` says. */
  ghost predicate Acts(s: Sys, step: SysStep, act: TableStep) {
    Move(s, step).table == Apply(s.table, act)
  }

  lemma CallActs(s: Sys, h: Host)
    ensures Acts(s, CallConnectWithRetry(h), DoTrack(h)) && Acts(s, CallDisconnect(h), DoStop(h))
  {
  }

  lemma TimerActs(s: Sys, id: nat)
    ensures Acts(s, TimerFires(id), TableAct(s, TimerFires(id)))
  {
  }

  lemma DispatchActs(s: Sys)
    ensures Acts(s, DispatchEvent, TableAct(s, DispatchEvent))
  {
    var e := EventOf(s, DispatchEvent);
    if e.Some? {
      DispatchIsAct(s.table, e.value);
      assert Move(s, DispatchEvent).table == DispatchTable(s.table, e.value);
    }
  }

  lemma OthersKeepTable(s: Sys, step: SysStep)
    requires !step.CallConnectWithRetry? && !step.CallDisconnect? && !step.TimerFires? && !step.DispatchEvent?
    ensures Acts(s, step, DoNothing)
  {
  }

  lemma ActIsMove(s: Sys, step: SysStep)
    ensures Acts(s, step, TableAct(s, step))
  {
    if step.CallConnectWithRetry? || step.CallDisconnect? {
      CallActs(s, step.host);
    } else if step.TimerFires? {
      TimerActs(s, step.timer);
    } else if step.DispatchEvent? {
      DispatchActs(s);
    } else {
      OthersKeepTable(s, step);
    }
  }

  function Trace(self: Host, maxAttempts: int, steps: seq<SysStep>): (trace: seq<TableStep>)
    ensures |trace| == |steps|
  {
    if steps == [] then []
    else
      var n := |steps| - 1;
      Trace(self, maxAttempts, steps[..n]) + [TableAct(SysRun(self, maxAttempts, steps[..n]), steps[n])]
  }

  /** The engine's retry table is the table of its history. */
  lemma {:induction false} TraceIsTable(self: Host, maxAttempts: int, steps: seq<SysStep>)
    ensures SysRun(self, maxAttempts, steps).table == TableRun(maxAttempts, Trace(self, maxAttempts, steps))
    decreases |steps|
  {
    if steps == [] {
    } else {
      var n := |steps| - 1;
      TraceIsTable(self, maxAttempts, steps[..n]);
      ActIsMove(SysRun(self, maxAttempts, steps[..n]), steps[n]);
      assert Trace(self, maxAttempts, steps)[..n] == Trace(self, maxAttempts, steps[..n]);
    }
  }

  lemma TraceLast(self: Host, maxAttempts: int, steps: seq<SysStep>)
    requires steps != []
    ensures var n := |steps| - 1;
            && Trace(self, maxAttempts, steps)[..n] == Trace(self, maxAttempts, steps[..n])
            && Trace(self, maxAttempts, steps)[n] == TableAct(SysRun(self, maxAttempts, steps[..n]), steps[n])
  {
  }

  lemma {:induction false} TracePrefix(self: Host, maxAttempts: int, steps: seq<SysStep>, k: nat)
    requires k <= |steps|
    ensures Trace(self, maxAttempts, steps)[..k] == Trace(self, maxAttempts, steps[..k])
    decreases |steps|
  {
    if k == |steps| {
      assert steps[..k] == steps;
    } else {
      var n := |steps| - 1;
      TraceLast(self, maxAttempts, steps);
      TracePrefix(self, maxAttempts, steps[..n], k);
      assert steps[..n][..k] == steps[..k];
      assert Trace(self, maxAttempts, steps)[..n][..k] == Trace(self, maxAttempts, steps)[..k];
    }
  }

  lemma TraceAt(self: Host, maxAttempts: int, steps: seq<SysStep>, k: nat)
    requires k < |steps|
    ensures Trace(self, maxAttempts, steps)[..k] == Trace(self, maxAttempts, steps[..k])
    ensures Trace(self, maxAttempts, steps)[k] == TableAct(SysRun(self, maxAttempts, steps[..k]), steps[k])
  {
    TracePrefix(self, maxAttempts, steps, k);
    TracePrefix(self, maxAttempts, steps, k + 1);
    TraceLast(self, maxAttempts, steps[..k + 1]);
    assert steps[..k + 1][..k] == steps[..k];
    assert Trace(self, maxAttempts, steps)[..k + 1][k] == Trace(self, maxAttempts, steps)[k];
  }

  // --- retry accounting over dispatched events ------------------------------------------------------

  /** The step dispatches a SessionDisconnected or SessionFailed that names `h`. */
  predicate Fails(s: Sys, step: SysStep, h: Host) {
    var e := EventOf(s, step);
    e.Some? && (e.value.Down? || e.value.Fell?) && e.value.host == h
  }

  /** The step dispatches a SessionConnected that names `h`. */
  predicate Succeeds(s: Sys, step: SysStep, h: Host) {
    var e := EventOf(s, step);
    e.Some? && e.value.Up? && e.value.host == h
  }

  predicate FailsAt(self: Host, maxAttempts: int, steps: seq<SysStep>, k: nat, h: Host)
    requires k < |steps|
  {
    Fails(SysRun(self, maxAttempts, steps[..k]), steps[k], h)
  }

  predicate SucceedsAt(self: Host, maxAttempts: int, steps: seq<SysStep>, k: nat, h: Host)
    requires k < |steps|
  {
    Succeeds(SysRun(self, maxAttempts, steps[..k]), steps[k], h)
  }

  function Failures(self: Host, maxAttempts: int, steps: seq<SysStep>, h: Host, i: nat): set<nat> {
    set k: nat | i <= k < |steps| && FailsAt(self, maxAttempts, steps, k, h)
  }

  /** From step `i` on, where it was untracked, `h` has been asked for, no SessionConnected that
      names it has been dispatched and no Disconnect has been called. */
  ghost predicate WaitingSince(self: Host, maxAttempts: int, steps: seq<SysStep>, h: Host, i: nat) {
    && i < |steps| && steps[i] == CallConnectWithRetry(h)
    && h !in SysRun(self, maxAttempts, steps[..i]).table.entries
    && forall k :: i < k < |steps| ==> !SucceedsAt(self, maxAttempts, steps, k, h) && steps[k] != CallDisconnect(h)
  }

  lemma ActMeaning(s: Sys, step: SysStep, h: Host)
    ensures var act := TableAct(s, step);
            && (act == DoTrack(h) <==> step == CallConnectWithRetry(h))
            && (act == DoStop(h) <==> step == CallDisconnect(h))
            && (act == DoUp(h) <==> Succeeds(s, step, h))
            && (act == DoDown(h) <==> Fails(s, step, h))
  {
  }

  lemma StepMeaning(self: Host, maxAttempts: int, steps: seq<SysStep>, k: nat, h: Host)
    requires k < |steps|
    ensures var act := Trace(self, maxAttempts, steps)[k];
            && (act == DoTrack(h) <==> steps[k] == CallConnectWithRetry(h))
            && (act == DoStop(h) <==> steps[k] == CallDisconnect(h))
            && (act == DoUp(h) <==> SucceedsAt(self, maxAttempts, steps, k, h))
            && (act == DoDown(h) <==> FailsAt(self, maxAttempts, steps, k, h))
  {
    TraceAt(self, maxAttempts, steps, k);
    ActMeaning(SysRun(self, maxAttempts, steps[..k]), steps[k], h);
  }

  function Places(trace: seq<TableStep>, i: nat, h: Host): set<nat> {
    set k: nat | i <= k < |trace| && trace[k] == DoDown(h)
  }

  lemma {:induction false} DownsAreCounted(trace: seq<TableStep>, i: nat, h: Host)
    requires i <= |trace|
    ensures Downs(trace[i..], h) == |Places(trace, i, h)|
    decreases |trace|
  {
    if i == |trace| {
      assert Places(trace, i, h) == {};
    } else {
      var n := |trace| - 1;
      DownsAreCounted(trace[..n], i, h);
      DownsSnoc(trace, i, h);
      assert trace[..n][i..] == trace[i..n];
      PlacesSnoc(trace, i, h);
    }
  }

  lemma PlacesSnoc(trace: seq<TableStep>, i: nat, h: Host)
    requires i < |trace|
    ensures var n := |trace| - 1;
            |Places(trace, i, h)| == |Places(trace[..n], i, h)| + if trace[n] == DoDown(h) then 1 else 0
  {
    var n := |trace| - 1;
    var before := Places(trace[..n], i, h);
    assert Places(trace, i, h) == if trace[n] == DoDown(h) then before + {n} else before;
  }

  lemma FailuresAreCounted(self: Host, maxAttempts: int, steps: seq<SysStep>, h: Host, i: nat)
    requires i <= |steps|
    ensures Downs(Trace(self, maxAttempts, steps)[i..], h) == |Failures(self, maxAttempts, steps, h, i)|
  {
    var trace := Trace(self, maxAttempts, steps);
    DownsAreCounted(trace, i, h);
    forall k: nat | k < |steps| ensures trace[k] == DoDown(h) <==> FailsAt(self, maxAttempts, steps, k, h) {
      StepMeaning(self, maxAttempts, steps, k, h);
    }
    assert Places(trace, i, h) == Failures(self, maxAttempts, steps, h, i);
  }

  lemma PeriodIsWaiting(self: Host, maxAttempts: int, steps: seq<SysStep>, h: Host, i: nat)
    ensures PeriodFrom(maxAttempts, Trace(self, maxAttempts, steps), h, i)
       <==> WaitingSince(self, maxAttempts, steps, h, i)
  {
    if i < |steps| {
      StepMeaning(self, maxAttempts, steps, i, h);
      UntrackedBefore(self, maxAttempts, steps, h, i);
      forall k: nat | k < |steps|
        ensures Trace(self, maxAttempts, steps)[k] == DoStop(h) <==> steps[k] == CallDisconnect(h)
        ensures Trace(self, maxAttempts, steps)[k] == DoUp(h) <==> SucceedsAt(self, maxAttempts, steps, k, h)
      {
        StepMeaning(self, maxAttempts, steps, k, h);
      }
    }
  }

  lemma UntrackedBefore(self: Host, maxAttempts: int, steps: seq<SysStep>, h: Host, i: nat)
    requires i < |steps|
    ensures TrackedAfter(maxAttempts, Trace(self, maxAttempts, steps)[..i], h)
       <==> h in SysRun(self, maxAttempts, steps[..i]).table.entries
  {
    TraceAt(self, maxAttempts, steps, i);
    TraceIsTable(self, maxAttempts, steps[..i]);
  }

  /** Retry accounting in the running engine, whatever interleaves: a tracked host has been
      waited for since a ConnectWithRetry that found it untracked, and its attempt count is
      the number of dispatched events since then that name it as disconnected or failed. */
  lemma EngineAccounting(self: Host, maxAttempts: int, steps: seq<SysStep>, h: Host) returns (i: nat)
    requires h in SysRun(self, maxAttempts, steps).table.entries
    ensures WaitingSince(self, maxAttempts, steps, h, i)
    ensures var failures := |Failures(self, maxAttempts, steps, h, i)|;
            && SysRun(self, maxAttempts, steps).table.entries[h].attempt == failures
            && (maxAttempts > 0 ==> failures < maxAttempts)
  {
    TraceIsTable(self, maxAttempts, steps);
    i := RetryAccounting(maxAttempts, Trace(self, maxAttempts, steps), h);
    PeriodIsWaiting(self, maxAttempts, steps, h, i);
    FailuresAreCounted(self, maxAttempts, steps, h, i);
  }

  /** Conversely, a host that is being waited for and has failed less often than the policy
      allows is tracked. */
  lemma WaitedForIsTracked(self: Host, maxAttempts: int, steps: seq<SysStep>, h: Host, i: nat)
    requires WaitingSince(self, maxAttempts, steps, h, i)
    requires maxAttempts > 0 ==> |Failures(self, maxAttempts, steps, h, i)| < maxAttempts
    ensures h in SysRun(self, maxAttempts, steps).table.entries
  {
    TraceIsTable(self, maxAttempts, steps);
    PeriodIsWaiting(self, maxAttempts, steps, h, i);
    FailuresAreCounted(self, maxAttempts, steps, h, i);
    PeriodLasts(maxAttempts, Trace(self, maxAttempts, steps), h, i);
  }

  // --- what the protocols are told ------------------------------------------------------------------

  function FanoutOf(s: Sys, step: SysStep): seq<ProtoEvent> {
    if EventOf(s, step).Some? then DispatchFanout(s.table, EventOf(s, step).value) else []
  }

  /** Everything fanned out so far. */
  function Told(self: Host, maxAttempts: int, steps: seq<SysStep>): seq<ProtoEvent> {
    if steps == [] then []
    else
      var n := |steps| - 1;
      Told(self, maxAttempts, steps[..n]) + FanoutOf(SysRun(self, maxAttempts, steps[..n]), steps[n])
  }

  /** Every give-up the engine reports comes with a dispatched failure that is number
      MaxAttempts since the host was asked for, and carries that number. */
  lemma EngineGivesUp(self: Host, maxAttempts: int, steps: seq<SysStep>, k: nat, ev: ProtoEvent) returns (i: nat)
    requires k < |steps| && ev.PeerGivenUp? && ev in FanoutOf(SysRun(self, maxAttempts, steps[..k]), steps[k])
    ensures ev.attempts == maxAttempts > 0 && FailsAt(self, maxAttempts, steps, k, ev.host)
    ensures WaitingSince(self, maxAttempts, steps[..k + 1], ev.host, i)
    ensures |Failures(self, maxAttempts, steps[..k + 1], ev.host, i)| == maxAttempts
    ensures ev.host !in SysRun(self, maxAttempts, steps[..k + 1]).table.entries
  {
    NoticeMeaning(SysRun(self, maxAttempts, steps[..k]), steps[k], ev);
    i := GivenUpBecause(self, maxAttempts, steps, k, ev.host);
  }

  lemma NoticeMeaning(s: Sys, step: SysStep, ev: ProtoEvent)
    requires ev.PeerGivenUp? && ev in FanoutOf(s, step)
    ensures EventOf(s, step).Some? && TableAct(s, step) == DoDown(ev.host)
    ensures GiveUpNotice(s.table, ev.host) == [ev]
    ensures var e := EventOf(s, step).value; (e.Down? || e.Fell?) && e.host == ev.host
  {
  }

  /** `h` has been waited for through MaxAttempts failures. */
  ghost predicate AtLimit(self: Host, maxAttempts: int, now: seq<SysStep>, h: Host) {
    exists i :: WaitingSince(self, maxAttempts, now, h, i) && |Failures(self, maxAttempts, now, h, i)| == maxAttempts
  }

  /** Step `k` dispatches failure number MaxAttempts since `h` was asked for. */
  ghost predicate LastFailure(self: Host, maxAttempts: int, steps: seq<SysStep>, k: nat, h: Host)
    requires k < |steps|
  {
    FailsAt(self, maxAttempts, steps, k, h) && AtLimit(self, maxAttempts, steps[..k + 1], h)
  }

  /** The history says so exactly when the table does. */
  lemma GivesUpAtLastFailure(self: Host, maxAttempts: int, steps: seq<SysStep>, k: nat, h: Host)
    requires k < |steps| && FailsAt(self, maxAttempts, steps, k, h)
    ensures GiveUpNotice(SysRun(self, maxAttempts, steps[..k]).table, h)
         == if LastFailure(self, maxAttempts, steps, k, h) then [PeerGivenUp(h, maxAttempts as nat)] else []
  {
    if GivesUp(SysRun(self, maxAttempts, steps[..k]).table, h) {
      var i := GivenUpBecause(self, maxAttempts, steps, k, h);
    } else if LastFailure(self, maxAttempts, steps, k, h) {
      var i :| WaitingSince(self, maxAttempts, steps[..k + 1], h, i)
            && |Failures(self, maxAttempts, steps[..k + 1], h, i)| == maxAttempts;
      LastFailureGivesUp(self, maxAttempts, steps, k, h, i);
    }
  }

  lemma FailureEnds(self: Host, maxAttempts: int, steps: seq<SysStep>, k: nat, h: Host)
    requires k < |steps| && FailsAt(self, maxAttempts, steps, k, h)
    ensures var trace := Trace(self, maxAttempts, steps[..k + 1]);
            && trace[..k] == Trace(self, maxAttempts, steps[..k]) && trace[k] == DoDown(h)
            && TableRun(maxAttempts, trace[..k]) == SysRun(self, maxAttempts, steps[..k]).table
            && TableRun(maxAttempts, trace) == SysRun(self, maxAttempts, steps[..k + 1]).table
  {
    var now := steps[..k + 1];
    assert now[..k] == steps[..k];
    TraceAt(self, maxAttempts, now, k);
    StepMeaning(self, maxAttempts, now, k, h);
    TraceIsTable(self, maxAttempts, steps[..k]);
    TraceIsTable(self, maxAttempts, now);
  }

  lemma GivenUpBecause(self: Host, maxAttempts: int, steps: seq<SysStep>, k: nat, h: Host) returns (i: nat)
    requires k < |steps| && FailsAt(self, maxAttempts, steps, k, h)
    requires GivesUp(SysRun(self, maxAttempts, steps[..k]).table, h)
    ensures maxAttempts > 0
    ensures GiveUpNotice(SysRun(self, maxAttempts, steps[..k]).table, h) == [PeerGivenUp(h, maxAttempts)]
    ensures WaitingSince(self, maxAttempts, steps[..k + 1], h, i)
    ensures |Failures(self, maxAttempts, steps[..k + 1], h, i)| == maxAttempts
    ensures h !in SysRun(self, maxAttempts, steps[..k + 1]).table.entries
  {
    var now := steps[..k + 1];
    FailureEnds(self, maxAttempts, steps, k, h);
    i := GiveUpAccounting(maxAttempts, Trace(self, maxAttempts, now), h);
    PeriodIsWaiting(self, maxAttempts, now, h, i);
    FailuresAreCounted(self, maxAttempts, now, h, i);
  }

  lemma LastFailureGivesUp(self: Host, maxAttempts: int, steps: seq<SysStep>, k: nat, h: Host, i: nat)
    requires k < |steps| && FailsAt(self, maxAttempts, steps, k, h)
    requires WaitingSince(self, maxAttempts, steps[..k + 1], h, i)
    requires |Failures(self, maxAttempts, steps[..k + 1], h, i)| == maxAttempts
    ensures GivesUp(SysRun(self, maxAttempts, steps[..k]).table, h)
  {
    var now := steps[..k + 1];
    var trace := Trace(self, maxAttempts, now);
    FailureEnds(self, maxAttempts, steps, k, h);
    PeriodIsWaiting(self, maxAttempts, now, h, i);
    FailuresAreCounted(self, maxAttempts, now, h, i);
    DownsSnoc(trace, i, h);
    GiveUpCondition(maxAttempts, trace, h, i);
  }

  /** What the protocols are owed for step `k`, from the history alone: a connect or disconnect
      for an event that says so, and before it a give-up at the last failure, whether that
      was a disconnect or a failure. */
  ghost function Owed(self: Host, maxAttempts: int, steps: seq<SysStep>, k: nat): seq<ProtoEvent>
    requires k < |steps|
  {
    match EventOf(SysRun(self, maxAttempts, steps[..k]), steps[k])
    case None => []
    case Some(e) =>
      match e
      case Up(_, h, _) => [PeerConnected(h)]
      case Down(_, h) => GiveUpOwed(self, maxAttempts, steps, k, h) + [PeerDisconnected(h)]
      case Fell(_, h) => GiveUpOwed(self, maxAttempts, steps, k, h)
      case Mismatch(_) => []
      case Unmapped(_) => []
  }

  ghost function GiveUpOwed(self: Host, maxAttempts: int, steps: seq<SysStep>, k: nat, h: Host): seq<ProtoEvent>
    requires k < |steps|
  {
    if LastFailure(self, maxAttempts, steps, k, h) then [PeerGivenUp(h, maxAttempts as nat)] else []
  }

  /** Every step of the engine fans out exactly what is owed for it, no less and no more. */
  lemma EngineTellsWhatIsOwed(self: Host, maxAttempts: int, steps: seq<SysStep>, k: nat)
    requires k < |steps|
    ensures FanoutOf(SysRun(self, maxAttempts, steps[..k]), steps[k]) == Owed(self, maxAttempts, steps, k)
  {
    var e := EventOf(SysRun(self, maxAttempts, steps[..k]), steps[k]);
    if e.Some? && (e.value.Down? || e.value.Fell?) {
      GivesUpAtLastFailure(self, maxAttempts, steps, k, e.value.host);
    }
  }

  /** While uncancelled, what was fanned out is what the consumed events fan out on the tables
      they found. */
  lemma {:induction false} ToldIsFanned(self: Host, maxAttempts: int, steps: seq<SysStep>) returns (tables: seq<Table>)
    requires !SysRun(self, maxAttempts, steps).cancelled
    ensures FannedOut(SysRun(self, maxAttempts, steps), tables, Told(self, maxAttempts, steps))
    decreases |steps|
  {
    if steps == [] {
      tables := [];
    } else {
      var n := |steps| - 1;
      var s := SysRun(self, maxAttempts, steps[..n]);
      MoveReads(s, steps[n]);
      tables := ToldIsFanned(self, maxAttempts, steps[..n]);
      var more := if EventOf(s, steps[n]).Some? then [s.table] else [];
      TellsMore(s, tables, Told(self, maxAttempts, steps[..n]), EventOf(s, steps[n]), Move(s, steps[n]));
      tables := tables + more;
    }
  }

  /** `told` is what the consumed events fan out on the tables they found. */
  ghost predicate FannedOut(s: Sys, tables: seq<Table>, told: seq<ProtoEvent>) {
    s.consumed == |tables| <= |s.layer.log| && told == Fanned(tables, s.layer.log[..s.consumed])
  }

  lemma FannedSnoc(tables: seq<Table>, log: seq<Entry>, t: Table, e: Entry)
    requires |tables| == |log|
    ensures Fanned(tables + [t], log + [e]) == Fanned(tables, log) + DispatchFanout(t, e)
  {
    assert (tables + [t])[..|tables|] == tables && (log + [e])[..|log|] == log;
  }

  lemma TellsMore(s: Sys, tables: seq<Table>, told: seq<ProtoEvent>, e: Option<Entry>, s': Sys)
    requires FannedOut(s, tables, told) && s.layer.log <= s'.layer.log
    requires s'.consumed == s.consumed + if e.Some? then 1 else 0
    requires e.Some? ==> s.consumed < |s.layer.log| && e.value == s.layer.log[s.consumed]
    ensures e.None? ==> FannedOut(s', tables + [], told + [])
    ensures e.Some? ==> FannedOut(s', tables + [s.table], told + DispatchFanout(s.table, e.value))
  {
    var log := s.layer.log[..s.consumed];
    assert s'.layer.log[..s.consumed] == log;
    assert told + [] == told && tables + [] == tables;
    if e.Some? {
      FannedSnoc(tables, log, s.table, e.value);
      assert s'.layer.log[..s'.consumed] == log + [e.value];
    }
  }

  /** A move that does not end in cancellation reads on exactly if it dispatches. */
  lemma MoveReads(s: Sys, step: SysStep)
    requires !Move(s, step).cancelled
    ensures !s.cancelled && s.layer.log <= Move(s, step).layer.log
    ensures Move(s, step).consumed == s.consumed + if EventOf(s, step).Some? then 1 else 0
  {
    MoveGrowsLog(s, step);
  }

  lemma MoveGrowsLog(s: Sys, step: SysStep)
    ensures s.layer.log <= Move(s, step).layer.log
  {
    InputIsMove(s, step);
    if InputOf(s, step) != [] { LogOnlyGrows(s.layer, InputOf(s, step)[0]); }
  }

  lemma CancelIsKept(s: Sys, step: SysStep)
    ensures Move(s, step).cancelled <==> s.cancelled || step == Cancel
  {
  }

  /** An engine is cancelled exactly from its shutdown on. */
  lemma {:induction false} CancelledSinceShutdown(self: Host, maxAttempts: int, steps: seq<SysStep>)
    ensures SysRun(self, maxAttempts, steps).cancelled <==> Cancel in steps
    decreases |steps|
  {
    if steps == [] {
    } else {
      var n := |steps| - 1;
      CancelledSinceShutdown(self, maxAttempts, steps[..n]);
      CancelIsKept(SysRun(self, maxAttempts, steps[..n]), steps[n]);
      assert steps == steps[..n] + [steps[n]];
    }
  }

  // --- calls reach the session layer ---------------------------------------------------------------

  function Count(inputs: seq<Input>, i: Input): nat {
    multiset(inputs)[i]
  }

  function Bit(b: bool): nat {
    if b then 1 else 0
  }

  /** A step hands a connect to `h` over: a call, the first call with retries, or a timer's
      callback that finds `h` still tracked. */
  predicate AsksToConnect(s: Sys, step: SysStep, h: Host) {
    && !s.cancelled
    && (|| step == CallConnect(h)
        || (step == CallConnectWithRetry(h) && h !in s.table.entries)
        || (step == CallbackRuns(h) && h in s.firing && h in s.table.entries))
  }

  predicate AsksToDisconnect(s: Sys, step: SysStep, h: Host) {
    !s.cancelled && step == CallDisconnect(h)
  }

  predicate FiresFor(s: Sys, step: SysStep, h: Host) {
    step.TimerFires? && step.timer in s.table.armed && s.table.armed[step.timer] == h
  }

  function ConnectsAsked(self: Host, maxAttempts: int, steps: seq<SysStep>, h: Host): nat {
    if steps == [] then 0
    else
      var n := |steps| - 1;
      ConnectsAsked(self, maxAttempts, steps[..n], h)
      + Bit(AsksToConnect(SysRun(self, maxAttempts, steps[..n]), steps[n], h))
  }

  function DisconnectsAsked(self: Host, maxAttempts: int, steps: seq<SysStep>, h: Host): nat {
    if steps == [] then 0
    else
      var n := |steps| - 1;
      DisconnectsAsked(self, maxAttempts, steps[..n], h)
      + Bit(AsksToDisconnect(SysRun(self, maxAttempts, steps[..n]), steps[n], h))
  }

  function TimersFired(self: Host, maxAttempts: int, steps: seq<SysStep>, h: Host): nat {
    if steps == [] then 0
    else
      var n := |steps| - 1;
      TimersFired(self, maxAttempts, steps[..n], h)
      + Bit(FiresFor(SysRun(self, maxAttempts, steps[..n]), steps[n], h))
  }

  function CallbacksRun(self: Host, maxAttempts: int, steps: seq<SysStep>, h: Host): nat {
    if steps == [] then 0
    else
      var n := |steps| - 1;
      CallbacksRun(self, maxAttempts, steps[..n], h)
      + Bit(steps[n] == CallbackRuns(h) && h in SysRun(self, maxAttempts, steps[..n]).firing)
  }

  /** The connects to `h` are where they should be after the step. */
  ghost predicate ConnectBalanced(s: Sys, step: SysStep, h: Host) {
    Move(s, step).connecting[h] + Count(InputOf(s, step), Connect(h))
    == s.connecting[h] + Bit(AsksToConnect(s, step, h))
  }

  lemma CallConnectBalanced(s: Sys, x: Host, h: Host)
    requires !s.cancelled
    ensures ConnectBalanced(s, CallConnect(x), h)
  {
  }

  lemma CallRetryBalanced(s: Sys, x: Host, h: Host)
    requires !s.cancelled
    ensures ConnectBalanced(s, CallConnectWithRetry(x), h)
  {
  }

  lemma CallbackBalanced(s: Sys, x: Host, h: Host)
    requires !s.cancelled
    ensures ConnectBalanced(s, CallbackRuns(x), h)
  {
  }

  lemma TakeConnectBalanced(s: Sys, x: Host, h: Host)
    ensures ConnectBalanced(s, TakeConnect(x), h)
  {
  }

  lemma NoConnectInput(s: Sys, step: SysStep, h: Host)
    requires !step.TakeConnect?
    ensures Count(InputOf(s, step), Connect(h)) == 0
  {
  }

  lemma OthersKeepConnecting(s: Sys, step: SysStep)
    requires !s.cancelled && !step.CallConnect? && !step.CallConnectWithRetry?
    requires !step.CallbackRuns? && !step.TakeConnect?
    ensures Move(s, step).connecting == s.connecting
  {
  }

  lemma OthersBalanced(s: Sys, step: SysStep, h: Host)
    requires !s.cancelled && !step.CallConnect? && !step.CallConnectWithRetry?
    requires !step.CallbackRuns? && !step.TakeConnect?
    ensures ConnectBalanced(s, step, h)
  {
    NoConnectInput(s, step, h);
    OthersKeepConnecting(s, step);
  }

  lemma ConnectMoves(s: Sys, step: SysStep, h: Host)
    requires !s.cancelled
    ensures ConnectBalanced(s, step, h)
  {
    if step.CallConnect? {
      CallConnectBalanced(s, step.host, h);
    } else if step.CallConnectWithRetry? {
      CallRetryBalanced(s, step.host, h);
    } else if step.CallbackRuns? {
      CallbackBalanced(s, step.host, h);
    } else if step.TakeConnect? {
      TakeConnectBalanced(s, step.host, h);
    } else {
      OthersBalanced(s, step, h);
    }
  }

  ghost predicate DisconnectBalanced(s: Sys, step: SysStep, h: Host) {
    Move(s, step).hangingUp[h] + Count(InputOf(s, step), Disconnect(h))
    == s.hangingUp[h] + Bit(AsksToDisconnect(s, step, h))
  }

  lemma HangupBalanced(s: Sys, x: Host, h: Host)
    requires !s.cancelled
    ensures DisconnectBalanced(s, CallDisconnect(x), h) && DisconnectBalanced(s, TakeDisconnect(x), h)
  {
  }

  lemma OthersHangNothingUp(s: Sys, step: SysStep, h: Host)
    requires !s.cancelled && !step.CallDisconnect? && !step.TakeDisconnect?
    ensures DisconnectBalanced(s, step, h)
  {
    assert Move(s, step).hangingUp == s.hangingUp;
  }

  lemma DisconnectMoves(s: Sys, step: SysStep, h: Host)
    requires !s.cancelled
    ensures DisconnectBalanced(s, step, h)
  {
    if step.CallDisconnect? || step.TakeDisconnect? {
      HangupBalanced(s, step.host, h);
    } else {
      OthersHangNothingUp(s, step, h);
    }
  }

  ghost predicate FiringBalanced(s: Sys, step: SysStep, h: Host) {
    Move(s, step).firing[h] + Bit(step == CallbackRuns(h) && h in s.firing)
    == s.firing[h] + Bit(FiresFor(s, step, h))
  }

  lemma TimerBalanced(s: Sys, id: nat, h: Host)
    ensures FiringBalanced(s, TimerFires(id), h)
  {
  }

  lemma CallbackUsesUp(s: Sys, x: Host, h: Host)
    ensures FiringBalanced(s, CallbackRuns(x), h)
  {
  }

  lemma OthersKeepFiring(s: Sys, step: SysStep)
    requires !step.TimerFires? && !step.CallbackRuns?
    ensures Move(s, step).firing == s.firing
  {
  }

  lemma FiringMoves(s: Sys, step: SysStep, h: Host)
    ensures FiringBalanced(s, step, h)
  {
    if step.TimerFires? {
      TimerBalanced(s, step.timer, h);
    } else if step.CallbackRuns? {
      CallbackUsesUp(s, step.host, h);
    } else {
      OthersKeepFiring(s, step);
    }
  }

  lemma CountAppend(a: seq<Input>, b: seq<Input>, i: Input)
    ensures Count(a + b, i) == Count(a, i) + Count(b, i)
  {
  }

  lemma InputsCount(self: Host, maxAttempts: int, steps: seq<SysStep>, n: nat, i: Input)
    requires n + 1 == |steps|
    ensures Count(Inputs(self, maxAttempts, steps), i)
         == Count(Inputs(self, maxAttempts, steps[..n]), i)
            + Count(InputOf(SysRun(self, maxAttempts, steps[..n]), steps[n]), i)
  {
    CountAppend(Inputs(self, maxAttempts, steps[..n]), InputOf(SysRun(self, maxAttempts, steps[..n]), steps[n]), i);
  }

  /** No call is lost and none is made up: while uncancelled, the connects asked for towards a
      host are those the session layer has been given and those still on their way, and the
      same goes for disconnects and for timers that fired and their callbacks. */
  lemma {:induction false} CallsAreConserved(self: Host, maxAttempts: int, steps: seq<SysStep>, h: Host)
    requires !SysRun(self, maxAttempts, steps).cancelled
    ensures var s, inputs := SysRun(self, maxAttempts, steps), Inputs(self, maxAttempts, steps);
            && ConnectsAsked(self, maxAttempts, steps, h) == s.connecting[h] + Count(inputs, Connect(h))
            && DisconnectsAsked(self, maxAttempts, steps, h) == s.hangingUp[h] + Count(inputs, Disconnect(h))
            && TimersFired(self, maxAttempts, steps, h) == s.firing[h] + CallbacksRun(self, maxAttempts, steps, h)
    decreases |steps|
  {
    if steps == [] {
    } else {
      var n := |steps| - 1;
      var s := SysRun(self, maxAttempts, steps[..n]);
      MoveReads(s, steps[n]);
      CallsAreConserved(self, maxAttempts, steps[..n], h);
      ConnectMoves(s, steps[n], h);
      DisconnectMoves(s, steps[n], h);
      FiringMoves(s, steps[n], h);
      InputsCount(self, maxAttempts, steps, n, Connect(h));
      InputsCount(self, maxAttempts, steps, n, Disconnect(h));
    }
  }

  // --- the session layer ------------------------------------------------------------------------------

  /** The inputs the engine has fed to its session layer. */
  function InputOf(s: Sys, step: SysStep): seq<Input> {
    if !Reconnect.Enabled(s, step) then []
    else match step
         case TakeConnect(h) => [Connect(h)]
         case TakeDisconnect(h) => [Disconnect(h)]
         case TransportActs(i) => [i]
         case _ => []
  }

  function Inputs(self: Host, maxAttempts: int, steps: seq<SysStep>): seq<Input> {
    if steps == [] then []
    else
      var n := |steps| - 1;
      Inputs(self, maxAttempts, steps[..n]) + InputOf(SysRun(self, maxAttempts, steps[..n]), steps[n])
  }

  lemma InputIsMove(s: Sys, step: SysStep)
    ensures |InputOf(s, step)| <= 1
    ensures Move(s, step).layer
         == if InputOf(s, step) == [] then s.layer else Step(s.layer, InputOf(s, step)[0])
  {
    match step
    case TakeConnect(h) =>
    case TakeDisconnect(h) =>
    case TransportActs(i) =>
    case _ => assert Move(s, step).layer == s.layer;
  }

  lemma LayerExtends(self: Host, inputs: seq<Input>, s: Layer, more: seq<Input>)
    requires s == Run(self, inputs) && |more| <= 1
    ensures Run(self, inputs + more) == if more == [] then s else Step(s, more[0])
  {
    if more == [] {
      assert inputs + more == inputs;
    } else {
      assert more == [more[0]];
      RunSnoc(self, inputs, more[0]);
    }
  }

  lemma {:induction false} LayerIsRun(self: Host, maxAttempts: int, steps: seq<SysStep>)
    ensures SysRun(self, maxAttempts, steps).layer == Run(self, Inputs(self, maxAttempts, steps))
    decreases |steps|
  {
    if steps == [] {
    } else {
      var n := |steps| - 1;
      var s := SysRun(self, maxAttempts, steps[..n]);
      LayerIsRun(self, maxAttempts, steps[..n]);
      InputIsMove(s, steps[n]);
      LayerExtends(self, Inputs(self, maxAttempts, steps[..n]), s.layer, InputOf(s, steps[n]));
    }
  }

  /** Whatever was called, retried and timed out meanwhile: when an uncancelled engine has
      dispatched all its events, the view membership made of them is the peers of the
      established sessions if and only if the session events alone say so. */
  lemma EngineView(self: Host, maxAttempts: int, steps: seq<SysStep>)
    requires var s := SysRun(self, maxAttempts, steps); !s.cancelled && s.consumed == |s.layer.log|
    ensures (forall h :: h in Membership.Run(Told(self, maxAttempts, steps)).view
                    <==> SessionViews.Peer(SysRun(self, maxAttempts, steps).layer, h))
       <==> SessionViews.AgreesAfter(self, Inputs(self, maxAttempts, steps))
  {
    var s, inputs := SysRun(self, maxAttempts, steps), Inputs(self, maxAttempts, steps);
    var tables := ToldIsFanned(self, maxAttempts, steps);
    LayerIsRun(self, maxAttempts, steps);
    assert s.layer.log[..s.consumed] == s.layer.log;
    SessionViews.ViewIsAgreement(tables, self, inputs);
  }

  /** So the view is right whenever the engine has caught up and no input has drifted. */
  lemma EngineViewIsTrue(self: Host, maxAttempts: int, steps: seq<SysStep>, h: Host)
    requires var s := SysRun(self, maxAttempts, steps); !s.cancelled && s.consumed == |s.layer.log|
    requires SessionViews.NeverDrifts(self, Inputs(self, maxAttempts, steps))
    ensures h in Membership.Run(Told(self, maxAttempts, steps)).view
       <==> SessionViews.Peer(SysRun(self, maxAttempts, steps).layer, h)
  {
    SessionViews.UndriftedAgreesAtLast(self, Inputs(self, maxAttempts, steps));
    EngineView(self, maxAttempts, steps);
  }
}
