/** The retry table of `pkg/protorun/retry.go` and its driver `dispatchSessionEvent` in
    `pkg/protorun/runtime.go`. A timer is an identifier that is armed until it fires or is
    stopped; how long it takes is the business of module `Backoff`. */
module Retry {
  import opened Bytes
  import opened Hosts
  import Session
  import Backoff

  datatype Tracked = Tracked(attempt: nat, timer: Option<nat>)

  /** `backoffs` holds, for every timer ever armed, the attempt number its delay was computed
      for. */
  datatype Table = Table(
    maxAttempts: int,
    entries: map<Host, Tracked>,
    armed: map<nat, Host>,
    nextTimer: nat,
    backoffs: map<nat, nat>)

  function Empty(maxAttempts: int): Table {
    Table(maxAttempts, map[], map[], 0, map[])
  }

  function StopTimer(armed: map<nat, Host>, timer: Option<nat>): map<nat, Host> {
    if timer.Some? then armed - {timer.value} else armed
  }

  function Forget(t: Table, h: Host): Table
    requires h in t.entries
  {
    t.(entries := t.entries - {h}, armed := StopTimer(t.armed, t.entries[h].timer))
  }

  /** The bookkeeping half of `connectWithRetry`. */
  function Track(t: Table, h: Host): Table {
    if h in t.entries then t else t.(entries := t.entries[h := Tracked(0, None)])
  }

  function OnUp(t: Table, h: Host): Table {
    if h in t.entries then Forget(t, h) else t
  }

  predicate Exhausted(t: Table, attempt: nat) {
    t.maxAttempts > 0 && attempt >= t.maxAttempts
  }

  /** `onSessionDownForRetry`: count the failure, then give up or arm the next timer. */
  function OnDown(t: Table, h: Host): Table {
    if h !in t.entries then t
    else
      var attempt := t.entries[h].attempt + 1;
      if Exhausted(t, attempt) then Forget(t, h)
      else
        t.(entries := t.entries[h := Tracked(attempt, Some(t.nextTimer))],
           armed := StopTimer(t.armed, t.entries[h].timer)[t.nextTimer := h],
           nextTimer := t.nextTimer + 1,
           backoffs := t.backoffs[t.nextTimer := attempt - 1])
  }

  function Stop(t: Table, h: Host): Table {
    if h in t.entries then Forget(t, h) else t
  }

  /** A timer that fires is no longer armed; its callback then looks the host up again. */
  function Fire(t: Table, timer: nat): Table {
    t.(armed := t.armed - {timer})
  }

  datatype TableStep = DoTrack(host: Host) | DoUp(host: Host) | DoDown(host: Host) | DoStop(host: Host)
                     | DoFire(timer: nat) | DoNothing

  function Apply(t: Table, step: TableStep): Table {
    match step
    case DoTrack(h) => Track(t, h)
    case DoUp(h) => OnUp(t, h)
    case DoDown(h) => OnDown(t, h)
    case DoStop(h) => Stop(t, h)
    case DoFire(timer) => Fire(t, timer)
    case DoNothing => t
  }

  function TableRun(maxAttempts: int, steps: seq<TableStep>): Table {
    if steps == [] then Empty(maxAttempts)
    else Apply(TableRun(maxAttempts, steps[..|steps| - 1]), steps[|steps| - 1])
  }

  // --- what every operation keeps ---------------------------------------------------------------

  ghost predicate TimersOwned(t: Table) {
    && (forall id :: id in t.armed ==>
          id < t.nextTimer && t.armed[id] in t.entries && t.entries[t.armed[id]].timer == Some(id))
    && (forall h :: h in t.entries && t.entries[h].timer.Some? ==> t.entries[h].timer.value < t.nextTimer)
    && (forall a, b :: a in t.entries && b in t.entries && t.entries[a].timer.Some? && a != b ==>
          t.entries[a].timer != t.entries[b].timer)
  }

  /** The timer of a host waits for the delay of its latest failure, counted from zero. */
  ghost predicate BackoffsInStep(t: Table) {
    forall id :: id in t.armed && t.armed[id] in t.entries ==>
      id in t.backoffs && t.backoffs[id] + 1 == t.entries[t.armed[id]].attempt
  }

  ghost predicate WithinPolicy(t: Table) {
    forall h :: h in t.entries && t.maxAttempts > 0 ==> t.entries[h].attempt < t.maxAttempts
  }

  ghost predicate TableInv(t: Table) {
    TimersOwned(t) && BackoffsInStep(t) && WithinPolicy(t)
  }

  lemma ForgetOwned(t: Table, h: Host)
    requires TimersOwned(t) && h in t.entries
    ensures TimersOwned(Forget(t, h))
  {
  }

  lemma RearmOwned(t: Table, h: Host)
    requires TimersOwned(t) && h in t.entries
    ensures TimersOwned(OnDown(t, h))
  {
    if Exhausted(t, t.entries[h].attempt + 1) {
      ForgetOwned(t, h);
    }
  }

  lemma TimersStayOwned(t: Table, step: TableStep)
    requires TimersOwned(t)
    ensures TimersOwned(Apply(t, step))
  {
    match step
    case DoTrack(h) => assert TimersOwned(Track(t, h));
    case DoUp(h) => if h in t.entries { ForgetOwned(t, h); }
    case DoStop(h) => if h in t.entries { ForgetOwned(t, h); }
    case DoDown(h) => if h in t.entries { RearmOwned(t, h); }
    case DoFire(timer) => assert TimersOwned(Fire(t, timer));
    case DoNothing =>
  }

  lemma DownKeepsBackoffs(t: Table, h: Host)
    requires TimersOwned(t) && BackoffsInStep(t)
    ensures BackoffsInStep(OnDown(t, h))
  {
  }

  lemma ForgetKeepsBackoffs(t: Table, h: Host)
    requires TimersOwned(t) && BackoffsInStep(t) && h in t.entries
    ensures BackoffsInStep(Forget(t, h))
  {
  }

  lemma BackoffsStayInStep(t: Table, step: TableStep)
    requires TimersOwned(t) && BackoffsInStep(t)
    ensures BackoffsInStep(Apply(t, step))
  {
    match step
    case DoDown(h) => DownKeepsBackoffs(t, h);
    case DoUp(h) => if h in t.entries { ForgetKeepsBackoffs(t, h); }
    case DoStop(h) => if h in t.entries { ForgetKeepsBackoffs(t, h); }
    case DoTrack(h) => assert BackoffsInStep(Track(t, h));
    case DoFire(timer) => assert BackoffsInStep(Fire(t, timer));
    case DoNothing =>
  }

  lemma TableStepKeeps(t: Table, step: TableStep)
    requires TableInv(t)
    ensures TableInv(Apply(t, step)) && Apply(t, step).maxAttempts == t.maxAttempts
  {
    TimersStayOwned(t, step);
    BackoffsStayInStep(t, step);
  }

  lemma {:induction false} TableRunKeeps(maxAttempts: int, steps: seq<TableStep>)
    ensures TableInv(TableRun(maxAttempts, steps)) && TableRun(maxAttempts, steps).maxAttempts == maxAttempts
    decreases |steps|
  {
    if steps == [] {
    } else {
      TableRunKeeps(maxAttempts, steps[..|steps| - 1]);
      TableStepKeeps(TableRun(maxAttempts, steps[..|steps| - 1]), steps[|steps| - 1]);
    }
  }

  // --- the history of one host, in terms of what was done to the table -----------------------------

  predicate TrackedAfter(maxAttempts: int, steps: seq<TableStep>, h: Host) {
    h in TableRun(maxAttempts, steps).entries
  }

  /** How many of these steps are failures of `h`. */
  function Downs(steps: seq<TableStep>, h: Host): nat {
    multiset(steps)[DoDown(h)]
  }

  /** From step `i` on, where `h` was not tracked, `h` has been asked for and has neither
      succeeded nor been stopped. */
  ghost predicate PeriodFrom(maxAttempts: int, steps: seq<TableStep>, h: Host, i: nat) {
    && i < |steps| && steps[i] == DoTrack(h) && !TrackedAfter(maxAttempts, steps[..i], h)
    && forall k :: i < k < |steps| ==> steps[k] != DoUp(h) && steps[k] != DoStop(h)
  }

  /** One step, seen from a host that is tracked after it. */
  lemma TrackedStep(t: Table, step: TableStep, h: Host)
    requires h in Apply(t, step).entries
    ensures h in t.entries ==>
              && step != DoUp(h) && step != DoStop(h)
              && Apply(t, step).entries[h].attempt == t.entries[h].attempt + if step == DoDown(h) then 1 else 0
    ensures h !in t.entries ==> step == DoTrack(h) && Apply(t, step).entries[h].attempt == 0
  {
  }

  /** One step, seen from a host that is tracked before it. */
  lemma UntrackingStep(t: Table, step: TableStep, h: Host)
    requires h in t.entries && h !in Apply(t, step).entries
    ensures step == DoUp(h) || step == DoStop(h) || (step == DoDown(h) && Exhausted(t, t.entries[h].attempt + 1))
  {
  }

  lemma DownsSnoc(steps: seq<TableStep>, i: nat, h: Host)
    requires i < |steps|
    ensures var n := |steps| - 1;
            Downs(steps[i..], h) == Downs(steps[i..n], h) + if steps[n] == DoDown(h) then 1 else 0
  {
    var n := |steps| - 1;
    assert steps[i..] == steps[i..n] + [steps[n]];
  }

  lemma PeriodShorter(maxAttempts: int, steps: seq<TableStep>, h: Host, i: nat, n: nat)
    requires PeriodFrom(maxAttempts, steps, h, i) && i < n <= |steps|
    ensures PeriodFrom(maxAttempts, steps[..n], h, i)
  {
    assert steps[..n][..i] == steps[..i];
  }

  /** Retry accounting: a tracked host is in a period that began with a ConnectWithRetry while
      it was untracked and saw neither a success nor a stop since; its attempt count is the
      number of failures dispatched in that period, below the policy's limit. */
  lemma {:induction false} RetryAccounting(maxAttempts: int, steps: seq<TableStep>, h: Host) returns (i: nat)
    requires TrackedAfter(maxAttempts, steps, h)
    ensures PeriodFrom(maxAttempts, steps, h, i)
    ensures TableRun(maxAttempts, steps).entries[h].attempt == Downs(steps[i..], h)
    ensures maxAttempts > 0 ==> Downs(steps[i..], h) < maxAttempts
    decreases |steps|
  {
    var n := |steps| - 1;
    var t := TableRun(maxAttempts, steps[..n]);
    TrackedStep(t, steps[n], h);
    if h in t.entries {
      i := RetryAccounting(maxAttempts, steps[..n], h);
      assert steps[..n][i..] == steps[i..n] && steps[..n][..i] == steps[..i];
      DownsSnoc(steps, i, h);
    } else {
      i := n;
      assert steps[i..] == [DoTrack(h)];
    }
    TableRunKeeps(maxAttempts, steps);
  }

  /** Conversely, a host stays tracked as long as its period has seen fewer failures than the
      policy allows: nothing that happens to other hosts or timers takes it out. */
  lemma {:induction false} PeriodLasts(maxAttempts: int, steps: seq<TableStep>, h: Host, i: nat)
    requires PeriodFrom(maxAttempts, steps, h, i)
    requires maxAttempts > 0 ==> Downs(steps[i..], h) < maxAttempts
    ensures TrackedAfter(maxAttempts, steps, h)
    ensures TableRun(maxAttempts, steps).entries[h].attempt == Downs(steps[i..], h)
    decreases |steps|
  {
    var n := |steps| - 1;
    var t := TableRun(maxAttempts, steps[..n]);
    TableRunKeeps(maxAttempts, steps[..n]);
    if i < n {
      PeriodShorter(maxAttempts, steps, h, i, n);
      DownsSnoc(steps, i, h);
      assert steps[..n][i..] == steps[i..n];
      PeriodLasts(maxAttempts, steps[..n], h, i);
      if h !in Apply(t, steps[n]).entries { UntrackingStep(t, steps[n], h); }
      TrackedStep(t, steps[n], h);
    } else {
      assert steps[i..] == [DoTrack(h)];
    }
  }

  /** A timer is armed only for a tracked host, and at most one at a time. */
  lemma ArmedTimersAreTracked(maxAttempts: int, steps: seq<TableStep>, a: nat, b: nat)
    requires a in TableRun(maxAttempts, steps).armed && b in TableRun(maxAttempts, steps).armed
    ensures var t := TableRun(maxAttempts, steps);
            t.armed[a] in t.entries && (t.armed[a] == t.armed[b] ==> a == b)
  {
    TableRunKeeps(maxAttempts, steps);
  }

  /** What the armed timer of a host waits for: after the n-th failure of its period, delay
      number n - 1 of the schedule, which is the initial delay for the first. */
  lemma ArmedDelay(maxAttempts: int, steps: seq<TableStep>, id: nat, p: Backoff.Policy, draw: real) returns (i: nat)
    requires id in TableRun(maxAttempts, steps).armed && Backoff.Usable(p)
    ensures var t := TableRun(maxAttempts, steps);
            var h := t.armed[id];
            && PeriodFrom(maxAttempts, steps, h, i) && id in t.backoffs
            && t.backoffs[id] + 1 == Downs(steps[i..], h)
            && (Downs(steps[i..], h) == 1 ==>
                  Backoff.NextDelay(Backoff.Steady(p), t.backoffs[id], draw) == Backoff.Min(p.initial, p.max))
  {
    TableRunKeeps(maxAttempts, steps);
    i := RetryAccounting(maxAttempts, steps, TableRun(maxAttempts, steps).armed[id]);
    Backoff.ScheduleStarts(p, draw);
  }

  // --- the runtime's dispatcher ---------------------------------------------------------------------

  datatype ProtoEvent = PeerConnected(host: Host) | PeerDisconnected(host: Host)
                      | PeerGivenUp(host: Host, attempts: nat)

  predicate GivesUp(t: Table, h: Host) {
    h in t.entries && Exhausted(t, t.entries[h].attempt + 1)
  }

  function GiveUpNotice(t: Table, h: Host): seq<ProtoEvent> {
    if GivesUp(t, h) then [PeerGivenUp(h, t.entries[h].attempt + 1)] else []
  }

  /** The last of these steps is a failure at which the runtime gives `h` up. */
  ghost predicate GivenUpBy(maxAttempts: int, steps: seq<TableStep>, h: Host) {
    && steps != [] && steps[|steps| - 1] == DoDown(h)
    && GiveUpNotice(TableRun(maxAttempts, steps[..|steps| - 1]), h) != []
  }

  /** A failure is the one at which a host is given up exactly when it is number MaxAttempts of
      the host's period. */
  lemma GiveUpCondition(maxAttempts: int, steps: seq<TableStep>, h: Host, i: nat)
    requires PeriodFrom(maxAttempts, steps, h, i) && steps[|steps| - 1] == DoDown(h)
    requires maxAttempts > 0 ==> Downs(steps[i..|steps| - 1], h) < maxAttempts
    ensures GivenUpBy(maxAttempts, steps, h) <==> Downs(steps[i..], h) == maxAttempts
  {
    var n := |steps| - 1;
    TableRunKeeps(maxAttempts, steps[..n]);
    PeriodShorter(maxAttempts, steps, h, i, n);
    assert steps[..n][i..] == steps[i..n];
    PeriodLasts(maxAttempts, steps[..n], h, i);
    DownsSnoc(steps, i, h);
  }

  /** Every give-up, the first one included: the event that protocols receive carries exactly
      MaxAttempts, that many failures were dispatched since tracking began, and the host is
      no longer tracked. */
  lemma GiveUpAccounting(maxAttempts: int, steps: seq<TableStep>, h: Host) returns (i: nat)
    requires GivenUpBy(maxAttempts, steps, h)
    ensures maxAttempts > 0
    ensures GiveUpNotice(TableRun(maxAttempts, steps[..|steps| - 1]), h) == [PeerGivenUp(h, maxAttempts)]
    ensures PeriodFrom(maxAttempts, steps, h, i) && Downs(steps[i..], h) == maxAttempts
    ensures !TrackedAfter(maxAttempts, steps, h)
  {
    var n := |steps| - 1;
    TableRunKeeps(maxAttempts, steps[..n]);
    i := RetryAccounting(maxAttempts, steps[..n], h);
    assert steps[..n][i..] == steps[i..n] && steps[..n][..i] == steps[..i];
    DownsSnoc(steps, i, h);
  }

  lemma DownsGrow(steps: seq<TableStep>, i: nat, m: nat, h: Host)
    requires i <= m <= |steps|
    ensures Downs(steps[i..m], h) <= Downs(steps[i..], h)
  {
    assert steps[i..] == steps[i..m] + steps[m..];
  }

  /** Giving up happens at most once per period: between two give-ups of a host lies the
      ConnectWithRetry that began the later period. */
  lemma GiveUpOnce(maxAttempts: int, steps: seq<TableStep>, h: Host, m: nat)
    requires m < |steps| && GivenUpBy(maxAttempts, steps[..m], h) && GivenUpBy(maxAttempts, steps, h)
    ensures DoTrack(h) in steps[m..]
  {
    var n := |steps| - 1;
    var _ := GiveUpAccounting(maxAttempts, steps[..m], h);
    var i := RetryAccounting(maxAttempts, steps[..n], h);
    if i < m {
      var before := steps[..n];
      assert before[..m] == steps[..m];
      PeriodShorter(maxAttempts, before, h, i, m);
      DownsGrow(before, i, m, h);
      assert before[i..m] == steps[..m][i..];
      PeriodLasts(maxAttempts, steps[..m], h, i);
    } else {
      assert steps[m..][i - m] == steps[..n][i];
    }
  }

  /** What `dispatchSessionEvent` does to the retry table. */
  function DispatchTable(t: Table, e: Session.Entry): Table {
    match e
    case Up(_, h, _) => OnUp(t, h)
    case Down(_, h) => OnDown(t, h)
    case Fell(_, h) => OnDown(t, h)
    case _ => t
  }

  /** What `dispatchSessionEvent` fans out: a failure is never passed on as a disconnect. */
  function DispatchFanout(t: Table, e: Session.Entry): seq<ProtoEvent> {
    match e
    case Up(_, h, _) => [PeerConnected(h)]
    case Down(_, h) => GiveUpNotice(t, h) + [PeerDisconnected(h)]
    case Fell(_, h) => GiveUpNotice(t, h)
    case _ => []
  }

  /** The events a protocol receives while the runtime works through a session log. Event `n`
      finds the table `tables[n]`: calls and timers may have moved it since the event before. */
  function Fanned(tables: seq<Table>, log: seq<Session.Entry>): seq<ProtoEvent>
    requires |tables| == |log|
  {
    if log == [] then []
    else
      var n := |log| - 1;
      Fanned(tables[..n], log[..n]) + DispatchFanout(tables[n], log[n])
  }

  /** What reaches mailbox `p` of `n` when the context fires after `reach` channel writes. */
  function Reached(events: seq<ProtoEvent>, n: nat, p: nat, reach: nat): seq<ProtoEvent>
    decreases |events|
  {
    if events == [] || reach <= p then []
    else [events[0]] + Reached(events[1..], n, p, if n <= reach then reach - n else 0)
  }

  ghost predicate Arrived(before: seq<seq<ProtoEvent>>, after: seq<seq<ProtoEvent>>,
                          events: seq<ProtoEvent>, reach: nat)
  {
    && |after| == |before|
    && forall p :: 0 <= p < |after| ==> after[p] == before[p] + Reached(events, |after|, p, reach)
  }

  /** How many channel writes are left after `k` rounds of `n`. */
  function Remaining(reach: nat, k: nat, n: nat): nat {
    if k == 0 then reach else Remaining(if n <= reach then reach - n else 0, k - 1, n)
  }

  /** `reach` channel writes are enough for `k` rounds of `n`. */
  predicate Suffices(reach: nat, k: nat, n: nat) {
    k == 0 || (n <= reach && Suffices(reach - n, k - 1, n))
  }

  /** A protocol receives a prefix of what is fanned out, and all of it if the context holds. */
  lemma {:induction false} ReachedIsPrefix(events: seq<ProtoEvent>, n: nat, p: nat, reach: nat)
    requires p < n
    ensures Reached(events, n, p, reach) <= events
    ensures Suffices(reach, |events|, n) ==> Reached(events, n, p, reach) == events
    decreases |events|
  {
    if events == [] || reach <= p {
    } else {
      ReachedIsPrefix(events[1..], n, p, if n <= reach then reach - n else 0);
    }
  }

  lemma {:induction false} NothingReached(events: seq<ProtoEvent>, n: nat, p: nat, k: nat, reach: nat)
    requires reach <= p < n
    ensures Reached(events, n, p, Remaining(reach, k, n)) == []
    decreases k
  {
    if k > 0 { NothingReached(events, n, p, k - 1, 0); }
  }

  lemma {:induction false} ReachedAppend(a: seq<ProtoEvent>, b: seq<ProtoEvent>, n: nat, p: nat, reach: nat)
    requires p < n
    ensures Reached(a + b, n, p, reach) == Reached(a, n, p, reach) + Reached(b, n, p, Remaining(reach, |a|, n))
    decreases |a|
  {
    if a == [] {
      assert a + b == b;
    } else if reach <= p {
      NothingReached(b, n, p, |a|, reach);
    } else {
      assert (a + b)[1..] == a[1..] + b;
      ReachedAppend(a[1..], b, n, p, if n <= reach then reach - n else 0);
    }
  }

  lemma {:induction false} SufficesAppend(reach: nat, k: nat, m: nat, n: nat)
    ensures Suffices(reach, k + m, n) <==> Suffices(reach, k, n) && Suffices(Remaining(reach, k, n), m, n)
    decreases k
  {
    if k > 0 && n <= reach { SufficesAppend(reach - n, k - 1, m, n); }
  }

  lemma ArrivedAppend(before: seq<seq<ProtoEvent>>, mid: seq<seq<ProtoEvent>>, after: seq<seq<ProtoEvent>>,
                      a: seq<ProtoEvent>, b: seq<ProtoEvent>, reach: nat)
    requires Arrived(before, mid, a, reach) && Arrived(mid, after, b, Remaining(reach, |a|, |mid|))
    ensures Arrived(before, after, a + b, reach)
  {
    forall p | 0 <= p < |after| ensures after[p] == before[p] + Reached(a + b, |after|, p, reach) {
      ReachedAppend(a, b, |after|, p, reach);
    }
  }

  lemma NothingArmed(t: Table)
    requires TimersOwned(t) && t.entries.Keys == {}
    ensures t.entries == map[] && t.armed == map[]
  {
    assert t.armed.Keys == {};
  }

  class Runtime {
    const maxAttempts: int
    var entries: map<Host, Tracked>
    var armed: map<nat, Host>
    var nextTimer: nat
    var backoffs: map<nat, nat>
    var mailboxes: seq<seq<ProtoEvent>>

    ghost function State(): Table
      reads this
    {
      Table(maxAttempts, entries, armed, nextTimer, backoffs)
    }

    constructor (maxAttempts: int, protocols: nat)
      ensures State() == Empty(maxAttempts)
      ensures mailboxes == seq(protocols, _ => [])
    {
      this.maxAttempts := maxAttempts;
      entries, armed, nextTimer, backoffs := map[], map[], 0, map[];
      mailboxes := seq(protocols, _ => []);
    }

    method ConnectWithRetry(h: Host) returns (added: bool)
      modifies this`entries
      ensures State() == Track(old(State()), h) && added == (h !in old(entries))
    {
      added := h !in entries;
      if added {
        entries := entries[h := Tracked(0, None)];
      }
    }

    method OnSessionUp(h: Host) returns (cleared: bool)
      modifies this`entries, this`armed
      ensures State() == OnUp(old(State()), h) && cleared == (h in old(entries))
    {
      if h !in entries { return false; }
      StopTimerOf(h);
      entries := entries - {h};
      return true;
    }

    method StopTimerOf(h: Host)
      requires h in entries
      modifies this`armed
      ensures armed == StopTimer(old(armed), entries[h].timer)
    {
      if entries[h].timer.Some? {
        armed := armed - {entries[h].timer.value};
      }
    }

    method OnSessionDown(h: Host) returns (giveUp: bool, attempts: nat)
      modifies this`entries, this`armed, this`nextTimer, this`backoffs
      ensures State() == OnDown(old(State()), h)
      ensures giveUp == GivesUp(old(State()), h)
      ensures giveUp ==> attempts == old(entries)[h].attempt + 1
    {
      if h !in entries { return false, 0; }
      StopTimerOf(h);
      attempts := entries[h].attempt + 1;
      if maxAttempts > 0 && attempts >= maxAttempts {
        entries := entries - {h};
        return true, attempts;
      }
      entries := entries[h := Tracked(attempts, Some(nextTimer))];
      armed := armed[nextTimer := h];
      backoffs := backoffs[nextTimer := attempts - 1];
      nextTimer := nextTimer + 1;
      return false, 0;
    }

    method StopRetryFor(h: Host)
      modifies this`entries, this`armed
      ensures State() == Stop(old(State()), h)
    {
      if h in entries {
        StopTimerOf(h);
        entries := entries - {h};
      }
    }

    /** `retryTeardown`: afterwards nothing is tracked and no timer is left armed. */
    method Teardown()
      requires TimersOwned(State())
      modifies this`entries, this`armed
      ensures entries == map[] && armed == map[]
    {
      while entries.Keys != {}
        invariant TimersOwned(State())
        decreases entries.Keys
      {
        var h :| h in entries.Keys;
        ForgetOwned(State(), h);
        StopRetryFor(h);
      }
      NothingArmed(State());
    }

    /** A backoff timer goes off; the callback looks the host up again. */
    method FireTimer(id: nat) returns (stillTracked: bool)
      requires TimersOwned(State())
      modifies this`armed
      ensures State() == Fire(old(State()), id)
      ensures id in old(armed) ==> stillTracked
    {
      stillTracked := id in armed && armed[id] in entries;
      armed := armed - {id};
    }

    /** Any sequence of calls leaves the table of that run, so all that is proved about runs
        holds of the object. */
    method Serve(steps: seq<TableStep>)
      requires State() == Empty(maxAttempts)
      modifies this`entries, this`armed, this`nextTimer, this`backoffs
      ensures State() == TableRun(maxAttempts, steps)
    {
      assert steps[..0] == [];
      for n := 0 to |steps|
        invariant State() == TableRun(maxAttempts, steps[..n])
      {
        assert steps[..n + 1][..n] == steps[..n];
        TableRunKeeps(maxAttempts, steps[..n]);
        match steps[n] {
          case DoTrack(h) => var _ := ConnectWithRetry(h);
          case DoUp(h) => var _ := OnSessionUp(h);
          case DoDown(h) => var _, _ := OnSessionDown(h);
          case DoStop(h) => StopRetryFor(h);
          case DoFire(id) => var _ := FireTimer(id);
          case DoNothing =>
        }
      }
      assert steps[..|steps|] == steps;
    }

    /** Push `ev` to every protocol in turn; the context fires after `reach` channel writes. */
    method FanoutSessionEvent(ev: ProtoEvent, reach: nat) returns (ok: bool)
      modifies this`mailboxes
      ensures ok == (|mailboxes| <= reach)
      ensures |mailboxes| == |old(mailboxes)|
      ensures forall p :: 0 <= p < |mailboxes| ==>
                mailboxes[p] == if p < reach then old(mailboxes)[p] + [ev] else old(mailboxes)[p]
    {
      var n := 0;
      while n < |mailboxes|
        invariant n <= |mailboxes| == |old(mailboxes)| && n <= reach
        invariant forall p :: 0 <= p < n ==> mailboxes[p] == old(mailboxes)[p] + [ev]
        invariant forall p :: n <= p < |mailboxes| ==> mailboxes[p] == old(mailboxes)[p]
      {
        if n == reach { return false; }
        mailboxes := mailboxes[n := mailboxes[n] + [ev]];
        n := n + 1;
      }
      return true;
    }

    /** Count the failure, and tell the protocols if it was the last. */
    method GiveUpOrRetry(h: Host, reach: nat) returns (ok: bool, left: nat)
      modifies this
      ensures State() == OnDown(old(State()), h)
      ensures Arrived(old(mailboxes), mailboxes, GiveUpNotice(old(State()), h), reach)
      ensures ok == Suffices(reach, |GiveUpNotice(old(State()), h)|, |mailboxes|)
      ensures left == Remaining(reach, |GiveUpNotice(old(State()), h)|, |mailboxes|)
    {
      var giveUp, attempts := OnSessionDown(h);
      if !giveUp { return true, reach; }
      ok := FanoutSessionEvent(PeerGivenUp(h, attempts), reach);
      left := if ok then reach - |mailboxes| else 0;
    }

    /** `dispatchSessionEvent` with a context that fires after `reach` channel writes; an early
        end leaves the table as updated. */
    method DispatchSessionEvent(e: Session.Entry, reach: nat) returns (ok: bool)
      modifies this
      ensures State() == DispatchTable(old(State()), e)
      ensures Arrived(old(mailboxes), mailboxes, DispatchFanout(old(State()), e), reach)
      ensures ok == Suffices(reach, |DispatchFanout(old(State()), e)|, |mailboxes|)
    {
      match e
      case Up(_, h, _) =>
        var _ := OnSessionUp(h);
        ok := FanoutSessionEvent(PeerConnected(h), reach);
      case Down(_, h) =>
        var told, left := GiveUpOrRetry(h, reach);
        ghost var mid, notice := mailboxes, GiveUpNotice(old(State()), h);
        if told {
          ok := FanoutSessionEvent(PeerDisconnected(h), left);
        } else {
          ok := false;
        }
        assert Arrived(mid, mailboxes, [PeerDisconnected(h)], Remaining(reach, |notice|, |mid|));
        ArrivedAppend(old(mailboxes), mid, mailboxes, notice, [PeerDisconnected(h)], reach);
        SufficesAppend(reach, |notice|, 1, |mailboxes|);
      case Fell(_, h) =>
        var told, _ := GiveUpOrRetry(h, reach);
        ok := told;
      case _ => ok := true;
    }
  }
}
