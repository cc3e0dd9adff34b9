/** What becomes of every request: where it is handed over, what each outcome means, that the
    first reply taken is the one the callback sees, and that the work of a runtime runs out.
    Over all runs of the state machine in module `Ipc`. */
module IpcFate {
  import opened Ipc

  // --- the fate of one request ------------------------------------------------------------------

  predicate IsAnswer(o: Outcome) {
    o.Value? || o.Failed? || o.Panicked?
  }

  /** A reply to `t` that came from its responder. */
  ghost predicate Answered(produced: seq<Reply>, t: Token) {
    exists r :: r in produced && r.token == t && IsAnswer(r.outcome)
  }

  /** Where a request is. */
  datatype Spot = Spot(
    asked: bool, stage: int, queued: bool, open: bool, done: bool, running: bool, reporting: bool,
    armed: bool, reported: bool)

  /** Which replies to it were produced. */
  datatype Replies = Replies(noHandler: bool, mistyped: bool, timedOut: bool, answered: bool)

  predicate Responds(s: State, t: Token, done: bool) {
    t in s.responders && s.responders[t].done == done
  }

  predicate HandlerAt(s: State, t: Token, h: Handler) {
    t in s.responders && s.responders[t].handler == h
  }

  function SpotOf(s: State, t: Token): Spot {
    Spot(
      t in s.asked, StageNumber(s, t), t in s.queued, Responds(s, t, false), Responds(s, t, true),
      HandlerAt(s, t, Running), HandlerAt(s, t, Reported), t in s.armed, t in s.reports)
  }

  ghost function RepliesOf(produced: seq<Reply>, t: Token): Replies {
    Replies(
      Reply(t, NoHandler) in produced, Reply(t, TypeMismatch) in produced, Reply(t, TimedOut) in produced,
      Answered(produced, t))
  }

  /** A request that was asked is with its caller, queued, with its handler, or was turned away
      with exactly the error for it; unless a shutdown took it. What is handed over has its
      timer running or its timeout out. A handler's answer is out exactly if its responder is
      used up, and a handler that panicked has used it up when it is done. */
  ghost predicate FateInv(f: Spot, r: Replies, cancelled: bool) {
    && (f.asked && f.stage == 0 && !cancelled ==> f.queued || f.open || f.done || r.noHandler || r.mistyped)
    && (r.noHandler ==> f.asked && f.stage == 0 && !f.queued && !f.open && !f.done && !f.armed)
    && (r.noHandler ==> !r.mistyped && !r.timedOut)
    && (r.mistyped ==> f.asked && f.stage == 0 && !f.queued && !f.open && !f.done)
    && (f.stage != 0 ==> f.asked && !f.queued && !f.open && !f.done)
    && (f.queued ==> f.asked && !f.open && !f.done)
    && (f.open || f.done ==> f.asked)
    && (f.queued || f.open || f.done || r.mistyped || f.stage == 3 ==> f.armed || r.timedOut)
    && (f.armed ==> !r.timedOut)
    && (f.stage == 1 || f.stage == 2 || !f.asked ==> !f.armed && !r.timedOut)
    && (r.answered <==> f.done)
    && !(f.open && f.done)
    && (f.running || f.reporting ==> f.open || f.done)
    && (f.reported ==> !f.running && (f.open || f.done) && (f.reporting || f.done))
    && (f.reporting ==> f.reported)
  }

  ghost predicate Fated(s: State, t: Token) {
    FateInv(SpotOf(s, t), RepliesOf(s.produced, t), s.cancelled)
  }

  lemma AnsweredGrows(produced: seq<Reply>, r: Reply, t: Token)
    ensures Answered(produced + [r], t) <==> Answered(produced, t) || (r.token == t && IsAnswer(r.outcome))
  {
    if Answered(produced, t) {
      var q :| q in produced && q.token == t && IsAnswer(q.outcome);
      assert q in produced + [r];
    }
    if r.token == t && IsAnswer(r.outcome) { assert (produced + [r])[|produced|] == r; }
  }

  lemma ProducedGrows(produced: seq<Reply>, r: Reply, q: Reply)
    ensures q in produced + [r] <==> q in produced || q == r
  {
  }

  function WithReply(r: Replies, o: Outcome): Replies {
    match o
    case NoHandler => r.(noHandler := true)
    case TypeMismatch => r.(mistyped := true)
    case TimedOut => r.(timedOut := true)
    case _ => r.(answered := true)
  }

  lemma RepliesGrow(produced: seq<Reply>, r: Reply, x: Token)
    ensures RepliesOf(produced + [r], x)
         == if x == r.token then WithReply(RepliesOf(produced, x), r.outcome) else RepliesOf(produced, x)
  {
    AnsweredGrows(produced, r, x);
    ProducedGrows(produced, r, Reply(x, NoHandler));
    ProducedGrows(produced, r, Reply(x, TypeMismatch));
    ProducedGrows(produced, r, Reply(x, TimedOut));
  }

  lemma AllocateFate(s: State, p: nat, cb: Callback, x: Token)
    requires Inv(s) && Fated(s, x)
    ensures Fated(DoAllocate(s, p, cb), x)
  {
    var t := Token(p, LastId(s, p) + 1);
    assert PlaceInv(At(s, t));
    assert SpotOf(DoAllocate(s, p, cb), x)
        == if x == t then SpotOf(s, t).(asked := true, stage := 1) else SpotOf(s, x);
  }

  lemma RegisterFate(s: State, t: Token, x: Token)
    requires AtStage(s, t, Allocated) && Fated(s, x)
    ensures Fated(DoRegister(s, t), x)
  {
    assert SpotOf(DoRegister(s, t), x) == if x == t then SpotOf(s, t).(stage := 2) else SpotOf(s, x);
  }

  lemma RouteMissingFate(s: State, t: Token, x: Token)
    requires AtStage(s, t, Registered) && Fated(s, x)
    ensures Fated(DoRouteMissing(s, t), x)
  {
    var s1 := s.(calls := s.calls - {t});
    RepliesGrow(s.produced, Reply(t, NoHandler), x);
    assert SpotOf(s1, x) == if x == t then SpotOf(s, t).(stage := 0) else SpotOf(s, x);
  }

  lemma ArmFate(s: State, t: Token, x: Token)
    requires AtStage(s, t, Registered) && Fated(s, x)
    ensures Fated(DoArm(s, t), x)
  {
    assert SpotOf(DoArm(s, t), x) == if x == t then SpotOf(s, t).(stage := 3, armed := true) else SpotOf(s, x);
  }

  lemma PostFate(s: State, t: Token, x: Token)
    requires AtStage(s, t, Armed) && Fated(s, x)
    ensures Fated(DoPost(s, t), x)
  {
    assert SpotOf(DoPost(s, t), x) == if x == t then SpotOf(s, t).(stage := 0, queued := true) else SpotOf(s, x);
  }

  lemma FireFate(s: State, t: Token, x: Token)
    requires t in s.armed && Fated(s, x)
    ensures Fated(DoFire(s, t), x)
  {
    var s1 := s.(armed := s.armed - {t});
    RepliesGrow(s.produced, Reply(t, TimedOut), x);
    assert SpotOf(s1, x) == if x == t then SpotOf(s, t).(armed := false) else SpotOf(s, x);
  }

  lemma DispatchFate(s: State, t: Token, x: Token)
    requires t in s.queued && Fated(s, x)
    ensures Fated(DoDispatch(s, t), x)
  {
    assert SpotOf(DoDispatch(s, t), x)
        == if x != t then SpotOf(s, x)
           else SpotOf(s, t).(queued := false, open := true, done := false, running := true, reporting := false);
  }

  lemma MisrouteFate(s: State, t: Token, x: Token)
    requires t in s.queued && Fated(s, x)
    ensures Fated(DoMisroute(s, t), x)
  {
    var s1 := s.(queued := s.queued - {t});
    RepliesGrow(s.produced, Reply(t, TypeMismatch), x);
    assert SpotOf(s1, x) == if x == t then SpotOf(s, t).(queued := false) else SpotOf(s, x);
  }

  lemma SettleSpot(s: State, t: Token, o: Outcome, x: Token)
    requires t in s.responders
    ensures SpotOf(Settle(s, t, o), x)
         == if x == t && !s.responders[t].done then SpotOf(s, x).(open := false, done := true) else SpotOf(s, x)
  {
  }

  /** A responder's answer, whatever its handler is doing: the answer and the flag go together. */
  lemma SettleFate(s: State, t: Token, o: Outcome, x: Token)
    requires t in s.responders && IsAnswer(o)
    ensures var open := x == t && !s.responders[t].done;
            var f, r := SpotOf(s, x), RepliesOf(s.produced, x);
            && SpotOf(Settle(s, t, o), x) == (if open then f.(open := false, done := true) else f)
            && RepliesOf(Settle(s, t, o).produced, x) == (if open then r.(answered := true) else r)
  {
    SettleSpot(s, t, o, x);
    RepliesGrow(s.produced, Reply(t, o), x);
  }

  lemma SetHandlerFate(s: State, t: Token, h: Handler, x: Token)
    requires t in s.responders
    ensures SpotOf(SetHandler(s, t, h), x)
         == if x == t then SpotOf(s, t).(running := h == Running, reporting := h == Reported) else SpotOf(s, x)
  {
  }

  lemma AnswerFate(s: State, t: Token, o: Outcome, x: Token)
    requires t in s.responders && IsAnswer(o) && Fated(s, x)
    ensures Fated(Settle(s, t, o), x)
  {
    SettleFate(s, t, o, x);
  }

  lemma ReturnFate(s: State, t: Token, x: Token)
    requires HandlerAt(s, t, Running) && Fated(s, x)
    ensures Fated(SetHandler(s, t, Returned), x)
  {
    SetHandlerFate(s, t, Returned, x);
  }

  lemma PanicFate(s: State, t: Token, x: Token)
    requires HandlerAt(s, t, Running) && Fated(s, x)
    ensures Fated(DoPanic(s, t), x)
  {
    SetHandlerFate(s, t, Reported, x);
    var s1 := SetHandler(s, t, Reported);
    assert SpotOf(DoPanic(s, t), x) == if x == t then SpotOf(s1, t).(reported := true) else SpotOf(s1, x);
  }

  lemma AutoFailFate(s: State, t: Token, x: Token)
    requires HandlerAt(s, t, Reported) && Fated(s, x)
    ensures Fated(DoAutoFail(s, t), x)
  {
    SetHandlerFate(s, t, Returned, x);
    SettleFate(SetHandler(s, t, Returned), t, Panicked, x);
  }

  /** Replies in transit, completions and the flag of a shutdown change no fate. */
  lemma QuietFate(s: State, s': State, x: Token)
    requires Fated(s, x) && (s.cancelled ==> s'.cancelled)
    requires s'.asked == s.asked && s'.calls == s.calls && s'.queued == s.queued && s'.responders == s.responders
    requires s'.armed == s.armed && s'.reports == s.reports && s'.produced == s.produced
    ensures Fated(s', x)
  {
    assert SpotOf(s', x) == SpotOf(s, x);
  }

  lemma AbandonPostFate(s: State, t: Token, x: Token)
    requires s.cancelled && AtStage(s, t, Armed) && Fated(s, x)
    ensures Fated(s.(calls := s.calls - {t}), x)
  {
    var s' := s.(calls := s.calls - {t});
    assert SpotOf(s', x) == if x == t then SpotOf(s, t).(stage := 0) else SpotOf(s, x);
  }

  lemma CallFates(s: State, step: Step, x: Token)
    requires Inv(s) && Enabled(s, step) && Fated(s, x)
    requires step.Allocate? || step.Register? || step.RouteMissing? || step.ArmTimer? || step.Post? || step.AbandonPost?
    ensures Fated(Next(s, step), x)
  {
    match step
    case Allocate(p, cb) => AllocateFate(s, p, cb, x);
    case Register(t) => RegisterFate(s, t, x);
    case RouteMissing(t) => RouteMissingFate(s, t, x);
    case ArmTimer(t) => ArmFate(s, t, x);
    case Post(t) => PostFate(s, t, x);
    case AbandonPost(t) => AbandonPostFate(s, t, x);
  }

  lemma HandlerFates(s: State, step: Step, x: Token)
    requires Enabled(s, step) && Fated(s, x)
    requires step.TimerFires? || step.Dispatch? || step.Misroute? || step.Return? || step.Panic? || step.AutoFail?
    ensures Fated(Next(s, step), x)
  {
    match step
    case TimerFires(t) => FireFate(s, t, x);
    case Dispatch(t) => DispatchFate(s, t, x);
    case Misroute(t) => MisrouteFate(s, t, x);
    case Return(t) => ReturnFate(s, t, x);
    case Panic(t) => PanicFate(s, t, x);
    case AutoFail(t) => AutoFailFate(s, t, x);
  }

  lemma TakeFate(s: State, r: Reply, x: Token)
    requires Fated(s, x)
    ensures Fated(DoTake(s, r), x)
  {
    if r.token in s.pending { QuietFate(s, DoComplete(s, r), x); } else { QuietFate(s, DoDrop(s, r), x); }
  }

  lemma TransitFate(s: State, step: Step, x: Token)
    requires Enabled(s, step) && Fated(s, x) && (step.Enqueue? || step.Cancel? || step.Abandon?)
    ensures Fated(Next(s, step), x)
  {
    QuietFate(s, Next(s, step), x);
  }

  lemma ReplyFates(s: State, step: Step, x: Token)
    requires Enabled(s, step) && Fated(s, x)
    requires step.Answer? || step.Enqueue? || step.Take? || step.Cancel? || step.Abandon?
    ensures Fated(Next(s, step), x)
  {
    if step.Answer? {
      AnswerFate(s, step.token, step.outcome, x);
    } else if step.Take? {
      TakeFate(s, step.reply, x);
    } else {
      TransitFate(s, step, x);
    }
  }

  predicate CallStep(step: Step) {
    step.Allocate? || step.Register? || step.RouteMissing? || step.ArmTimer? || step.Post? || step.AbandonPost?
  }

  predicate ReplyStep(step: Step) {
    step.Answer? || step.Enqueue? || step.Take? || step.Cancel? || step.Abandon?
  }

  lemma NextKeepsFate(s: State, step: Step, x: Token)
    requires Inv(s) && Enabled(s, step) && Fated(s, x)
    ensures Fated(Next(s, step), x)
  {
    if CallStep(step) {
      CallFates(s, step, x);
    } else if ReplyStep(step) {
      ReplyFates(s, step, x);
    } else {
      HandlerFates(s, step, x);
    }
  }

  lemma {:induction false} RunKeepsFate(steps: seq<Step>, x: Token)
    ensures Fated(Run(steps), x)
    decreases |steps|
  {
    if steps == [] {
    } else {
      var s, step := Run(steps[..|steps| - 1]), steps[|steps| - 1];
      RunKeepsFate(steps[..|steps| - 1], x);
      RunKeeps(steps[..|steps| - 1]);
      if Enabled(s, step) { NextKeepsFate(s, step, x); }
    }
  }

  /** Hand-over: while uncancelled, a request whose call has returned is queued for its handler,
      has reached it, or was answered with no-handler or type-mismatch. */
  lemma RequestsAreHandedOver(steps: seq<Step>, t: Token)
    requires !Run(steps).cancelled && t in Run(steps).asked && t !in Run(steps).calls
    ensures var s := Run(steps);
            || t in s.queued || t in s.responders
            || Reply(t, NoHandler) in s.produced || Reply(t, TypeMismatch) in s.produced
  {
    RunKeepsFate(steps, t);
  }

  /** What the errors mean: no-handler excludes a queue, a handler and a timer; a type mismatch
      excludes a handler but has a timer; a timeout has used the timer up; and whatever has
      been handed over has its timer armed or its timeout out. */
  lemma ErrorsMeanWhatTheySay(steps: seq<Step>, t: Token)
    ensures var s := Run(steps);
            && (Reply(t, NoHandler) in s.produced ==>
                  t !in s.queued && t !in s.responders && t !in s.armed && Reply(t, TimedOut) !in s.produced)
            && (Reply(t, TypeMismatch) in s.produced ==> t !in s.queued && t !in s.responders)
            && (Reply(t, TimedOut) in s.produced ==> t !in s.armed)
            && (t in s.queued || t in s.responders || Reply(t, TypeMismatch) in s.produced ==>
                  t in s.armed || Reply(t, TimedOut) in s.produced)
  {
    RunKeepsFate(steps, t);
  }

  /** An answer is out exactly if the responder is used up; a handler that has panicked and
      been recovered has always used it up. */
  lemma AnswersAreOut(steps: seq<Step>, t: Token)
    ensures var s := Run(steps);
            && (Answered(s.produced, t) <==> Responds(s, t, true))
            && (t in s.reports && HandlerAt(s, t, Returned) ==> Answered(s.produced, t))
            && (t in s.reports ==> t in s.responders && !HandlerAt(s, t, Running))
  {
    RunKeepsFate(steps, t);
  }

  // --- the first reply wins ------------------------------------------------------------------------

  /** The outcome of the first reply to `t` that was taken. */
  function FirstTaken(taken: seq<Reply>, t: Token): Option {
    if taken == [] then Nothing
    else
      var before := FirstTaken(taken[..|taken| - 1], t);
      if before.Just? then before
      else if taken[|taken| - 1].token == t then Just(taken[|taken| - 1].outcome)
      else Nothing
  }

  datatype Option = Nothing | Just(outcome: Outcome)

  lemma FirstTakenGrows(taken: seq<Reply>, r: Reply, t: Token)
    ensures FirstTaken(taken + [r], t)
         == if FirstTaken(taken, t).Just? || r.token != t then FirstTaken(taken, t) else Just(r.outcome)
  {
    assert (taken + [r])[..|taken|] == taken;
  }

  /** A callback has run with the first reply taken, and while it has not run none was. */
  ghost predicate FirstInv(s: State) {
    && (forall c :: c in s.completed ==> FirstTaken(s.taken, c.token) == Just(c.outcome))
    && (forall t :: t in s.pending || AtStage(s, t, Allocated) ==> FirstTaken(s.taken, t).Nothing?)
  }

  lemma {:induction false} NoneTaken(taken: seq<Reply>, t: Token)
    requires forall k :: 0 <= k < |taken| ==> taken[k].token != t
    ensures FirstTaken(taken, t).Nothing?
  {
    if taken != [] { NoneTaken(taken[..|taken| - 1], t); }
  }

  /** A request whose call has only allocated its number has no reply. */
  lemma FreshHasNoReply(s: State, t: Token, r: Reply)
    requires PlacesInv(s) && (t !in s.asked || AtStage(s, t, Allocated)) && r in s.produced
    ensures r.token != t
  {
    if r.token == t {
      assert PlaceInv(At(s, t));
      Counted(s.produced, r);
    }
  }

  lemma FreshTakenNothing(s: State, t: Token)
    requires PlacesInv(s) && RepliesInv(s) && (t !in s.asked || AtStage(s, t, Allocated))
    ensures FirstTaken(s.taken, t).Nothing?
  {
    forall k | 0 <= k < |s.taken| ensures s.taken[k].token != t {
      assert s.taken[k] in multiset(s.taken);
      assert s.taken[k] in multiset(s.produced);
      FreshHasNoReply(s, t, s.taken[k]);
    }
    NoneTaken(s.taken, t);
  }

  lemma CompleteFirst(s: State, r: Reply)
    requires FirstInv(s) && r.token in s.pending && !AtStage(s, r.token, Allocated)
    ensures FirstInv(DoComplete(s, r))
  {
    var s' := DoComplete(s, r);
    forall c | c in s'.completed ensures FirstTaken(s'.taken, c.token) == Just(c.outcome) {
      FirstTakenGrows(s.taken, r, c.token);
      assert c in s.completed || c == Completion(r.token, s.pending[r.token], r.outcome);
    }
    forall t | t in s'.pending || AtStage(s', t, Allocated) ensures FirstTaken(s'.taken, t).Nothing? {
      FirstTakenGrows(s.taken, r, t);
    }
  }

  lemma DropFirst(s: State, r: Reply)
    requires Inv(s) && FirstInv(s) && r.token !in s.pending && r in s.inbox
    ensures FirstInv(DoDrop(s, r))
  {
    var s' := DoDrop(s, r);
    forall c | c in s'.completed ensures FirstTaken(s'.taken, c.token) == Just(c.outcome) {
      FirstTakenGrows(s.taken, r, c.token);
    }
    forall t | t in s'.pending || AtStage(s', t, Allocated) ensures FirstTaken(s'.taken, t).Nothing? {
      FirstTakenGrows(s.taken, r, t);
      if AtStage(s, t, Allocated) {
        assert r in multiset(s.produced);
        FreshHasNoReply(s, t, r);
      }
    }
  }

  lemma AllocateFirst(s: State, p: nat, cb: Callback)
    requires Inv(s) && FirstInv(s)
    ensures FirstInv(DoAllocate(s, p, cb))
  {
    var t := Token(p, LastId(s, p) + 1);
    assert PlaceInv(At(s, t));
    FreshTakenNothing(s, t);
  }

  /** A step that takes no reply and makes nothing pending or allocated that was not. */
  lemma QuietFirst(s: State, s': State)
    requires FirstInv(s) && s'.taken == s.taken && s'.completed == s.completed
    requires forall t :: t in s'.pending || AtStage(s', t, Allocated) ==> t in s.pending || AtStage(s, t, Allocated)
    ensures FirstInv(s')
  {
  }

  lemma CompletePendingClash(s: State, r: Reply)
    requires PlacesInv(s) && r.token in s.pending
    ensures !AtStage(s, r.token, Allocated)
  {
    assert PlaceInv(At(s, r.token));
  }

  lemma TakeFirst(s: State, r: Reply)
    requires Inv(s) && FirstInv(s) && r in s.inbox
    ensures FirstInv(DoTake(s, r))
  {
    if r.token in s.pending {
      CompletePendingClash(s, r);
      CompleteFirst(s, r);
    } else {
      DropFirst(s, r);
    }
  }

  lemma CallFirst(s: State, step: Step)
    requires FirstInv(s) && Enabled(s, step) && CallStep(step) && !step.Allocate?
    ensures FirstInv(Next(s, step))
  {
    match step
    case Register(t) => QuietFirst(s, DoRegister(s, t));
    case RouteMissing(t) => QuietFirst(s, DoRouteMissing(s, t));
    case ArmTimer(t) => QuietFirst(s, DoArm(s, t));
    case Post(t) => QuietFirst(s, DoPost(s, t));
    case AbandonPost(t) => QuietFirst(s, s.(calls := s.calls - {t}));
  }

  /** The other steps touch neither the calls nor the pending entries nor what was taken. */
  ghost predicate LeavesCallbacks(s: State, s': State) {
    s'.taken == s.taken && s'.completed == s.completed && s'.pending == s.pending && s'.calls == s.calls
  }

  lemma SettleIsQuiet(s: State, t: Token, o: Outcome)
    requires t in s.responders
    ensures LeavesCallbacks(s, Settle(s, t, o))
  {
  }

  lemma AutoFailIsQuiet(s: State, t: Token)
    requires t in s.responders
    ensures LeavesCallbacks(s, DoAutoFail(s, t))
  {
    SettleIsQuiet(SetHandler(s, t, Returned), t, Panicked);
  }

  lemma HandlerStepsAreQuiet(s: State, step: Step)
    requires Enabled(s, step) && (step.Return? || step.Panic? || step.AutoFail? || step.Answer?)
    ensures LeavesCallbacks(s, Next(s, step))
  {
    if step.Answer? {
      SettleIsQuiet(s, step.token, step.outcome);
    } else if step.AutoFail? {
      AutoFailIsQuiet(s, step.token);
    }
  }

  lemma TransitIsQuiet(s: State, step: Step)
    requires Enabled(s, step)
    requires step.TimerFires? || step.Dispatch? || step.Misroute? || step.Enqueue? || step.Cancel? || step.Abandon?
    ensures LeavesCallbacks(s, Next(s, step))
  {
  }

  lemma OtherStepsAreQuiet(s: State, step: Step)
    requires Enabled(s, step) && !CallStep(step) && !step.Take?
    ensures LeavesCallbacks(s, Next(s, step))
  {
    if step.Return? || step.Panic? || step.AutoFail? || step.Answer? {
      HandlerStepsAreQuiet(s, step);
    } else {
      TransitIsQuiet(s, step);
    }
  }

  lemma NextKeepsFirst(s: State, step: Step)
    requires Inv(s) && FirstInv(s) && Enabled(s, step)
    ensures FirstInv(Next(s, step))
  {
    if step.Allocate? {
      AllocateFirst(s, step.requester, step.cb);
    } else if step.Take? {
      TakeFirst(s, step.reply);
    } else if CallStep(step) {
      CallFirst(s, step);
    } else {
      OtherStepsAreQuiet(s, step);
      QuietFirst(s, Next(s, step));
    }
  }

  lemma {:induction false} RunKeepsFirst(steps: seq<Step>)
    ensures FirstInv(Run(steps))
    decreases |steps|
  {
    if steps == [] {
    } else {
      var s, step := Run(steps[..|steps| - 1]), steps[|steps| - 1];
      RunKeepsFirst(steps[..|steps| - 1]);
      RunKeeps(steps[..|steps| - 1]);
      if Enabled(s, step) { NextKeepsFirst(s, step); }
    }
  }

  /** First arrival wins: a callback is given the outcome of the first reply to its request that
      its event loop took, and a request still pending has had none taken. */
  lemma FirstArrivalWins(steps: seq<Step>, t: Token)
    ensures var s := Run(steps);
            && (forall c :: c in s.completed && c.token == t ==> FirstTaken(s.taken, t) == Just(c.outcome))
            && (t in s.pending ==> FirstTaken(s.taken, t).Nothing?)
  {
    RunKeepsFirst(steps);
  }

  // --- the work runs out -----------------------------------------------------------------------------

  function CallsAt(calls: map<Token, Call>, stage: Stage): set<Token> {
    set t | t in calls && calls[t].stage == stage
  }

  function Weight(stage: Stage): nat {
    match stage case Allocated => 13 case Registered => 12 case Armed => 8
  }

  /** What calls in progress may still cause. */
  function CallWork(calls: map<Token, Call>): nat {
    13 * |CallsAt(calls, Allocated)| + 12 * |CallsAt(calls, Registered)| + 8 * |CallsAt(calls, Armed)|
  }

  lemma RemoveCall(calls: map<Token, Call>, t: Token, stage: Stage)
    requires t in calls
    ensures |CallsAt(calls - {t}, stage)| == |CallsAt(calls, stage)| - Bit(calls[t].stage == stage)
  {
    assert CallsAt(calls - {t}, stage) == CallsAt(calls, stage) - {t};
  }

  lemma AddCall(calls: map<Token, Call>, t: Token, c: Call, stage: Stage)
    requires t !in calls
    ensures |CallsAt(calls[t := c], stage)| == |CallsAt(calls, stage)| + Bit(c.stage == stage)
  {
    assert CallsAt(calls[t := c], stage) == CallsAt(calls, stage) + if c.stage == stage then {t} else {};
  }

  lemma DropCallWork(calls: map<Token, Call>, t: Token)
    requires t in calls
    ensures CallWork(calls - {t}) == CallWork(calls) - Weight(calls[t].stage)
  {
    RemoveCall(calls, t, Allocated);
    RemoveCall(calls, t, Registered);
    RemoveCall(calls, t, Armed);
  }

  lemma MoveCallWork(calls: map<Token, Call>, t: Token, c: Call)
    requires t in calls
    ensures CallWork(calls[t := c]) == CallWork(calls) - Weight(calls[t].stage) + Weight(c.stage)
  {
    DropCallWork(calls, t);
    var without := calls - {t};
    AddCall(without, t, c, Allocated);
    AddCall(without, t, c, Registered);
    AddCall(without, t, c, Armed);
    assert without[t := c] == calls[t := c];
  }

  function Unused(responders: map<Token, Responder>): set<Token> {
    set t | t in responders && !responders[t].done
  }

  function HandlersAt(responders: map<Token, Responder>, h: Handler): set<Token> {
    set t | t in responders && responders[t].handler == h
  }

  function ResponderWeight(r: Responder): nat {
    3 * Bit(!r.done) + 2 * Bit(r.handler == Running) + Bit(r.handler == Reported)
  }

  /** What handlers and their responders may still cause. */
  function ResponderWork(responders: map<Token, Responder>): nat {
    3 * |Unused(responders)| + 2 * |HandlersAt(responders, Running)| + |HandlersAt(responders, Reported)|
  }

  lemma AddUnused(responders: map<Token, Responder>, t: Token, r: Responder)
    requires t !in responders
    ensures |Unused(responders[t := r])| == |Unused(responders)| + Bit(!r.done)
  {
    assert Unused(responders[t := r]) == Unused(responders) + if !r.done then {t} else {};
  }

  lemma AddHandler(responders: map<Token, Responder>, t: Token, r: Responder, h: Handler)
    requires t !in responders
    ensures |HandlersAt(responders[t := r], h)| == |HandlersAt(responders, h)| + Bit(r.handler == h)
  {
    assert HandlersAt(responders[t := r], h) == HandlersAt(responders, h) + if r.handler == h then {t} else {};
  }

  lemma AddResponder(responders: map<Token, Responder>, t: Token, r: Responder)
    requires t !in responders
    ensures ResponderWork(responders[t := r]) == ResponderWork(responders) + ResponderWeight(r)
  {
    AddUnused(responders, t, r);
    AddHandler(responders, t, r, Running);
    AddHandler(responders, t, r, Reported);
  }

  lemma MoveResponder(responders: map<Token, Responder>, t: Token, r: Responder)
    requires t in responders
    ensures ResponderWork(responders[t := r])
         == ResponderWork(responders) - ResponderWeight(responders[t]) + ResponderWeight(r)
  {
    var without := responders - {t};
    AddResponder(without, t, responders[t]);
    AddResponder(without, t, r);
    assert without[t := responders[t]] == responders && without[t := r] == responders[t := r];
  }

  /** All that is still to be done. */
  function Work(s: State): nat {
    CallWork(s.calls) + 7 * |s.queued| + 3 * |s.armed| + ResponderWork(s.responders) + 2 * |s.delivering| + |s.inbox|
  }

  /** A step that does work: neither a new request nor a shutdown nor an answer that comes too
      late. */
  predicate Works(s: State, step: Step) {
    && Enabled(s, step) && !step.Allocate? && !step.Cancel?
    && (step.Answer? ==> !s.responders[step.token].done)
  }

  lemma CallMoves(s: State, t: Token)
    requires PlacesInv(s) && t in s.calls
    ensures AtStage(s, t, Allocated) ==> Work(DoRegister(s, t)) < Work(s)
    ensures AtStage(s, t, Registered) ==> Work(DoArm(s, t)) < Work(s)
  {
    assert PlaceInv(At(s, t));
    MoveCallWork(s.calls, t, s.calls[t].(stage := Registered));
    MoveCallWork(s.calls, t, s.calls[t].(stage := Armed));
  }

  lemma CallEnds(s: State, t: Token)
    requires PlacesInv(s) && t in s.calls
    ensures AtStage(s, t, Registered) ==> Work(DoRouteMissing(s, t)) < Work(s)
    ensures AtStage(s, t, Armed) ==> Work(DoPost(s, t)) < Work(s) && Work(s.(calls := s.calls - {t})) < Work(s)
  {
    assert PlaceInv(At(s, t));
    DropCallWork(s.calls, t);
  }

  lemma CallWorkFalls(s: State, step: Step)
    requires PlacesInv(s) && Works(s, step) && CallStep(step)
    ensures Work(Next(s, step)) < Work(s)
  {
    if step.Register? || step.ArmTimer? { CallMoves(s, step.token); } else { CallEnds(s, step.token); }
  }

  lemma SettleWork(s: State, t: Token, o: Outcome)
    requires t in s.responders
    ensures Work(Settle(s, t, o)) == Work(s) - Bit(!s.responders[t].done)
  {
    if !s.responders[t].done { MoveResponder(s.responders, t, s.responders[t].(done := true)); }
  }

  lemma SetHandlerWork(s: State, t: Token, h: Handler)
    requires t in s.responders
    ensures Work(SetHandler(s, t, h))
         == Work(s) - ResponderWeight(s.responders[t]) + ResponderWeight(s.responders[t].(handler := h))
  {
    MoveResponder(s.responders, t, s.responders[t].(handler := h));
  }

  lemma QueueWorkFalls(s: State, t: Token)
    requires PlacesInv(s) && t in s.queued
    ensures Work(DoDispatch(s, t)) < Work(s) && Work(DoMisroute(s, t)) < Work(s)
  {
    assert PlaceInv(At(s, t));
    AddResponder(s.responders, t, Responder(false, Running));
  }

  lemma HandlerWorkFalls(s: State, step: Step)
    requires Works(s, step) && (step.Return? || step.Panic? || step.AutoFail? || step.Answer?)
    ensures Work(Next(s, step)) < Work(s)
  {
    match step
    case Return(t) => SetHandlerWork(s, t, Returned);
    case Panic(t) =>
      SetHandlerWork(s, t, Reported);
      assert Work(DoPanic(s, t)) == Work(SetHandler(s, t, Reported));
    case AutoFail(t) =>
      SetHandlerWork(s, t, Returned);
      SettleWork(SetHandler(s, t, Returned), t, Panicked);
    case Answer(t, o) => SettleWork(s, t, o);
  }

  lemma TakeWorkFalls(s: State, r: Reply)
    requires r in s.inbox
    ensures Work(DoTake(s, r)) < Work(s)
  {
    assert Work(DoDrop(s, r)) == Work(s) - 1;
    if r.token in s.pending { assert Work(DoComplete(s, r)) == Work(s) - 1; }
  }

  lemma FireWorkFalls(s: State, t: Token)
    requires t in s.armed
    ensures Work(DoFire(s, t)) < Work(s)
  {
  }

  lemma TransitWorkFalls(s: State, step: Step)
    requires Works(s, step) && (step.Enqueue? || step.Abandon?)
    ensures Work(Next(s, step)) < Work(s)
  {
  }

  /** Every step that does work lowers what is left of it. */
  lemma WorkFalls(s: State, step: Step)
    requires PlacesInv(s) && Works(s, step)
    ensures Work(Next(s, step)) < Work(s)
  {
    if CallStep(step) {
      CallWorkFalls(s, step);
    } else if step.Dispatch? || step.Misroute? {
      QueueWorkFalls(s, step.token);
    } else if step.Take? {
      TakeWorkFalls(s, step.reply);
    } else if step.TimerFires? {
      FireWorkFalls(s, step.token);
    } else if step.Enqueue? || step.Abandon? {
      TransitWorkFalls(s, step);
    } else {
      HandlerWorkFalls(s, step);
    }
  }

  ghost predicate WorksAfter(steps: seq<Step>, step: Step) {
    Works(Run(steps), step)
  }

  /** `more` continues the run `steps` by steps that all do work. */
  ghost predicate AllWork(steps: seq<Step>, more: seq<Step>) {
    more == [] || (
      var n := |more| - 1;
      AllWork(steps, more[..n]) && WorksAfter(steps + more[..n], more[n]))
  }

  ghost function WorkAfter(steps: seq<Step>): nat {
    Work(Run(steps))
  }

  /** Nothing goes on for ever: from any reachable state, as long as nobody sends a request,
      only so many steps can follow. */
  lemma {:induction false} WorkRunsOut(steps: seq<Step>, more: seq<Step>)
    requires AllWork(steps, more)
    ensures |more| + WorkAfter(steps + more) <= WorkAfter(steps)
    decreases |more|
  {
    if more == [] {
      assert steps + more == steps;
    } else {
      var n := |more| - 1;
      WorkRunsOut(steps, more[..n]);
      LastWorks(steps + more[..n], more[n]);
      Regroup(steps, more);
    }
  }

  lemma Regroup(steps: seq<Step>, more: seq<Step>)
    requires more != []
    ensures steps + more[..|more| - 1] + [more[|more| - 1]] == steps + more
  {
  }

  lemma LastWorks(steps: seq<Step>, step: Step)
    requires WorksAfter(steps, step)
    ensures WorkAfter(steps + [step]) < WorkAfter(steps)
  {
    RunKeeps(steps);
    RunSnoc(steps, step);
    WorkFalls(Run(steps), step);
  }

  /** When an uncancelled runtime has run out of work, every request ever asked has had its
      callback run, exactly once. With the lemma before it: whatever the interleaving, every
      request completes. */
  lemma OutOfWorkIsDone(steps: seq<Step>)
    requires !Run(steps).cancelled && forall step :: !Works(Run(steps), step)
    ensures Run(steps).pending == map[]
    ensures forall t :: t in Run(steps).asked ==> Runs(Run(steps).completed, t) == 1
  {
    var s := Run(steps);
    NoCallsLeft(s);
    NothingInTransit(s);
    QuiescenceCompletesEverything(steps);
  }

  lemma NoCallsLeft(s: State)
    requires forall step :: !Works(s, step)
    ensures s.calls == map[]
  {
    if t :| t in s.calls {
      match s.calls[t].stage
      case Allocated => assert Works(s, Register(t));
      case Registered => assert Works(s, ArmTimer(t));
      case Armed => assert Works(s, Post(t));
    }
    assert s.calls.Keys == {};
  }

  lemma NothingInTransit(s: State)
    requires forall step :: !Works(s, step)
    ensures s.armed == {} && s.delivering == s.inbox == multiset{}
  {
    if t :| t in s.armed { assert Works(s, TimerFires(t)); }
    if r :| r in s.delivering { assert Works(s, Enqueue(r)); }
    if r :| r in s.inbox { assert Works(s, Take(r)); }
  }
}
