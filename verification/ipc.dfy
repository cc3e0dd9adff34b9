/** Request/Reply between protocols of one runtime as a state machine: `sendRequest` and
    `deliverReply` in `pkg/protorun/runtime.go`, `deliverReply` in `pkg/protorun/protocol.go`,
    and the responder and the recovering closure in `pkg/protorun/ipc.go`. One step is one
    atomic action: a lock region, a compare-and-swap, a channel operation or a timer. The
    order of a channel does not matter to what is proved here, so channels are bags and
    any waiting item may be taken next. */
module Ipc {

  /** A `replyToken`: the requesting protocol and its request number. */
  datatype Token = Token(requester: nat, id: nat)

  type Callback = nat

  /** What a requester can be told. `Failed` is an error a handler passed to Fail; handlers
      do not pass ErrHandlerPanicked themselves. */
  datatype Outcome = Value(v: int) | Failed(err: int) | Panicked | TimedOut | NoHandler | TypeMismatch

  datatype Reply = Reply(token: Token, outcome: Outcome)

  /** How far a call to `sendRequest` has come. */
  datatype Stage = Allocated | Registered | Armed

  datatype Call = Call(stage: Stage, cb: Callback)

  /** The handler invocation a responder belongs to. */
  datatype Handler = Running | Reported | Returned

  datatype Responder = Responder(done: bool, handler: Handler)

  datatype Completion = Completion(token: Token, cb: Callback, outcome: Outcome)

  /** `asked`, `produced`, `taken`, `completed`, `dropped` and `reports` are the history:
      every request and its callback, every reply handed to deliverReply, the replies taken
      off reply channels, every callback run, the number of replies that came late, and the
      panics reported. */
  datatype State = State(
    next: map<nat, nat>,
    calls: map<Token, Call>,
    pending: map<Token, Callback>,
    armed: set<Token>,
    queued: set<Token>,
    responders: map<Token, Responder>,
    delivering: multiset<Reply>,
    inbox: multiset<Reply>,
    cancelled: bool,
    asked: map<Token, Callback>,
    produced: seq<Reply>,
    taken: seq<Reply>,
    completed: seq<Completion>,
    dropped: nat,
    reports: set<Token>)

  function Boot(): State {
    State(map[], map[], map[], {}, {}, map[], multiset{}, multiset{}, false, map[], [], [], [], 0, {})
  }

  datatype Step =
    | Allocate(requester: nat, cb: Callback)
    | Register(token: Token)
    | RouteMissing(token: Token)
    | ArmTimer(token: Token)
    | Post(token: Token)
    | TimerFires(token: Token)
    | Dispatch(token: Token)
    | Misroute(token: Token)
    | Answer(token: Token, outcome: Outcome)
    | Return(token: Token)
    | Panic(token: Token)
    | AutoFail(token: Token)
    | Enqueue(reply: Reply)
    | Take(reply: Reply)
    | Cancel
    | Abandon(reply: Reply)
    | AbandonPost(token: Token)

  function LastId(s: State, requester: nat): nat {
    if requester in s.next then s.next[requester] else 0
  }

  predicate AtStage(s: State, t: Token, stage: Stage) {
    t in s.calls && s.calls[t].stage == stage
  }

  /** A reply enters `deliverReply`. */
  function Produce(s: State, r: Reply): State {
    s.(delivering := s.delivering + multiset{r}, produced := s.produced + [r])
  }

  /** A responder's compare-and-swap: only the first of Reply, Fail and the automatic Fail wins. */
  function Settle(s: State, t: Token, o: Outcome): State
    requires t in s.responders
  {
    if s.responders[t].done then s
    else Produce(s.(responders := s.responders[t := s.responders[t].(done := true)]), Reply(t, o))
  }

  predicate Enabled(s: State, step: Step) {
    match step
    case Register(t) => AtStage(s, t, Allocated)
    case RouteMissing(t) => AtStage(s, t, Registered)
    case ArmTimer(t) => AtStage(s, t, Registered)
    case Post(t) => AtStage(s, t, Armed)
    case TimerFires(t) => t in s.armed
    case Dispatch(t) => t in s.queued
    case Misroute(t) => t in s.queued
    case Answer(t, o) => t in s.responders && (o.Value? || o.Failed?)
    case Return(t) => t in s.responders && s.responders[t].handler == Running
    case Panic(t) => t in s.responders && s.responders[t].handler == Running
    case AutoFail(t) => t in s.responders && s.responders[t].handler == Reported
    case Enqueue(r) => r in s.delivering
    case Take(r) => r in s.inbox
    case Abandon(r) => s.cancelled && r in s.delivering
    case AbandonPost(t) => s.cancelled && AtStage(s, t, Armed)
    case _ => true
  }

  // `sendRequest`: allocate a number, register the pending entry, find the route, arm the
  // timeout, hand the request over.

  function DoAllocate(s: State, p: nat, cb: Callback): State {
    var t := Token(p, LastId(s, p) + 1);
    s.(next := s.next[p := t.id], calls := s.calls[t := Call(Allocated, cb)], asked := s.asked[t := cb])
  }

  function DoRegister(s: State, t: Token): State
    requires t in s.calls
  {
    s.(calls := s.calls[t := s.calls[t].(stage := Registered)], pending := s.pending[t := s.calls[t].cb])
  }

  function DoRouteMissing(s: State, t: Token): State {
    Produce(s.(calls := s.calls - {t}), Reply(t, NoHandler))
  }

  function DoArm(s: State, t: Token): State
    requires t in s.calls
  {
    s.(calls := s.calls[t := s.calls[t].(stage := Armed)], armed := s.armed + {t})
  }

  function DoPost(s: State, t: Token): State {
    s.(calls := s.calls - {t}, queued := s.queued + {t})
  }

  function DoFire(s: State, t: Token): State {
    Produce(s.(armed := s.armed - {t}), Reply(t, TimedOut))
  }

  // The handler's event loop and the responder.

  function DoDispatch(s: State, t: Token): State {
    s.(queued := s.queued - {t}, responders := s.responders[t := Responder(false, Running)])
  }

  function DoMisroute(s: State, t: Token): State {
    Produce(s.(queued := s.queued - {t}), Reply(t, TypeMismatch))
  }

  function SetHandler(s: State, t: Token, h: Handler): State
    requires t in s.responders
  {
    s.(responders := s.responders[t := s.responders[t].(handler := h)])
  }

  /** The recovering closure reports first... */
  function DoPanic(s: State, t: Token): State
    requires t in s.responders
  {
    SetHandler(s, t, Reported).(reports := s.reports + {t})
  }

  /** ...and fails the responder second. */
  function DoAutoFail(s: State, t: Token): State
    requires t in s.responders
  {
    Settle(SetHandler(s, t, Returned), t, Panicked)
  }

  // The requester's event loop.

  function DoEnqueue(s: State, r: Reply): State {
    s.(delivering := s.delivering - multiset{r}, inbox := s.inbox + multiset{r})
  }

  /** `protoProtocol.deliverReply`: claim the pending entry and run its callback, or drop. */
  function DoTake(s: State, r: Reply): State {
    if r.token in s.pending then DoComplete(s, r) else DoDrop(s, r)
  }

  function DoComplete(s: State, r: Reply): State
    requires r.token in s.pending
  {
    s.(inbox := s.inbox - multiset{r}, taken := s.taken + [r],
       pending := s.pending - {r.token},
       completed := s.completed + [Completion(r.token, s.pending[r.token], r.outcome)])
  }

  function DoDrop(s: State, r: Reply): State {
    s.(inbox := s.inbox - multiset{r}, taken := s.taken + [r], dropped := s.dropped + 1)
  }

  /** One step; a step that is not enabled changes nothing. */
  function Next(s: State, step: Step): State {
    if !Enabled(s, step) then s else
    match step
    case Allocate(p, cb) => DoAllocate(s, p, cb)
    case Register(t) => DoRegister(s, t)
    case RouteMissing(t) => DoRouteMissing(s, t)
    case ArmTimer(t) => DoArm(s, t)
    case Post(t) => DoPost(s, t)
    case TimerFires(t) => DoFire(s, t)
    case Dispatch(t) => DoDispatch(s, t)
    case Misroute(t) => DoMisroute(s, t)
    case Answer(t, o) => Settle(s, t, o)
    case Return(t) => SetHandler(s, t, Returned)
    case Panic(t) => DoPanic(s, t)
    case AutoFail(t) => DoAutoFail(s, t)
    case Enqueue(r) => DoEnqueue(s, r)
    case Take(r) => DoTake(s, r)
    case Cancel => s.(cancelled := true)
    case Abandon(r) => s.(delivering := s.delivering - multiset{r})
    case AbandonPost(t) => s.(calls := s.calls - {t})
  }

  function Run(steps: seq<Step>): State {
    if steps == [] then Boot() else Next(Run(steps[..|steps| - 1]), steps[|steps| - 1])
  }

  lemma RunSnoc(steps: seq<Step>, step: Step)
    ensures Run(steps + [step]) == Next(Run(steps), step)
  {
    assert (steps + [step])[..|steps|] == steps;
  }

  lemma CancelIsKept(s: State, step: Step)
    ensures Next(s, step).cancelled <==> s.cancelled || step == Cancel
  {
  }

  /** A runtime is cancelled exactly from its shutdown on. */
  lemma {:induction false} CancelledSinceShutdown(steps: seq<Step>)
    ensures Run(steps).cancelled <==> Cancel in steps
    decreases |steps|
  {
    if steps == [] {
    } else {
      var n := |steps| - 1;
      CancelledSinceShutdown(steps[..n]);
      CancelIsKept(Run(steps[..n]), steps[n]);
      assert steps == steps[..n] + [steps[n]];
    }
  }

  // --- where a request is ---------------------------------------------------------------------

  /** How many replies to `t` were produced by its timer, or by anything else. */
  function Count(replies: seq<Reply>, t: Token, byTimer: bool): nat {
    if replies == [] then 0
    else
      var r := replies[|replies| - 1];
      Count(replies[..|replies| - 1], t, byTimer) + (if r.token == t && r.outcome.TimedOut? == byTimer then 1 else 0)
  }

  function Runs(completed: seq<Completion>, t: Token): nat {
    if completed == [] then 0
    else
      Runs(completed[..|completed| - 1], t) + (if completed[|completed| - 1].token == t then 1 else 0)
  }

  lemma CountGrows(replies: seq<Reply>, r: Reply)
    ensures forall t, byTimer :: Count(replies + [r], t, byTimer)
              == Count(replies, t, byTimer) + if r.token == t && r.outcome.TimedOut? == byTimer then 1 else 0
  {
    assert (replies + [r])[..|replies|] == replies;
  }

  lemma RunsGrow(completed: seq<Completion>, c: Completion)
    ensures forall t :: Runs(completed + [c], t) == Runs(completed, t) + if c.token == t then 1 else 0
  {
    assert (completed + [c])[..|completed|] == completed;
  }

  /** Everything the runtime holds about one request. */
  datatype Place = Place(
    numbered: bool, asked: bool, stage: int, pending: bool, armed: bool, queued: bool, responder: bool, open: bool,
    timerReplies: nat, otherReplies: nat, runs: nat)

  function StageNumber(s: State, t: Token): int {
    if t !in s.calls then 0
    else match s.calls[t].stage case Allocated => 1 case Registered => 2 case Armed => 3
  }

  function At(s: State, t: Token): Place {
    Place(
      1 <= t.id <= LastId(s, t.requester), t in s.asked, StageNumber(s, t), t in s.pending, t in s.armed, t in s.queued,
      t in s.responders, t in s.responders && !s.responders[t].done,
      Count(s.produced, t, true), Count(s.produced, t, false), Runs(s.completed, t))
  }

  function Bit(b: bool): nat {
    if b then 1 else 0
  }

  /** A request that was asked is in exactly one of three places: its call has only allocated
      its number, it is pending, or its callback has run, once. Its timer and its responder
      each produce at most one reply. */
  ghost predicate PlaceInv(p: Place) {
    && (p.asked <==> p.numbered)
    && Bit(p.stage == 1) + Bit(p.pending) + p.runs == Bit(p.asked)
    && (p.stage != 0 ==> p.asked && !p.queued && !p.responder)
    && (p.queued ==> p.asked && !p.responder)
    && (p.responder ==> p.asked)
    && (p.armed ==> p.asked && p.stage != 1 && p.stage != 2)
    && p.timerReplies + Bit(p.armed) + Bit(p.stage == 1 || p.stage == 2) <= 1
    && p.otherReplies + Bit(p.stage != 0) + Bit(p.queued) + Bit(p.open) <= 1
    && (p.timerReplies > 0 || p.otherReplies > 0 ==> p.asked)
  }

  ghost predicate PlacesInv(s: State) {
    forall t :: PlaceInv(At(s, t))
  }

  ghost predicate SameElsewhere(s: State, s': State, t: Token) {
    forall x :: x != t ==> At(s', x) == At(s, x)
  }

  lemma OnePlace(s: State, s': State, t: Token, p: Place)
    requires PlacesInv(s) && SameElsewhere(s, s', t) && At(s', t) == p
    requires PlaceInv(At(s, t)) ==> PlaceInv(p)
    ensures PlacesInv(s')
  {
    forall x ensures PlaceInv(At(s', x)) {
      assert PlaceInv(At(s, x));
    }
  }

  // --- the invariant ------------------------------------------------------------------------------

  /** Every callback on record is the one its own request was asked with, and every callback
      that ran was given a reply to its own request. */
  ghost predicate CallbacksInv(s: State) {
    && (forall t :: t in s.calls ==> t in s.asked && s.calls[t].cb == s.asked[t])
    && (forall t :: t in s.pending ==> t in s.asked && s.pending[t] == s.asked[t])
    && (forall c :: c in s.completed ==>
          c.token in s.asked && c.cb == s.asked[c.token] && Reply(c.token, c.outcome) in s.produced)
  }

  /** Replies are conserved, and each one taken either ran a callback or came late. */
  ghost predicate RepliesInv(s: State) {
    && s.delivering + s.inbox + multiset(s.taken) <= multiset(s.produced)
    && (!s.cancelled ==> s.delivering + s.inbox + multiset(s.taken) == multiset(s.produced))
    && |s.taken| == |s.completed| + s.dropped
  }

  ghost predicate OnItsWay(s: State, t: Token) {
    Carried(s.delivering, t) || Carried(s.inbox, t)
  }

  ghost predicate Carried(replies: multiset<Reply>, t: Token) {
    exists r :: r in replies && r.token == t
  }

  lemma CarriedAfterAll(replies: multiset<Reply>, r: Reply)
    ensures forall t :: Carried(replies + multiset{r}, t) <==> Carried(replies, t) || t == r.token
    ensures forall t :: Carried(replies, t) && t != r.token ==> Carried(replies - multiset{r}, t)
  {
    forall t ensures Carried(replies + multiset{r}, t) <==> Carried(replies, t) || t == r.token {
      if Carried(replies, t) {
        var q :| q in replies && q.token == t;
        assert q in replies + multiset{r};
      } else if t == r.token {
        assert r in replies + multiset{r};
      }
    }
    forall t | Carried(replies, t) && t != r.token ensures Carried(replies - multiset{r}, t) {
      var q :| q in replies && q.token == t;
      assert q in replies - multiset{r};
    }
  }

  /** Nothing pending is stuck: a call that is about to look for a handler, an armed timer, or
      a reply on its way. */
  ghost predicate Moving(s: State, t: Token) {
    AtStage(s, t, Registered) || t in s.armed || OnItsWay(s, t)
  }

  ghost predicate ProgressInv(s: State) {
    !s.cancelled ==> forall t :: t in s.pending ==> Moving(s, t)
  }

  /** A panic outcome is produced only after the panic was reported. */
  ghost predicate PanicInv(s: State) {
    && (forall t :: t in s.responders && s.responders[t].handler == Reported ==> t in s.reports)
    && (forall r :: r in s.produced && r.outcome.Panicked? ==> r.token in s.reports)
  }

  ghost predicate RestInv(s: State) {
    CallbacksInv(s) && RepliesInv(s) && ProgressInv(s) && PanicInv(s)
  }

  ghost predicate Inv(s: State) {
    PlacesInv(s) && RestInv(s)
  }

  // Where each request is, step by step.

  lemma AllocateElsewhere(s: State, p: nat, cb: Callback)
    ensures SameElsewhere(s, DoAllocate(s, p, cb), Token(p, LastId(s, p) + 1))
  {
  }

  lemma AllocatePlaces(s: State, p: nat, cb: Callback)
    requires PlacesInv(s)
    ensures PlacesInv(DoAllocate(s, p, cb))
  {
    var t := Token(p, LastId(s, p) + 1);
    AllocateElsewhere(s, p, cb);
    assert PlaceInv(At(s, t));
    OnePlace(s, DoAllocate(s, p, cb), t, At(s, t).(numbered := true, asked := true, stage := 1));
  }

  lemma RegisterPlaces(s: State, t: Token)
    requires PlacesInv(s) && AtStage(s, t, Allocated)
    ensures PlacesInv(DoRegister(s, t))
  {
    OnePlace(s, DoRegister(s, t), t, At(s, t).(stage := 2, pending := true));
  }

  lemma RouteMissingPlaces(s: State, t: Token)
    requires PlacesInv(s) && AtStage(s, t, Registered)
    ensures PlacesInv(DoRouteMissing(s, t))
  {
    CountGrows(s.produced, Reply(t, NoHandler));
    OnePlace(s, DoRouteMissing(s, t), t, At(s, t).(stage := 0, otherReplies := At(s, t).otherReplies + 1));
  }

  lemma ArmPlaces(s: State, t: Token)
    requires PlacesInv(s) && AtStage(s, t, Registered)
    ensures PlacesInv(DoArm(s, t))
  {
    OnePlace(s, DoArm(s, t), t, At(s, t).(stage := 3, armed := true));
  }

  lemma PostPlaces(s: State, t: Token)
    requires PlacesInv(s) && AtStage(s, t, Armed)
    ensures PlacesInv(DoPost(s, t))
  {
    OnePlace(s, DoPost(s, t), t, At(s, t).(stage := 0, queued := true));
  }

  lemma AbandonPostPlaces(s: State, t: Token)
    requires PlacesInv(s) && AtStage(s, t, Armed)
    ensures PlacesInv(s.(calls := s.calls - {t}))
  {
    OnePlace(s, s.(calls := s.calls - {t}), t, At(s, t).(stage := 0));
  }

  lemma FireAt(s: State, t: Token, x: Token)
    requires t in s.armed
    ensures var p := At(s, x);
            At(DoFire(s, t), x) == if x == t then p.(armed := false, timerReplies := p.timerReplies + 1) else p
  {
    CountGrows(s.produced, Reply(t, TimedOut));
  }

  lemma FirePlaces(s: State, t: Token)
    requires PlacesInv(s) && t in s.armed
    ensures PlacesInv(DoFire(s, t))
  {
    forall x ensures PlaceInv(At(DoFire(s, t), x)) {
      assert PlaceInv(At(s, x));
      FireAt(s, t, x);
    }
  }

  lemma DispatchPlaces(s: State, t: Token)
    requires PlacesInv(s) && t in s.queued
    ensures PlacesInv(DoDispatch(s, t))
  {
    OnePlace(s, DoDispatch(s, t), t, At(s, t).(queued := false, responder := true, open := true));
  }

  lemma MisroutePlaces(s: State, t: Token)
    requires PlacesInv(s) && t in s.queued
    ensures PlacesInv(DoMisroute(s, t))
  {
    CountGrows(s.produced, Reply(t, TypeMismatch));
    OnePlace(s, DoMisroute(s, t), t, At(s, t).(queued := false, otherReplies := At(s, t).otherReplies + 1));
  }

  lemma SettlePlaces(s: State, t: Token, o: Outcome)
    requires PlacesInv(s) && t in s.responders && !o.TimedOut?
    ensures PlacesInv(Settle(s, t, o))
  {
    if !s.responders[t].done {
      FirstAnswerPlaces(s, Settle(s, t, o), t, o);
    }
  }

  lemma FirstAnswerPlaces(s: State, s': State, t: Token, o: Outcome)
    requires PlacesInv(s) && t in s.responders && !s.responders[t].done && !o.TimedOut?
    requires s'.next == s.next && s'.asked == s.asked && s'.calls == s.calls && s'.pending == s.pending
    requires s'.armed == s.armed && s'.queued == s.queued && s'.completed == s.completed
    requires s'.responders == s.responders[t := s.responders[t].(done := true)]
    requires s'.produced == s.produced + [Reply(t, o)]
    ensures PlacesInv(s')
  {
    CountGrows(s.produced, Reply(t, o));
    OnePlace(s, s', t, At(s, t).(open := false, otherReplies := At(s, t).otherReplies + 1));
  }

  lemma HandlerPlaces(s: State, t: Token, h: Handler)
    requires PlacesInv(s) && t in s.responders
    ensures PlacesInv(SetHandler(s, t, h))
  {
    OnePlace(s, SetHandler(s, t, h), t, At(s, t));
  }

  lemma PanicPlaces(s: State, t: Token)
    requires PlacesInv(s) && t in s.responders
    ensures PlacesInv(DoPanic(s, t))
  {
    HandlerPlaces(s, t, Reported);
    QuietPlaces(SetHandler(s, t, Reported), DoPanic(s, t));
  }

  lemma TakePlaces(s: State, r: Reply)
    requires PlacesInv(s)
    ensures PlacesInv(DoTake(s, r))
  {
    if r.token in s.pending {
      CompletePlaces(s, r);
    } else {
      QuietPlaces(s, DoDrop(s, r));
    }
  }

  lemma CompleteAt(s: State, r: Reply, x: Token)
    requires r.token in s.pending
    ensures var p := At(s, x);
            At(DoComplete(s, r), x) == if x == r.token then p.(pending := false, runs := p.runs + 1) else p
  {
    RunsGrow(s.completed, Completion(r.token, s.pending[r.token], r.outcome));
  }

  lemma CompletePlaces(s: State, r: Reply)
    requires PlacesInv(s) && r.token in s.pending
    ensures PlacesInv(DoComplete(s, r))
  {
    forall x ensures PlaceInv(At(DoComplete(s, r), x)) {
      assert PlaceInv(At(s, x));
      CompleteAt(s, r, x);
    }
  }

  /** Places do not depend on where replies wait. */
  lemma QuietPlaces(s: State, s': State)
    requires PlacesInv(s)
    requires s'.next == s.next && s'.asked == s.asked && s'.calls == s.calls && s'.pending == s.pending
    requires s'.armed == s.armed && s'.queued == s.queued && s'.responders == s.responders
    requires s'.produced == s.produced && s'.completed == s.completed
    ensures PlacesInv(s')
  {
    OnePlace(s, s', Token(0, 0), At(s, Token(0, 0)));
  }

  lemma PlacesKept(s: State, step: Step)
    requires PlacesInv(s) && Enabled(s, step)
    ensures PlacesInv(Next(s, step))
  {
    match step
    case Allocate(p, cb) => AllocatePlaces(s, p, cb);
    case Register(t) => RegisterPlaces(s, t);
    case RouteMissing(t) => RouteMissingPlaces(s, t);
    case ArmTimer(t) => ArmPlaces(s, t);
    case Post(t) => PostPlaces(s, t);
    case TimerFires(t) => FirePlaces(s, t);
    case Dispatch(t) => DispatchPlaces(s, t);
    case Misroute(t) => MisroutePlaces(s, t);
    case Answer(t, o) => SettlePlaces(s, t, o);
    case Return(t) => HandlerPlaces(s, t, Returned);
    case Panic(t) => PanicPlaces(s, t);
    case AutoFail(t) => AutoFailPlaces(s, t);
    case Enqueue(r) => QuietPlaces(s, DoEnqueue(s, r));
    case Take(r) => TakePlaces(s, r);
    case Cancel => QuietPlaces(s, s.(cancelled := true));
    case Abandon(r) => QuietPlaces(s, s.(delivering := s.delivering - multiset{r}));
    case AbandonPost(t) => AbandonPostPlaces(s, t);
  }

  lemma AutoFailPlaces(s: State, t: Token)
    requires PlacesInv(s) && t in s.responders
    ensures PlacesInv(DoAutoFail(s, t))
  {
    HandlerPlaces(s, t, Returned);
    SettlePlaces(SetHandler(s, t, Returned), t, Panicked);
  }

  // Everything else.

  /** A step that only removes a call once something else keeps its request going. */
  lemma ProduceRest(s: State, s': State, r: Reply)
    requires RestInv(s)
    requires s'.delivering == s.delivering + multiset{r} && s'.produced == s.produced + [r]
    requires s'.inbox == s.inbox && s'.taken == s.taken && s'.completed == s.completed && s'.dropped == s.dropped
    requires s'.cancelled == s.cancelled && s'.asked == s.asked && s'.pending == s.pending && s'.reports == s.reports
    requires forall t :: t in s'.calls ==> t in s.calls && s'.calls[t] == s.calls[t]
    requires forall t :: t in s.calls && t != r.token ==> t in s'.calls
    requires forall t :: t in s.armed && t != r.token ==> t in s'.armed
    requires forall t :: t in s'.responders ==> t in s.responders && s'.responders[t].handler == s.responders[t].handler
    requires r.outcome.Panicked? ==> r.token in s.reports
    ensures RestInv(s')
  {
    CarriedAfterAll(s.delivering, r);
    assert forall t :: Moving(s, t) ==> Moving(s', t);
  }

  /** A step that leaves the replies alone. */
  lemma CallRest(s: State, s': State)
    requires RestInv(s)
    requires s'.delivering == s.delivering && s'.inbox == s.inbox && s'.produced == s.produced
    requires s'.taken == s.taken && s'.completed == s.completed && s'.dropped == s.dropped
    requires s.cancelled ==> s'.cancelled
    requires forall t :: t in s.asked ==> t in s'.asked && s'.asked[t] == s.asked[t]
    requires forall t :: t in s'.calls ==> t in s'.asked && s'.calls[t].cb == s'.asked[t]
    requires forall t :: t in s'.pending ==> t in s'.asked && s'.pending[t] == s'.asked[t]
    requires forall t :: t in s'.pending && t !in s.pending ==> Moving(s', t)
    requires forall t :: AtStage(s, t, Registered) ==> AtStage(s', t, Registered) || t in s'.armed
    requires s.armed <= s'.armed
    requires s.reports <= s'.reports
    requires forall t :: t in s'.responders && s'.responders[t].handler == Reported ==> t in s'.reports
    ensures RestInv(s')
  {
    assert forall t :: OnItsWay(s, t) ==> OnItsWay(s', t);
    assert forall t :: Moving(s, t) ==> Moving(s', t);
  }

  lemma SettleRest(s: State, t: Token, o: Outcome)
    requires RestInv(s) && t in s.responders && (o.Panicked? ==> t in s.reports)
    ensures RestInv(Settle(s, t, o))
  {
    if !s.responders[t].done {
      ProduceRest(s, Settle(s, t, o), Reply(t, o));
    }
  }

  /** Taking or moving a reply leaves every other request moving. */
  lemma StillMoving(s: State, s': State, t: Token)
    requires Moving(s, t) && s'.calls == s.calls && s'.armed == s.armed
    requires Carried(s.delivering, t) || Carried(s.inbox, t) ==> Carried(s'.delivering, t) || Carried(s'.inbox, t)
    ensures Moving(s', t)
  {
  }

  lemma EnqueueReplies(s: State, r: Reply)
    requires RepliesInv(s) && r in s.delivering
    ensures RepliesInv(DoEnqueue(s, r))
  {
    assert s.delivering - multiset{r} + (s.inbox + multiset{r}) == s.delivering + s.inbox;
  }

  lemma EnqueueRest(s: State, r: Reply)
    requires RestInv(s) && r in s.delivering
    ensures RestInv(DoEnqueue(s, r))
  {
    var s' := DoEnqueue(s, r);
    EnqueueReplies(s, r);
    forall t | t in s.pending && !s.cancelled ensures Moving(s', t) {
      CarriedAfterAll(s.delivering, r);
      CarriedAfterAll(s.inbox, r);
      StillMoving(s, s', t);
    }
  }

  lemma MoveOne(d: multiset<Reply>, i: multiset<Reply>, taken: seq<Reply>, r: Reply)
    requires r in i
    ensures d + (i - multiset{r}) + multiset(taken + [r]) == d + i + multiset(taken)
  {
  }

  lemma CompleteRest(s: State, r: Reply)
    requires RestInv(s) && r in s.inbox && r in s.produced && r.token in s.pending
    ensures RestInv(DoComplete(s, r))
  {
    var s' := DoComplete(s, r);
    MoveOne(s.delivering, s.inbox, s.taken, r);
    CompleteCallbacks(s, r);
    TakeProgress(s, s', r);
  }

  lemma CompleteCallbacks(s: State, r: Reply)
    requires CallbacksInv(s) && r in s.produced && r.token in s.pending
    ensures CallbacksInv(DoComplete(s, r))
  {
    assert Reply(r.token, r.outcome) == r;
  }

  lemma DropRest(s: State, r: Reply)
    requires RestInv(s) && r in s.inbox && r.token !in s.pending
    ensures RestInv(DoDrop(s, r))
  {
    MoveOne(s.delivering, s.inbox, s.taken, r);
    TakeProgress(s, DoDrop(s, r), r);
  }

  lemma TakeProgress(s: State, s': State, r: Reply)
    requires ProgressInv(s) && s'.cancelled == s.cancelled
    requires s'.calls == s.calls && s'.armed == s.armed && s'.delivering == s.delivering
    requires s'.inbox == s.inbox - multiset{r} && s'.pending.Keys == s.pending.Keys - {r.token}
    ensures ProgressInv(s')
  {
    forall t | t in s'.pending && !s'.cancelled ensures Moving(s', t) {
      CarriedAfterAll(s.inbox, r);
      StillMoving(s, s', t);
    }
  }

  lemma TakeRest(s: State, r: Reply)
    requires RestInv(s) && r in s.inbox
    ensures RestInv(DoTake(s, r))
  {
    assert r in multiset(s.produced);
    if r.token in s.pending { CompleteRest(s, r); } else { DropRest(s, r); }
  }

  lemma AllocateRest(s: State, p: nat, cb: Callback)
    requires Inv(s)
    ensures RestInv(DoAllocate(s, p, cb))
  {
    assert PlaceInv(At(s, Token(p, LastId(s, p) + 1)));
    CallRest(s, DoAllocate(s, p, cb));
  }

  lemma RegisterRest(s: State, t: Token)
    requires RestInv(s) && AtStage(s, t, Allocated)
    ensures RestInv(DoRegister(s, t))
  {
    CallRest(s, DoRegister(s, t));
  }

  lemma CallStepsRest(s: State, step: Step)
    requires Inv(s) && Enabled(s, step)
    requires step.ArmTimer? || step.Post? || step.AbandonPost?
    ensures RestInv(Next(s, step))
  {
    CallRest(s, Next(s, step));
  }

  lemma HandlerStepsRest(s: State, step: Step)
    requires Inv(s) && Enabled(s, step)
    requires step.Dispatch? || step.Return? || step.Panic? || step.Cancel?
    ensures RestInv(Next(s, step))
  {
    CallRest(s, Next(s, step));
  }

  lemma AutoFailRest(s: State, t: Token)
    requires RestInv(s) && t in s.responders && s.responders[t].handler == Reported
    ensures RestInv(DoAutoFail(s, t))
  {
    CallRest(s, SetHandler(s, t, Returned));
    SettleRest(SetHandler(s, t, Returned), t, Panicked);
  }

  lemma RouteMissingRest(s: State, t: Token)
    requires RestInv(s) && AtStage(s, t, Registered)
    ensures RestInv(DoRouteMissing(s, t))
  {
    ProduceRest(s, DoRouteMissing(s, t), Reply(t, NoHandler));
  }

  lemma FireRest(s: State, t: Token)
    requires RestInv(s) && t in s.armed
    ensures RestInv(DoFire(s, t))
  {
    ProduceRest(s, DoFire(s, t), Reply(t, TimedOut));
  }

  lemma MisrouteRest(s: State, t: Token)
    requires RestInv(s) && t in s.queued
    ensures RestInv(DoMisroute(s, t))
  {
    ProduceRest(s, DoMisroute(s, t), Reply(t, TypeMismatch));
  }

  lemma ReplyStepsRest(s: State, step: Step)
    requires Inv(s) && Enabled(s, step)
    requires step.Enqueue? || step.Take? || step.Abandon? || step.Answer? || step.AutoFail?
    ensures RestInv(Next(s, step))
  {
    match step
    case Answer(t, o) => SettleRest(s, t, o);
    case AutoFail(t) => AutoFailRest(s, t);
    case Enqueue(r) => EnqueueRest(s, r);
    case Take(r) => TakeRest(s, r);
    case Abandon(r) => AbandonRest(s, r);
  }

  lemma RestKept(s: State, step: Step)
    requires Inv(s) && Enabled(s, step)
    ensures RestInv(Next(s, step))
  {
    match step
    case Allocate(p, cb) => AllocateRest(s, p, cb);
    case Register(t) => RegisterRest(s, t);
    case RouteMissing(t) => RouteMissingRest(s, t);
    case TimerFires(t) => FireRest(s, t);
    case Misroute(t) => MisrouteRest(s, t);
    case Dispatch(_) => HandlerStepsRest(s, step);
    case Return(_) => HandlerStepsRest(s, step);
    case Panic(_) => HandlerStepsRest(s, step);
    case Cancel => HandlerStepsRest(s, step);
    case ArmTimer(_) => CallStepsRest(s, step);
    case Post(_) => CallStepsRest(s, step);
    case AbandonPost(_) => CallStepsRest(s, step);
    case _ => ReplyStepsRest(s, step);
  }

  lemma AbandonRest(s: State, r: Reply)
    requires RestInv(s) && s.cancelled && r in s.delivering
    ensures RestInv(s.(delivering := s.delivering - multiset{r}))
  {
  }

  lemma {:induction false} RunKeeps(steps: seq<Step>)
    ensures Inv(Run(steps))
    decreases |steps|
  {
    if steps == [] {
      BootKeeps();
    } else {
      var s, step := Run(steps[..|steps| - 1]), steps[|steps| - 1];
      RunKeeps(steps[..|steps| - 1]);
      if Enabled(s, step) {
        PlacesKept(s, step);
        RestKept(s, step);
      }
    }
  }

  lemma BootKeeps()
    ensures Inv(Boot())
  {
    forall t ensures PlaceInv(At(Boot(), t)) {
    }
  }

  // --- what holds over every run ----------------------------------------------------------------------

  /** Exactly once: over every interleaving of replies, failures, panics, missing handlers and
      timeouts, a callback runs at most once, and a request that was registered is either
      still pending or its callback has run. */
  lemma CallbackRunsOnce(steps: seq<Step>, t: Token)
    ensures var s := Run(steps);
            && Runs(s.completed, t) <= 1
            && (Runs(s.completed, t) == 1 ==> t !in s.pending)
            && (t in s.asked && !AtStage(s, t, Allocated) ==> (t in s.pending) != (Runs(s.completed, t) == 1))
  {
    RunKeeps(steps);
    assert PlaceInv(At(Run(steps), t));
  }

  /** Progress: while the runtime is not cancelled, a pending request always has its call in
      progress, its timer armed or a reply on its way; so when all of these are exhausted
      nothing is pending and every request asked has had its callback run exactly once. */
  lemma QuiescenceCompletesEverything(steps: seq<Step>)
    requires !Run(steps).cancelled
    ensures var s := Run(steps);
            && (forall t :: t in s.pending ==> t in s.calls || t in s.armed || OnItsWay(s, t))
            && (s.calls == map[] && s.armed == {} && s.delivering == s.inbox == multiset{} ==>
                  s.pending == map[] && forall t :: t in s.asked ==> Runs(s.completed, t) == 1)
  {
    RunKeeps(steps);
    var s := Run(steps);
    assert forall t :: t in s.pending ==> Moving(s, t);
    if s.calls == map[] && s.armed == {} && s.delivering == s.inbox == multiset{} {
      assert forall t :: !Moving(s, t);
      forall t | t in s.asked ensures Runs(s.completed, t) == 1 {
        assert PlaceInv(At(s, t));
      }
    }
  }

  /** Accounting: every reply taken ran a callback or was dropped late; no request ever
      produces more than two replies; no reply is lost while uncancelled. */
  lemma ReplyAccounting(steps: seq<Step>, t: Token)
    ensures var s := Run(steps);
            && |s.taken| == |s.completed| + s.dropped
            && Count(s.produced, t, true) <= 1 && Count(s.produced, t, false) <= 1
            && (!s.cancelled ==> |s.produced| == |s.delivering| + |s.inbox| + |s.taken|)
  {
    RunKeeps(steps);
    var s := Run(steps);
    assert PlaceInv(At(s, t));
    if !s.cancelled {
      assert |multiset(s.produced)| == |s.produced| && |multiset(s.taken)| == |s.taken|;
    }
  }

  /** A callback is only ever run with a reply to its own request. */
  lemma RepliesStayHome(steps: seq<Step>, c: Completion)
    requires c in Run(steps).completed
    ensures var s := Run(steps);
            c.token in s.asked && s.asked[c.token] == c.cb && Reply(c.token, c.outcome) in s.produced
  {
    RunKeeps(steps);
  }

  /** Panic ordering: whenever a callback observes a panic, the panic has been reported. */
  lemma PanicIsReportedFirst(steps: seq<Step>, c: Completion)
    requires c in Run(steps).completed && c.outcome.Panicked?
    ensures c.token in Run(steps).reports
  {
    RunKeeps(steps);
  }

  lemma {:induction false} OneReplyOnly(replies: seq<Reply>, t: Token, a: Reply, b: Reply)
    requires Count(replies, t, false) <= 1
    requires a in replies && b in replies && a.token == b.token == t && !a.outcome.TimedOut? && !b.outcome.TimedOut?
    ensures a == b
  {
    var n := |replies| - 1;
    assert replies == replies[..n] + [replies[n]];
    if a in replies[..n] && b in replies[..n] {
      OneReplyOnly(replies[..n], t, a, b);
    } else if a in replies[..n] {
      Counted(replies[..n], a);
    } else if b in replies[..n] {
      Counted(replies[..n], b);
    }
  }

  lemma {:induction false} Counted(replies: seq<Reply>, r: Reply)
    requires r in replies
    ensures Count(replies, r.token, r.outcome.TimedOut?) >= 1
  {
    var n := |replies| - 1;
    assert replies == replies[..n] + [replies[n]];
    if replies[n] != r {
      Counted(replies[..n], r);
    }
  }

  /** A handler that replied before it panicked delivers its reply and no panic error: apart
      from the timeout, all replies to a request carry one and the same outcome. */
  lemma FirstAnswerWins(steps: seq<Step>, a: Reply, b: Reply)
    requires a in Run(steps).produced && b in Run(steps).produced && a.token == b.token
    requires !a.outcome.TimedOut? && !b.outcome.TimedOut?
    ensures a == b
  {
    RunKeeps(steps);
    assert PlaceInv(At(Run(steps), a.token));
    OneReplyOnly(Run(steps).produced, a.token, a, b);
  }

  // --- requests sent = completed + pending + just allocated ----------------------------------------------

  function TokensOf(completed: seq<Completion>): set<Token> {
    set k | 0 <= k < |completed| :: completed[k].token
  }

  lemma {:induction false} DistinctCompletions(completed: seq<Completion>)
    requires forall t :: Runs(completed, t) <= 1
    ensures |TokensOf(completed)| == |completed|
    ensures forall t :: t in TokensOf(completed) <==> Runs(completed, t) == 1
  {
    if completed == [] {
    } else {
      var before, c := completed[..|completed| - 1], completed[|completed| - 1];
      assert completed == before + [c];
      RunsGrow(before, c);
      assert forall t :: Runs(before, t) <= Runs(completed, t);
      DistinctCompletions(before);
      assert TokensOf(completed) == TokensOf(before) + {c.token};
      assert Runs(completed, c.token) <= 1;
    }
  }

  function JustAllocated(s: State): set<Token> {
    set t | t in s.calls && s.calls[t].stage == Allocated
  }

  lemma DisjointUnion(a: set<Token>, b: set<Token>, c: set<Token>, all: set<Token>)
    requires all == a + b + c && a !! b && (a + b) !! c
    ensures |all| == |a| + |b| + |c|
  {
    assert |a + b| == |a| + |b|;
  }

  /** The three places partition the requests asked for. */
  lemma Partition(s: State, done: set<Token>)
    requires PlacesInv(s) && forall t :: t in done <==> Runs(s.completed, t) == 1
    ensures s.asked.Keys == done + s.pending.Keys + JustAllocated(s)
    ensures done !! s.pending.Keys && (done + s.pending.Keys) !! JustAllocated(s)
  {
    forall t
      ensures t in s.asked.Keys <==> t in done + s.pending.Keys + JustAllocated(s)
      ensures !(t in done && t in s.pending.Keys)
      ensures !(t in done + s.pending.Keys && t in JustAllocated(s))
    {
      PlacesPart(s, t);
    }
  }

  lemma PlacesPart(s: State, t: Token)
    requires PlacesInv(s)
    ensures Runs(s.completed, t) <= 1
    ensures t in s.asked <==> Runs(s.completed, t) == 1 || t in s.pending || t in JustAllocated(s)
    ensures !(Runs(s.completed, t) == 1 && t in s.pending)
    ensures !((Runs(s.completed, t) == 1 || t in s.pending) && t in JustAllocated(s))
  {
    assert PlaceInv(At(s, t));
  }

  /** Every request ever sent is accounted for: completed, pending, or about to be registered. */
  lemma RequestAccounting(steps: seq<Step>)
    ensures var s := Run(steps); |s.asked| == |s.completed| + |s.pending| + |JustAllocated(s)|
  {
    RunKeeps(steps);
    var s := Run(steps);
    forall t ensures Runs(s.completed, t) <= 1 { PlacesPart(s, t); }
    DistinctCompletions(s.completed);
    Partition(s, TokensOf(s.completed));
    DisjointUnion(TokensOf(s.completed), s.pending.Keys, JustAllocated(s), s.asked.Keys);
  }
}
