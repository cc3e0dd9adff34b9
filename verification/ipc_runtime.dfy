/** Request/Reply as the program runs it: the objects of `pkg/protorun/ipc.go`,
    `runtime.go` and `protocol.go` updated in place. Each method is the run, without
    interference, of the steps of module `Ipc` it consists of. */
module IpcObject {
  import opened Ipc

  /** The calls a handler makes on its responder, in order. */
  function Answers(s: State, t: Token, script: seq<Outcome>): (r: State)
    requires t in s.responders
    ensures t in r.responders && r.responders[t].handler == s.responders[t].handler
    ensures r.reports == s.reports
  {
    if script == [] then s else Settle(Answers(s, t, script[..|script| - 1]), t, script[|script| - 1])
  }

  /** A handler invocation that makes the calls of `script` and then returns or panics. */
  function Handled(s: State, t: Token, script: seq<Outcome>, panics: bool): State {
    var s1 := Answers(DoDispatch(s, t), t, script);
    if panics then DoAutoFail(DoPanic(s1, t), t) else SetHandler(s1, t, Returned)
  }

  /** The end of `sendRequest`: a shutdown may win against the hand-over. */
  function Posted(s: State, t: Token, giveUp: bool): State {
    if giveUp && s.cancelled then s.(calls := s.calls - {t}) else DoPost(s, t)
  }

  function Sent(s: State, p: nat, cb: Callback, routed: bool, giveUp: bool): State {
    var t := Token(p, LastId(s, p) + 1);
    var s1 := DoRegister(DoAllocate(s, p, cb), t);
    if routed then Posted(DoArm(s1, t), t, giveUp) else DoRouteMissing(s1, t)
  }

  /** Handlers answer with a reply or an error of their own. */
  predicate OwnAnswers(script: seq<Outcome>) {
    forall k :: 0 <= k < |script| ==> script[k].Value? || script[k].Failed?
  }

  /** What the goroutines of a runtime do, one whole call at a time. A responder that outlives
      its handler answers later. */
  datatype Op =
    | Request(requester: nat, cb: Callback, routed: bool, giveUp: bool)
    | Timeout(token: Token)
    | Handle(token: Token, script: seq<Outcome>, panics: bool)
    | Mistype(token: Token)
    | AnswerLater(token: Token, outcome: Outcome)
    | Deliver(reply: Reply, giveUp: bool)
    | Consume(reply: Reply)
    | Shutdown

  predicate CanPerform(s: State, op: Op) {
    match op
    case Timeout(t) => t in s.armed
    case Handle(t, script, _) => t in s.queued && OwnAnswers(script)
    case Mistype(t) => t in s.queued
    case AnswerLater(t, o) => t in s.responders && OwnAnswers([o])
    case Deliver(r, _) => r in s.delivering
    case Consume(r) => r in s.inbox
    case _ => true
  }

  /** `deliverReply` reaches the requester's channel, unless a shutdown wins. */
  function Delivered(s: State, r: Reply, giveUp: bool): State {
    if giveUp && s.cancelled then s.(delivering := s.delivering - multiset{r}) else DoEnqueue(s, r)
  }

  function Performed(s: State, op: Op): State {
    if !CanPerform(s, op) then s else
    match op
    case Request(p, cb, routed, giveUp) => Sent(s, p, cb, routed, giveUp)
    case Timeout(t) => DoFire(s, t)
    case Handle(t, script, panics) => Handled(s, t, script, panics)
    case Mistype(t) => DoMisroute(s, t)
    case AnswerLater(t, o) => Settle(s, t, o)
    case Deliver(r, giveUp) => Delivered(s, r, giveUp)
    case Consume(r) => DoTake(s, r)
    case Shutdown => s.(cancelled := true)
  }

  function Served(ops: seq<Op>): State {
    if ops == [] then Boot() else Performed(Served(ops[..|ops| - 1]), ops[|ops| - 1])
  }

  class Runtime {
    var next: map<nat, nat>
    var calls: map<Token, Call>
    var pending: map<Token, Callback>
    var armed: set<Token>
    var queued: set<Token>
    var responders: map<Token, Responder>
    var delivering: multiset<Reply>
    var inbox: multiset<Reply>
    var cancelled: bool
    ghost var asked: map<Token, Callback>
    ghost var produced: seq<Reply>
    ghost var taken: seq<Reply>
    var completed: seq<Completion>
    var dropped: nat
    var reports: set<Token>

    ghost function Now(): State
      reads this
    {
      State(next, calls, pending, armed, queued, responders, delivering, inbox, cancelled,
            asked, produced, taken, completed, dropped, reports)
    }

    constructor ()
      ensures Now() == Boot()
    {
      next, calls, pending, armed, queued := map[], map[], map[], {}, {};
      responders, delivering, inbox, cancelled := map[], multiset{}, multiset{}, false;
      asked, produced, taken, completed, dropped, reports := map[], [], [], [], 0, {};
    }

    /** `Runtime.deliverReply`: the reply is on its way to the requester's channel. */
    method DeliverReply(t: Token, o: Outcome)
      modifies this`delivering, this`produced
      ensures Now() == Produce(old(Now()), Reply(t, o))
    {
      delivering := delivering + multiset{Reply(t, o)};
      produced := produced + [Reply(t, o)];
    }

    method AllocateId(p: nat, cb: Callback) returns (t: Token)
      modifies this`next, this`calls, this`asked
      ensures t == Token(p, LastId(old(Now()), p) + 1) && t in calls && calls[t].cb == cb
      ensures Now() == DoAllocate(old(Now()), p, cb)
    {
      var last := if p in next then next[p] else 0;
      t := Token(p, last + 1);
      next := next[p := t.id];
      calls := calls[t := Call(Allocated, cb)];
      asked := asked[t := cb];
    }

    method RegisterPending(t: Token)
      requires t in calls
      modifies this`calls, this`pending
      ensures Now() == DoRegister(old(Now()), t)
    {
      pending := pending[t := calls[t].cb];
      calls := calls[t := calls[t].(stage := Registered)];
    }

    method ArmTimeout(t: Token)
      requires t in calls
      modifies this`calls, this`armed
      ensures Now() == DoArm(old(Now()), t)
    {
      armed := armed + {t};
      calls := calls[t := calls[t].(stage := Armed)];
    }

    method PostRequest(t: Token, giveUp: bool)
      modifies this`calls, this`queued
      ensures Now() == Posted(old(Now()), t, giveUp)
    {
      calls := calls - {t};
      if giveUp && cancelled { return; }
      queued := queued + {t};
    }

    method FailUnrouted(t: Token)
      modifies this`calls, this`delivering, this`produced
      ensures Now() == DoRouteMissing(old(Now()), t)
    {
      calls := calls - {t};
      DeliverReply(t, NoHandler);
    }

    /** `sendRequest`. Pending is registered before any delivery path. */
    method SendRequest(p: nat, cb: Callback, routed: bool, giveUp: bool) returns (t: Token)
      modifies this
      ensures t == Token(p, LastId(old(Now()), p) + 1)
      ensures Now() == Sent(old(Now()), p, cb, routed, giveUp)
    {
      t := AllocateId(p, cb);
      RegisterPending(t);
      if routed {
        ArmTimeout(t);
        PostRequest(t, giveUp);
      } else {
        FailUnrouted(t);
      }
    }

    method TimerFires(t: Token)
      requires t in armed
      modifies this`armed, this`delivering, this`produced
      ensures Now() == DoFire(old(Now()), t)
    {
      armed := armed - {t};
      DeliverReply(t, TimedOut);
    }

    /** `responder.Reply` and `responder.Fail`: the first call wins. */
    method Respond(t: Token, o: Outcome)
      requires t in responders
      modifies this`responders, this`delivering, this`produced
      ensures Now() == Settle(old(Now()), t, o)
      ensures old(responders)[t].done ==> Now() == old(Now())
    {
      if responders[t].done { return; }
      responders := responders[t := responders[t].(done := true)];
      DeliverReply(t, o);
    }

    method SetHandlerState(t: Token, h: Handler)
      requires t in responders
      modifies this`responders
      ensures Now() == SetHandler(old(Now()), t, h)
    {
      responders := responders[t := responders[t].(handler := h)];
    }

    /** The deferred recovery: report first, fail second. */
    method Recover(t: Token)
      requires t in responders
      modifies this`responders, this`reports, this`delivering, this`produced
      ensures Now() == DoAutoFail(DoPanic(old(Now()), t), t)
    {
      SetHandlerState(t, Reported);
      reports := reports + {t};
      SetHandlerState(t, Returned);
      Respond(t, Panicked);
    }

    /** The handler's own calls on its responder. */
    method RunScript(t: Token, script: seq<Outcome>)
      requires t in responders
      modifies this`responders, this`delivering, this`produced
      ensures Now() == Answers(old(Now()), t, script)
    {
      assert script[..0] == [];
      for k := 0 to |script|
        invariant t in responders
        invariant Now() == Answers(old(Now()), t, script[..k])
      {
        assert script[..k + 1][..k] == script[..k];
        Respond(t, script[k]);
      }
      assert script[..|script|] == script;
    }

    /** The closure of `RegisterRequestHandler` around a handler. */
    method RunHandler(t: Token, script: seq<Outcome>, panics: bool)
      requires t in queued
      modifies this
      ensures Now() == Handled(old(Now()), t, script, panics)
    {
      queued := queued - {t};
      responders := responders[t := Responder(false, Running)];
      RunScript(t, script);
      if panics {
        Recover(t);
      } else {
        SetHandlerState(t, Returned);
      }
    }

    /** The closure's defence against a request of the wrong type. */
    method FailMistyped(t: Token)
      requires t in queued
      modifies this`queued, this`delivering, this`produced
      ensures Now() == DoMisroute(old(Now()), t)
    {
      queued := queued - {t};
      DeliverReply(t, TypeMismatch);
    }

    method Complete(r: Reply)
      requires r.token in pending
      modifies this`inbox, this`taken, this`pending, this`completed
      ensures Now() == DoComplete(old(Now()), r)
    {
      inbox, taken := inbox - multiset{r}, taken + [r];
      completed := completed + [Completion(r.token, pending[r.token], r.outcome)];
      pending := pending - {r.token};
    }

    /** `protoProtocol.deliverReply` on the requester's event loop. */
    method TakeReply(r: Reply)
      requires r in inbox
      modifies this`inbox, this`taken, this`pending, this`completed, this`dropped
      ensures Now() == DoTake(old(Now()), r)
    {
      if r.token in pending {
        Complete(r);
        return;
      }
      inbox, taken := inbox - multiset{r}, taken + [r];
      dropped := dropped + 1;
    }

    method PushReply(r: Reply, giveUp: bool)
      requires r in delivering
      modifies this`delivering, this`inbox
      ensures Now() == Delivered(old(Now()), r, giveUp)
    {
      delivering := delivering - multiset{r};
      if giveUp && cancelled { return; }
      inbox := inbox + multiset{r};
    }

    method Cancel()
      modifies this`cancelled
      ensures Now() == old(Now()).(cancelled := true)
    {
      cancelled := true;
    }

    predicate Able(op: Op)
      reads this
      ensures Able(op) <==> CanPerform(Now(), op)
    {
      match op
      case Timeout(t) => t in armed
      case Handle(t, script, _) => t in queued && OwnAnswers(script)
      case Mistype(t) => t in queued
      case AnswerLater(t, o) => t in responders && OwnAnswers([o])
      case Deliver(r, _) => r in delivering
      case Consume(r) => r in inbox
      case _ => true
    }

    method Perform(op: Op)
      requires CanPerform(Now(), op)
      modifies this
      ensures Now() == Performed(old(Now()), op)
    {
      match op
      case Request(p, cb, routed, giveUp) => var _ := SendRequest(p, cb, routed, giveUp);
      case Timeout(t) => TimerFires(t);
      case Handle(t, script, panics) => RunHandler(t, script, panics);
      case Mistype(t) => FailMistyped(t);
      case AnswerLater(t, o) => Respond(t, o);
      case Deliver(r, giveUp) => PushReply(r, giveUp);
      case Consume(r) => TakeReply(r);
      case Shutdown => Cancel();
    }

    /** A runtime at work, one whole call at a time: after any sequence of calls the object is in
        a state that the state machine reaches, so everything proved about runs holds of it. */
    method Serve(ops: seq<Op>)
      requires Now() == Boot()
      modifies this
      ensures Now() == Served(ops) && Reachable(Now()) && Inv(Now())
    {
      assert ops[..0] == [];
      for n := 0 to |ops|
        invariant Now() == Served(ops[..n])
      {
        assert ops[..n + 1][..n] == ops[..n];
        if Able(ops[n]) {
          Perform(ops[n]);
        }
      }
      assert ops[..|ops|] == ops;
      ServedIsReachable(ops);
    }
  }

  /** Whatever a handler does, its request gets at most one answer from it; and exactly one
      if it calls its responder or panics: the first call, or else the panic. */
  lemma {:induction false} HandlerAnswers(s: State, t: Token, script: seq<Outcome>)
    requires t in s.responders && !s.responders[t].done
    ensures Answers(s, t, script).produced
         == if script == [] then s.produced else s.produced + [Reply(t, script[0])]
    ensures Answers(s, t, script).responders[t].done <==> script != []
    decreases |script|
  {
    if script == [] {
    } else {
      var before := script[..|script| - 1];
      HandlerAnswers(s, t, before);
      if before == [] {
        assert script[|script| - 1] == script[0];
      } else {
        assert before[0] == script[0];
      }
    }
  }

  lemma HandlerSettlesItsRequest(s: State, t: Token, script: seq<Outcome>, panics: bool)
    ensures var s' := Handled(s, t, script, panics);
            && s'.produced == s.produced + (
                 if script != [] then [Reply(t, script[0])] else if panics then [Reply(t, Panicked)] else [])
            && s'.reports == if panics then s.reports + {t} else s.reports
  {
    HandlerAnswers(DoDispatch(s, t), t, script);
  }

  // --- the methods are runs of the state machine --------------------------------------------------

  /** Where a sequence of steps leads from `s`. */
  function RunFrom(s: State, steps: seq<Step>): State
    decreases |steps|
  {
    if steps == [] then s else RunFrom(Next(s, steps[0]), steps[1..])
  }

  lemma RunFromCons(s: State, step: Step, steps: seq<Step>)
    ensures RunFrom(s, [step] + steps) == RunFrom(Next(s, step), steps)
  {
    assert ([step] + steps)[1..] == steps;
  }

  lemma {:induction false} RunFromAppend(s: State, a: seq<Step>, b: seq<Step>)
    ensures RunFrom(s, a + b) == RunFrom(RunFrom(s, a), b)
    decreases |a|
  {
    if a == [] {
      assert a + b == b;
    } else {
      assert a == [a[0]] + a[1..] && a + b == [a[0]] + (a[1..] + b);
      RunFromCons(s, a[0], a[1..]);
      RunFromCons(s, a[0], a[1..] + b);
      RunFromAppend(Next(s, a[0]), a[1..], b);
    }
  }

  lemma {:induction false} RunGoesOn(steps: seq<Step>, more: seq<Step>)
    ensures Run(steps + more) == RunFrom(Run(steps), more)
    decreases |more|
  {
    if more == [] {
      assert steps + more == steps;
    } else {
      assert more == [more[0]] + more[1..] && steps + more == steps + [more[0]] + more[1..];
      RunSnoc(steps, more[0]);
      RunGoesOn(steps + [more[0]], more[1..]);
      RunFromCons(Run(steps), more[0], more[1..]);
    }
  }

  /** The steps of sending, in order. */
  function SendSteps(s: State, p: nat, cb: Callback, routed: bool, giveUp: bool): seq<Step> {
    var t := Token(p, LastId(s, p) + 1);
    [Allocate(p, cb)] + ([Register(t)] + RouteSteps(s, t, routed, giveUp))
  }

  function RouteSteps(s: State, t: Token, routed: bool, giveUp: bool): seq<Step> {
    if !routed then [RouteMissing(t)] + []
    else [ArmTimer(t)] + ([if giveUp && s.cancelled then AbandonPost(t) else Post(t)] + [])
  }

  /** The steps of a handler invocation, in order. */
  function HandleSteps(t: Token, script: seq<Outcome>, panics: bool): seq<Step> {
    [Dispatch(t)] + (AnswerSteps(t, script) + EndSteps(t, panics))
  }

  function AnswerSteps(t: Token, script: seq<Outcome>): seq<Step> {
    seq(|script|, k requires 0 <= k < |script| => Answer(t, script[k]))
  }

  function EndSteps(t: Token, panics: bool): seq<Step> {
    if panics then [Panic(t)] + ([AutoFail(t)] + []) else [Return(t)] + []
  }

  lemma RegisterFrom(s: State, p: nat, cb: Callback, rest: seq<Step>)
    ensures var t := Token(p, LastId(s, p) + 1);
            && RunFrom(s, [Allocate(p, cb)] + ([Register(t)] + rest))
               == RunFrom(DoRegister(DoAllocate(s, p, cb), t), rest)
            && AtStage(DoRegister(DoAllocate(s, p, cb), t), t, Registered)
  {
    var t := Token(p, LastId(s, p) + 1);
    RunFromCons(s, Allocate(p, cb), [Register(t)] + rest);
    RunFromCons(DoAllocate(s, p, cb), Register(t), rest);
  }

  lemma ArmNext(s: State, t: Token)
    requires AtStage(s, t, Registered)
    ensures Next(s, ArmTimer(t)) == DoArm(s, t) && AtStage(DoArm(s, t), t, Armed)
  {
  }

  lemma PostNext(s: State, t: Token, giveUp: bool)
    requires AtStage(s, t, Armed)
    ensures Next(s, if giveUp && s.cancelled then AbandonPost(t) else Post(t)) == Posted(s, t, giveUp)
  {
  }

  lemma PostFrom(s: State, t: Token, giveUp: bool)
    requires AtStage(s, t, Registered)
    ensures RunFrom(s, RouteSteps(s, t, true, giveUp)) == Posted(DoArm(s, t), t, giveUp)
  {
    var last := if giveUp && s.cancelled then AbandonPost(t) else Post(t);
    RunFromCons(s, ArmTimer(t), [last] + []);
    ArmNext(s, t);
    RunFromCons(DoArm(s, t), last, []);
    PostNext(DoArm(s, t), t, giveUp);
  }

  lemma RouteFrom(s: State, t: Token, routed: bool, giveUp: bool)
    requires AtStage(s, t, Registered)
    ensures RunFrom(s, RouteSteps(s, t, routed, giveUp))
         == if routed then Posted(DoArm(s, t), t, giveUp) else DoRouteMissing(s, t)
  {
    if routed { PostFrom(s, t, giveUp); } else { RunFromCons(s, RouteMissing(t), []); }
  }

  /** `sendRequest` is its steps in order. */
  lemma SentIsItsSteps(s: State, p: nat, cb: Callback, routed: bool, giveUp: bool)
    ensures RunFrom(s, SendSteps(s, p, cb, routed, giveUp)) == Sent(s, p, cb, routed, giveUp)
  {
    var t := Token(p, LastId(s, p) + 1);
    var s1 := DoRegister(DoAllocate(s, p, cb), t);
    RegisterFrom(s, p, cb, RouteSteps(s, t, routed, giveUp));
    assert RouteSteps(s, t, routed, giveUp) == RouteSteps(s1, t, routed, giveUp);
    RouteFrom(s1, t, routed, giveUp);
  }

  /** So from any reachable state it leads to a reachable state, and everything proved about
      runs holds after it. */
  lemma SentIsReachable(steps: seq<Step>, p: nat, cb: Callback, routed: bool, giveUp: bool) returns (more: seq<Step>)
    ensures more == steps + SendSteps(Run(steps), p, cb, routed, giveUp)
    ensures Run(more) == Sent(Run(steps), p, cb, routed, giveUp)
    ensures Inv(Run(more))
  {
    SentIsItsSteps(Run(steps), p, cb, routed, giveUp);
    RunGoesOn(steps, SendSteps(Run(steps), p, cb, routed, giveUp));
    more := steps + SendSteps(Run(steps), p, cb, routed, giveUp);
    RunKeeps(more);
  }

  /** A request that has been sent is pending with its own callback under a number that was not
      in use; it is queued with its timer armed, or answered with the no-handler error, or a
      shutdown has won. */
  lemma SentHandsOver(s: State, p: nat, cb: Callback, routed: bool, giveUp: bool)
    requires Inv(s)
    ensures var s', t := Sent(s, p, cb, routed, giveUp), Token(p, LastId(s, p) + 1);
            && t !in s.asked && t in s'.pending && s'.pending[t] == cb && t !in s'.calls
            && (routed ==> t in s'.armed && s'.produced == s.produced)
            && (routed && !(giveUp && s.cancelled) ==> s'.queued == s.queued + {t})
            && (!routed ==> s'.produced == s.produced + [Reply(t, NoHandler)] && s'.queued == s.queued)
  {
    assert PlaceInv(At(s, Token(p, LastId(s, p) + 1)));
  }

  lemma AnswersSnoc(t: Token, script: seq<Outcome>)
    requires script != []
    ensures var n := |script| - 1;
            AnswerSteps(t, script) == AnswerSteps(t, script[..n]) + ([Answer(t, script[n])] + [])
  {
  }

  lemma AnswerFrom(s: State, t: Token, o: Outcome)
    requires t in s.responders && (o.Value? || o.Failed?)
    ensures RunFrom(s, [Answer(t, o)] + []) == Settle(s, t, o)
  {
    RunFromCons(s, Answer(t, o), []);
  }

  lemma {:induction false} AnswersFrom(s: State, t: Token, script: seq<Outcome>)
    requires t in s.responders && OwnAnswers(script)
    ensures RunFrom(s, AnswerSteps(t, script)) == Answers(s, t, script)
    decreases |script|
  {
    if script == [] {
    } else {
      var n := |script| - 1;
      AnswersFrom(s, t, script[..n]);
      AnswersSnoc(t, script);
      RunFromAppend(s, AnswerSteps(t, script[..n]), [Answer(t, script[n])] + []);
      AnswerFrom(Answers(s, t, script[..n]), t, script[n]);
    }
  }

  lemma PanicNext(s: State, t: Token)
    requires t in s.responders && s.responders[t].handler == Running
    ensures Next(s, Panic(t)) == DoPanic(s, t)
    ensures t in DoPanic(s, t).responders && DoPanic(s, t).responders[t].handler == Reported
  {
  }

  lemma AutoFailNext(s: State, t: Token)
    requires t in s.responders && s.responders[t].handler == Reported
    ensures Next(s, AutoFail(t)) == DoAutoFail(s, t)
  {
  }

  lemma PanicFrom(s: State, t: Token)
    requires t in s.responders && s.responders[t].handler == Running
    ensures RunFrom(s, [Panic(t)] + ([AutoFail(t)] + [])) == DoAutoFail(DoPanic(s, t), t)
  {
    RunFromCons(s, Panic(t), [AutoFail(t)] + []);
    PanicNext(s, t);
    RunFromCons(DoPanic(s, t), AutoFail(t), []);
    AutoFailNext(DoPanic(s, t), t);
  }

  lemma ReturnFrom(s: State, t: Token)
    requires t in s.responders && s.responders[t].handler == Running
    ensures RunFrom(s, [Return(t)] + []) == SetHandler(s, t, Returned)
  {
    RunFromCons(s, Return(t), []);
  }

  lemma EndFrom(s: State, t: Token, panics: bool)
    requires t in s.responders && s.responders[t].handler == Running
    ensures RunFrom(s, EndSteps(t, panics))
         == if panics then DoAutoFail(DoPanic(s, t), t) else SetHandler(s, t, Returned)
  {
    if panics { PanicFrom(s, t); } else { ReturnFrom(s, t); }
  }

  /** A handler invocation, whatever it answers and however it ends, is its steps in order. */
  lemma HandledIsItsSteps(s: State, t: Token, script: seq<Outcome>, panics: bool)
    requires t in s.queued && OwnAnswers(script)
    ensures RunFrom(s, HandleSteps(t, script, panics)) == Handled(s, t, script, panics)
  {
    var s1 := DoDispatch(s, t);
    RunFromCons(s, Dispatch(t), AnswerSteps(t, script) + EndSteps(t, panics));
    DispatchNext(s, t);
    AnswersThenEnd(s1, t, script, panics);
  }

  lemma DispatchNext(s: State, t: Token)
    requires t in s.queued
    ensures Next(s, Dispatch(t)) == DoDispatch(s, t)
  {
  }

  lemma AnswersThenEnd(s: State, t: Token, script: seq<Outcome>, panics: bool)
    requires t in s.responders && s.responders[t].handler == Running && OwnAnswers(script)
    ensures RunFrom(s, AnswerSteps(t, script) + EndSteps(t, panics))
         == if panics then DoAutoFail(DoPanic(Answers(s, t, script), t), t)
            else SetHandler(Answers(s, t, script), t, Returned)
  {
    RunFromAppend(s, AnswerSteps(t, script), EndSteps(t, panics));
    AnswersFrom(s, t, script);
    EndFrom(Answers(s, t, script), t, panics);
  }

  lemma HandledIsReachable(steps: seq<Step>, t: Token, script: seq<Outcome>, panics: bool) returns (more: seq<Step>)
    requires t in Run(steps).queued && OwnAnswers(script)
    ensures more == steps + HandleSteps(t, script, panics)
    ensures Run(more) == Handled(Run(steps), t, script, panics)
    ensures Inv(Run(more))
  {
    HandledIsItsSteps(Run(steps), t, script, panics);
    RunGoesOn(steps, HandleSteps(t, script, panics));
    more := steps + HandleSteps(t, script, panics);
    RunKeeps(more);
  }

  ghost predicate Reachable(s: State) {
    exists steps :: Run(steps) == s
  }

  /** The calls that are a single step. */
  function StepOf(s: State, op: Op): Step
    requires !op.Request? && !op.Handle?
  {
    match op
    case Timeout(t) => Ipc.TimerFires(t)
    case Mistype(t) => Misroute(t)
    case AnswerLater(t, o) => Answer(t, o)
    case Deliver(r, giveUp) => if giveUp && s.cancelled then Abandon(r) else Enqueue(r)
    case Consume(r) => Take(r)
    case Shutdown => Ipc.Cancel
  }

  lemma TimeoutIsStep(s: State, t: Token)
    requires CanPerform(s, Timeout(t))
    ensures Next(s, StepOf(s, Timeout(t))) == Performed(s, Timeout(t))
  {
  }

  lemma MistypeIsStep(s: State, t: Token)
    requires CanPerform(s, Mistype(t))
    ensures Next(s, StepOf(s, Mistype(t))) == Performed(s, Mistype(t))
  {
  }

  lemma AnswerIsStep(s: State, t: Token, o: Outcome)
    requires CanPerform(s, AnswerLater(t, o))
    ensures Next(s, StepOf(s, AnswerLater(t, o))) == Performed(s, AnswerLater(t, o))
  {
    assert [o][0] == o;
  }

  lemma DeliverIsStep(s: State, r: Reply, giveUp: bool)
    requires CanPerform(s, Deliver(r, giveUp))
    ensures Next(s, StepOf(s, Deliver(r, giveUp))) == Performed(s, Deliver(r, giveUp))
  {
  }

  lemma ConsumeIsStep(s: State, r: Reply)
    requires CanPerform(s, Consume(r))
    ensures Next(s, StepOf(s, Consume(r))) == Performed(s, Consume(r))
  {
  }

  lemma CallIsStep(s: State, op: Op)
    requires CanPerform(s, op) && !op.Request? && !op.Handle?
    ensures Next(s, StepOf(s, op)) == Performed(s, op)
  {
    match op
    case Timeout(t) => TimeoutIsStep(s, t);
    case Mistype(t) => MistypeIsStep(s, t);
    case AnswerLater(t, o) => AnswerIsStep(s, t, o);
    case Deliver(r, giveUp) => DeliverIsStep(s, r, giveUp);
    case Consume(r) => ConsumeIsStep(s, r);
    case Shutdown =>
  }

  lemma StepIsReachable(steps: seq<Step>, op: Op) returns (more: seq<Step>)
    requires CanPerform(Run(steps), op) && !op.Request? && !op.Handle?
    ensures Run(more) == Performed(Run(steps), op)
  {
    var step := StepOf(Run(steps), op);
    RunSnoc(steps, step);
    CallIsStep(Run(steps), op);
    more := steps + [step];
  }

  lemma PerformedIsReachable(steps: seq<Step>, op: Op) returns (more: seq<Step>)
    ensures Run(more) == Performed(Run(steps), op)
  {
    if !CanPerform(Run(steps), op) {
      more := steps;
    } else if op.Request? {
      more := SentIsReachable(steps, op.requester, op.cb, op.routed, op.giveUp);
    } else if op.Handle? {
      more := HandledIsReachable(steps, op.token, op.script, op.panics);
    } else {
      more := StepIsReachable(steps, op);
    }
  }

  lemma {:induction false} ServedRun(ops: seq<Op>) returns (steps: seq<Step>)
    ensures Run(steps) == Served(ops)
    decreases |ops|
  {
    if ops == [] {
      steps := [];
    } else {
      steps := ServedRun(ops[..|ops| - 1]);
      steps := PerformedIsReachable(steps, ops[|ops| - 1]);
    }
  }

  /** Any sequence of whole calls ends in a state of the fine-grained state machine. */
  lemma ServedIsReachable(ops: seq<Op>)
    ensures Reachable(Served(ops)) && Inv(Served(ops))
  {
    var steps := ServedRun(ops);
    RunKeeps(steps);
  }
}
