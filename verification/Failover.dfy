/**
 `FailoverManager.chat_completion`: walk a model's provider route in order, asking the breaker
 before each provider and reporting each provider's outcome back to it.
 */
module Failover {
  import opened Prelude
  import opened Breaker

  /** What happens at one position of the route: when the breaker is asked, what the provider
      answers if it is called, and when that answer arrives. */
  datatype Reply = Reply(askedAt: int, answeredAt: int, answer: Result<string, string>)

  datatype Attempt = Attempt(provider: string, success: bool, error: Option<string>)

  const CircuitOpen := "Provider circuit is open"

  datatype Ending =
    | Served(provider: string, response: string)
    | AllFailed(lastError: string)
    | NoneAvailable
    | UnknownProvider(name: string)

  /** `called` counts the providers actually called. */
  datatype Outcome = Outcome(ending: Ending, attempts: seq<Attempt>, called: nat, manager: Manager)

  /** The walk from position i on; `budget` calls may still be made and `lastError` is the latest
      provider exception. */
  function Walk(c: Config, m: Manager, route: seq<string>, world: seq<Reply>, i: nat, budget: nat,
                lastError: Option<string>): Outcome
    requires i <= |route| == |world|
    decreases |route| - i
  {
    if i == |route| || budget == 0 then
      Outcome(if lastError.Some? then AllFailed(lastError.value) else NoneAvailable, [], 0, m)
    else
      var p, reply := route[i], world[i];
      var asked := Admit(c, m, p, reply.askedAt);
      match asked.1
      case Unregistered => Outcome(UnknownProvider(p), [], 0, m)
      case Refused =>
        After([Attempt(p, false, Some(CircuitOpen))], 0, Walk(c, asked.0, route, world, i + 1, budget, lastError))
      case Allowed =>
        match reply.answer
        case Ok(response) =>
          Outcome(Served(p, response), [Attempt(p, true, None)], 1, Succeed(asked.0, p, reply.answeredAt))
        case Err(error) =>
          After([Attempt(p, false, Some(error))], 1,
                Walk(c, Fail(c, asked.0, p, reply.answeredAt), route, world, i + 1, budget - 1, Some(error)))
  }

  /** The outcome of a walk that had already made these attempts. */
  function After(attempts: seq<Attempt>, called: nat, o: Outcome): Outcome {
    o.(attempts := attempts + o.attempts, called := called + o.called)
  }

  lemma AfterAfter(a: seq<Attempt>, x: nat, b: seq<Attempt>, y: nat, o: Outcome)
    ensures After(a, x, After(b, y, o)) == After(a + b, x + y, o)
  {
    assert a + (b + o.attempts) == a + b + o.attempts;
  }

  method ChatCompletion(manager: ReliabilityManager, route: seq<string>, world: seq<Reply>, maxAttempts: nat)
    returns (ending: Ending, attempts: seq<Attempt>, attemptedCount: nat)
    requires |route| == |world|
    modifies manager
    ensures Outcome(ending, attempts, attemptedCount, manager.View()) ==
            Walk(manager.config, old(manager.View()), route, world, 0, maxAttempts, None)
  {
    attempts := [];
    attemptedCount := 0;
    var lastError: Option<string> := None;
    ghost var whole := Walk(manager.config, manager.View(), route, world, 0, maxAttempts, None);
    assert whole == After([], 0, whole);
    var i := 0;
    while i < |route|
      invariant 0 <= i <= |route| && attemptedCount <= maxAttempts
      invariant whole == After(attempts, attemptedCount,
                               Walk(manager.config, manager.View(), route, world, i, maxAttempts - attemptedCount, lastError))
    {
      if attemptedCount >= maxAttempts {
        break;
      }
      var p, reply := route[i], world[i];
      var answer := manager.AllowRequest(p, reply.askedAt);
      if answer == Unregistered {
        return UnknownProvider(p), attempts, attemptedCount;
      }
      if answer == Refused {
        ghost var rest := Walk(manager.config, manager.View(), route, world, i + 1, maxAttempts - attemptedCount, lastError);
        AfterAfter(attempts, attemptedCount, [Attempt(p, false, Some(CircuitOpen))], 0, rest);
        attempts := attempts + [Attempt(p, false, Some(CircuitOpen))];
        i := i + 1;
        continue;
      }
      if reply.answer.Err? {
        var _ := manager.RecordFailure(p, reply.answeredAt);
        ghost var rest := Walk(manager.config, manager.View(), route, world, i + 1, maxAttempts - attemptedCount - 1,
                               Some(reply.answer.error));
        AfterAfter(attempts, attemptedCount, [Attempt(p, false, Some(reply.answer.error))], 1, rest);
        attemptedCount := attemptedCount + 1;
        lastError := Some(reply.answer.error);
        attempts := attempts + [Attempt(p, false, Some(reply.answer.error))];
        i := i + 1;
        continue;
      }
      var _ := manager.RecordSuccess(p, reply.answeredAt);
      attemptedCount := attemptedCount + 1;
      attempts := attempts + [Attempt(p, true, None)];
      return Served(p, reply.answer.value), attempts, attemptedCount;
    }
    ending := if lastError.Some? then AllFailed(lastError.value) else NoneAvailable;
  }

  // ---------------------------------------------------------------------------
  // What the walk means
  // ---------------------------------------------------------------------------

  /** The log of a walk from position i on: entry by entry it follows the route, no more calls were
      made than the limit allows, and the only success is the last entry of a served request: the
      provider that served it, with the response that provider gave. */
  predicate FollowsRoute(route: seq<string>, world: seq<Reply>, i: nat, budget: nat, o: Outcome)
    requires |route| == |world|
  {
    && i + |o.attempts| <= |route| && o.called <= budget
    && (forall k :: 0 <= k < |o.attempts| ==> EntryFits(route, i, o, k))
    && (o.ending.Served? ==>
          var k := i + |o.attempts| - 1;
          |o.attempts| > 0 && o.ending.provider == route[k] && world[k].answer == Ok(o.ending.response))
  }

  predicate EntryFits(route: seq<string>, i: nat, o: Outcome, k: nat)
    requires k < |o.attempts| && i + |o.attempts| <= |route|
  {
    && o.attempts[k].provider == route[i + k]
    && (o.attempts[k].success <==> o.ending.Served? && k == |o.attempts| - 1)
  }

  lemma OneAttemptEarlier(route: seq<string>, world: seq<Reply>, i: nat, budget: nat, o: Outcome, attempt: Attempt, called: nat)
    requires |route| == |world| && i < |route| && FollowsRoute(route, world, i + 1, budget, o)
    requires attempt.provider == route[i] && !attempt.success
    ensures FollowsRoute(route, world, i, budget + called, After([attempt], called, o))
  {
    var whole := After([attempt], called, o);
    forall k | 0 <= k < |whole.attempts| ensures EntryFits(route, i, whole, k) {
      if k > 0 {
        assert EntryFits(route, i + 1, o, k - 1);
        assert whole.attempts[k] == o.attempts[k - 1];
      }
    }
  }

  lemma {:induction false} AttemptsFollowRoute(c: Config, m: Manager, route: seq<string>, world: seq<Reply>,
                                               i: nat, budget: nat, lastError: Option<string>)
    requires i <= |route| == |world|
    ensures FollowsRoute(route, world, i, budget, Walk(c, m, route, world, i, budget, lastError))
    decreases |route| - i
  {
    if i < |route| && budget > 0 {
      var p, reply := route[i], world[i];
      var asked := Admit(c, m, p, reply.askedAt);
      if asked.1 == Refused {
        var rest := Walk(c, asked.0, route, world, i + 1, budget, lastError);
        AttemptsFollowRoute(c, asked.0, route, world, i + 1, budget, lastError);
        OneAttemptEarlier(route, world, i, budget, rest, Attempt(p, false, Some(CircuitOpen)), 0);
      } else if asked.1 == Allowed && reply.answer.Err? {
        var failed, error := Fail(c, asked.0, p, reply.answeredAt), reply.answer.error;
        var rest := Walk(c, failed, route, world, i + 1, budget - 1, Some(error));
        AttemptsFollowRoute(c, failed, route, world, i + 1, budget - 1, Some(error));
        OneAttemptEarlier(route, world, i, budget - 1, rest, Attempt(p, false, Some(error)), 1);
      }
    }
  }

  /** A request fails only when the route is used up or the call limit is, and its error says
      whether any provider was called. */
  lemma {:induction false} FailureIsExhaustion(c: Config, m: Manager, route: seq<string>, world: seq<Reply>,
                                               i: nat, budget: nat, lastError: Option<string>)
    requires i <= |route| == |world|
    ensures var o := Walk(c, m, route, world, i, budget, lastError);
      && (o.ending.AllFailed? || o.ending.NoneAvailable? ==> i + |o.attempts| == |route| || o.called == budget)
      && (o.ending.NoneAvailable? ==> o.called == 0 && lastError.None?)
      && (o.ending.AllFailed? ==> o.called > 0 || lastError.Some?)
    decreases |route| - i
  {
    if i < |route| && budget > 0 {
      var p, reply := route[i], world[i];
      var asked := Admit(c, m, p, reply.askedAt);
      if asked.1 == Refused {
        FailureIsExhaustion(c, asked.0, route, world, i + 1, budget, lastError);
      } else if asked.1 == Allowed && reply.answer.Err? {
        FailureIsExhaustion(c, Fail(c, asked.0, p, reply.answeredAt), route, world, i + 1, budget - 1,
                            Some(reply.answer.error));
      }
    }
  }

  predicate NoNewProbe(c: Config, before: Manager, after: Manager) {
    after.probes <= before.probes && Inv(c, after)
  }

  /** A call that is admitted and then answered leaves no probe out that was not out before. */
  lemma CallLeavesNoProbe(c: Config, m: Manager, p: string, askedAt: int, answeredAt: int)
    requires c.Valid() && Inv(c, m)
    ensures var (asked, answer) := Admit(c, m, p, askedAt);
      if answer == Allowed then
        NoNewProbe(c, m, Fail(c, asked, p, answeredAt)) && NoNewProbe(c, m, Succeed(asked, p, answeredAt))
      else
        NoNewProbe(c, m, asked)
  {
  }

  /** Every admission is answered for: a finished request leaves no probe behind that was not
      already out when it started, and keeps the breaker's invariant. */
  lemma {:induction false} NoProbeLeaks(c: Config, m: Manager, route: seq<string>, world: seq<Reply>,
                                        i: nat, budget: nat, lastError: Option<string>)
    requires i <= |route| == |world| && c.Valid() && Inv(c, m)
    ensures NoNewProbe(c, m, Walk(c, m, route, world, i, budget, lastError).manager)
    decreases |route| - i
  {
    if i < |route| && budget > 0 {
      var p, reply := route[i], world[i];
      var asked := Admit(c, m, p, reply.askedAt);
      CallLeavesNoProbe(c, m, p, reply.askedAt, reply.answeredAt);
      if asked.1 == Refused {
        NoProbeLeaks(c, asked.0, route, world, i + 1, budget, lastError);
      } else if asked.1 == Allowed && reply.answer.Err? {
        NoProbeLeaks(c, Fail(c, asked.0, p, reply.answeredAt), route, world, i + 1, budget - 1,
                     Some(reply.answer.error));
      }
    }
  }

  /** Open circuits are skipped: when the breaker refuses every provider before position k and
      k's circuit is closed and k answers, k serves the request. */
  lemma {:induction false} SkipsOpenCircuits(c: Config, m: Manager, route: seq<string>, world: seq<Reply>,
                                             i: nat, budget: nat, lastError: Option<string>, k: nat)
    requires i <= k < |route| == |world| && budget > 0 && Inv(c, m)
    requires forall j :: i <= j < k ==> Admit(c, m, route[j], world[j].askedAt).1 == Refused
    requires route[k] in m.states && m.states[route[k]].circuit == Closed && world[k].answer.Ok?
    ensures Walk(c, m, route, world, i, budget, lastError).ending == Served(route[k], world[k].answer.value)
    decreases k - i
  {
    if i < k {
      assert Admit(c, m, route[i], world[i].askedAt) == (m, Refused);
      SkipsOpenCircuits(c, m, route, world, i + 1, budget, lastError, k);
    }
  }

  // ---------------------------------------------------------------------------
  // Many requests at once
  // ---------------------------------------------------------------------------

  /** One `chat_completion` between two awaits: it suspends only while a provider is called. */
  datatype Stage = Asking | Calling(provider: string) | Finished(ending: Ending)

  datatype Caller = Caller(
    route: seq<string>,
    i: nat,
    budget: nat,
    lastError: Option<string>,
    attempts: seq<Attempt>,
    called: nat,
    stage: Stage)

  /** The caller asks the breaker about its next provider, or gives up. */
  function Ask(c: Config, m: Manager, a: Caller, now: int): (Manager, Caller) {
    if !a.stage.Asking? then (m, a)
    else if a.i >= |a.route| || a.budget == 0 then
      (m, a.(stage := Finished(if a.lastError.Some? then AllFailed(a.lastError.value) else NoneAvailable)))
    else
      var p := a.route[a.i];
      var (asked, answer) := Admit(c, m, p, now);
      match answer
      case Unregistered => (asked, a.(stage := Finished(UnknownProvider(p))))
      case Refused => (asked, a.(i := a.i + 1, attempts := a.attempts + [Attempt(p, false, Some(CircuitOpen))]))
      case Allowed => (asked, a.(stage := Calling(p)))
  }

  /** The provider answers, and the caller reports the outcome. */
  function Report(c: Config, m: Manager, a: Caller, answer: Result<string, string>, now: int): (Manager, Caller) {
    if !a.stage.Calling? then (m, a) else
    var p := a.stage.provider;
    match answer
    case Ok(response) =>
      (Succeed(m, p, now),
       a.(called := a.called + 1, attempts := a.attempts + [Attempt(p, true, None)], stage := Finished(Served(p, response))))
    case Err(error) =>
      (Fail(c, m, p, now),
       a.(i := a.i + 1, budget := if a.budget > 0 then a.budget - 1 else 0, called := a.called + 1, lastError := Some(error),
          attempts := a.attempts + [Attempt(p, false, Some(error))], stage := Asking))
  }

  datatype System = System(manager: Manager, callers: seq<Caller>)

  datatype Action =
    | Asks(caller: nat, now: int)
    | Reports(caller: nat, now: int, answer: Result<string, string>)

  function Step(c: Config, s: System, a: Action): System {
    if a.caller >= |s.callers| then s else
    var (m, next) := match a
      case Asks(k, now) => Ask(c, s.manager, s.callers[k], now)
      case Reports(k, now, answer) => Report(c, s.manager, s.callers[k], answer, now);
    System(m, s.callers[a.caller := next])
  }

  function Run(c: Config, s: System, actions: seq<Action>): (t: System)
    ensures |t.callers| == |s.callers|
    decreases |actions|
  {
    if actions == [] then s else Run(c, Step(c, s, actions[0]), actions[1..])
  }

  predicate CallsProvider(s: System, k: nat, p: string) {
    k < |s.callers| && s.callers[k].stage == Calling(p)
  }

  /** Every probe the breaker holds is out with some caller. */
  ghost predicate ProbesAreOut(c: Config, s: System) {
    Inv(c, s.manager) && forall p :: p in s.manager.probes ==> exists k: nat :: CallsProvider(s, k, p)
  }

  lemma AskKeepsInv(c: Config, m: Manager, a: Caller, now: int)
    requires c.Valid() && Inv(c, m)
    ensures var (next, b) := Ask(c, m, a, now);
      Inv(c, next) && forall p :: p in next.probes ==> p in m.probes || b.stage == Calling(p)
    ensures a.stage.Calling? ==> Ask(c, m, a, now) == (m, a)
  {
  }

  lemma ReportKeepsInv(c: Config, m: Manager, a: Caller, answer: Result<string, string>, now: int)
    requires c.Valid() && Inv(c, m)
    ensures var (next, b) := Report(c, m, a, answer, now);
      Inv(c, next) && next.probes <= m.probes && (a.stage.Calling? ==> a.stage.provider !in next.probes)
  {
  }

  lemma StepKeepsProbesOut(c: Config, s: System, a: Action)
    requires c.Valid() && ProbesAreOut(c, s)
    ensures ProbesAreOut(c, Step(c, s, a))
  {
    var t, k := Step(c, s, a), a.caller;
    if k < |s.callers| {
      match a {
        case Asks(_, now) => AskKeepsInv(c, s.manager, s.callers[k], now);
        case Reports(_, now, answer) => ReportKeepsInv(c, s.manager, s.callers[k], answer, now);
      }
      forall p | p in t.manager.probes ensures exists j: nat :: CallsProvider(t, j, p) {
        if p in s.manager.probes {
          var j: nat :| CallsProvider(s, j, p);
          assert CallsProvider(t, j, p);
        } else {
          assert CallsProvider(t, k, p);
        }
      }
    }
  }

  lemma {:induction false} RunKeepsProbesOut(c: Config, s: System, actions: seq<Action>)
    requires c.Valid() && ProbesAreOut(c, s)
    ensures ProbesAreOut(c, Run(c, s, actions))
    decreases |actions|
  {
    if actions != [] {
      StepKeepsProbesOut(c, s, actions[0]);
      RunKeepsProbesOut(c, Step(c, s, actions[0]), actions[1..]);
    }
  }

  /** However many requests interleave on one breaker: once all of them have finished, no probe is
      held, so no provider is locked out by a request that is gone. */
  lemma NoProbeOutlivesItsRequest(c: Config, m: Manager, callers: seq<Caller>, actions: seq<Action>)
    requires c.Valid() && Inv(c, m) && m.probes == {}
    ensures var t := Run(c, System(m, callers), actions);
      && Inv(c, t.manager)
      && (forall p :: p in t.manager.probes ==> exists k: nat :: CallsProvider(t, k, p))
      && ((forall k :: 0 <= k < |t.callers| ==> t.callers[k].stage.Finished?) ==> t.manager.probes == {})
  {
    RunKeepsProbesOut(c, System(m, callers), actions);
  }

  /** A caller that nobody interleaves with. */
  function Alone(c: Config, m: Manager, a: Caller, world: seq<Reply>): (Manager, Caller)
    requires |world| == |a.route| && a.i <= |a.route|
    decreases |a.route| - a.i
  {
    if !a.stage.Asking? then (m, a)
    else if a.i == |a.route| || a.budget == 0 then Ask(c, m, a, 0)
    else
      var reply := world[a.i];
      var (asked, b) := Ask(c, m, a, reply.askedAt);
      if b.stage.Finished? then (asked, b)
      else if b.stage.Asking? then Alone(c, asked, b, world)
      else
        var (answered, d) := Report(c, asked, b, reply.answer, reply.answeredAt);
        if d.stage.Finished? then (answered, d) else Alone(c, answered, d, world)
  }

  /** It does what the walk over the route says. */
  lemma {:induction false} AloneWalks(c: Config, m: Manager, a: Caller, world: seq<Reply>)
    requires |world| == |a.route| && a.i <= |a.route| && a.stage.Asking?
    ensures var (last, b) := Alone(c, m, a, world);
      && b.stage.Finished?
      && Outcome(b.stage.ending, b.attempts, b.called, last) ==
         After(a.attempts, a.called, Walk(c, m, a.route, world, a.i, a.budget, a.lastError))
    decreases |a.route| - a.i
  {
    if a.i < |a.route| && a.budget > 0 {
      var reply := world[a.i];
      var p := a.route[a.i];
      var (asked, b) := Ask(c, m, a, reply.askedAt);
      if b.stage.Asking? {
        AloneWalks(c, asked, b, world);
        AfterAfter(a.attempts, a.called, [Attempt(p, false, Some(CircuitOpen))], 0,
                   Walk(c, asked, b.route, world, b.i, b.budget, b.lastError));
      } else if b.stage.Calling? && reply.answer.Err? {
        var (answered, d) := Report(c, asked, b, reply.answer, reply.answeredAt);
        AloneWalks(c, answered, d, world);
        AfterAfter(a.attempts, a.called, [Attempt(p, false, Some(reply.answer.error))], 1,
                   Walk(c, answered, d.route, world, d.i, d.budget, d.lastError));
      }
    }
  }
}
