/**
 Routing-session state under optimistic concurrency: the in-memory store, the engine's
 `updateSession`, and any number of concurrent `Route` calls whose `Get` and `CompareAndSwap`
 are separate atomic steps.

 Counters and versions are unbounded here. Time stamps come from the caller's clock.
 */
module SessionStore {
  import opened Prelude
  import opened Tables

  datatype SessionState = SessionState(
    sessionId: string,
    currentModel: string,
    turnCount: nat,
    modelTurns: map<string, nat>,
    switchCount: nat,
    lastDecision: string,
    lastSeen: int,
    version: nat)

  type Sessions = map<string, SessionState>

  /** The zero value a failed lookup leaves behind. */
  const ZeroState := SessionState("", "", 0, map[], 0, "", 0, 0)

  function Lookup(sessions: Sessions, id: string): Option<SessionState> {
    if id in sessions then Some(sessions[id]) else None
  }

  datatype SwapResult = Swapped | VersionConflict

  function ExpectedMatches(sessions: Sessions, id: string, expected: nat): bool {
    if id in sessions then sessions[id].version == expected else expected == 0
  }

  /** `CompareAndSwap` on values: the stored copy gets the next version number. */
  function Swap(sessions: Sessions, id: string, expected: nat, state: SessionState): (Sessions, SwapResult) {
    if ExpectedMatches(sessions, id, expected)
    then (sessions[id := state.(version := expected + 1)], Swapped)
    else (sessions, VersionConflict)
  }

  /** `MemoryStore`. */
  class MemoryStore {
    var sessions: Sessions

    constructor ()
      ensures sessions == map[]
    {
      sessions := map[];
    }

    method Get(id: string) returns (found: Option<SessionState>)
      ensures found == Lookup(sessions, id)
    {
      if id !in sessions {
        return None;
      }
      var copy := CloneState(sessions[id]);
      found := Some(copy);
    }

    method CompareAndSwap(id: string, expected: nat, state: SessionState) returns (result: SwapResult)
      modifies this
      ensures (sessions, result) == Swap(old(sessions), id, expected, state)
    {
      if id !in sessions {
        if expected != 0 {
          return VersionConflict;
        }
        var first := CloneState(state.(version := 1));
        sessions := sessions[id := first];
        return Swapped;
      }
      if sessions[id].version != expected {
        return VersionConflict;
      }
      var next := CloneState(state.(version := expected + 1));
      sessions := sessions[id := next];
      result := Swapped;
    }
  }

  /** `cloneState`: copies the per-model turn counts entry by entry. */
  method CloneState(state: SessionState) returns (copy: SessionState)
    ensures copy == state
  {
    var turns: map<string, nat> := map[];
    var left := state.modelTurns.Keys;
    while left != {}
      invariant left <= state.modelTurns.Keys
      invariant turns.Keys == state.modelTurns.Keys - left
      invariant forall m :: m in turns ==> turns[m] == state.modelTurns[m]
      decreases left
    {
      var model :| model in left;
      turns := turns[model := state.modelTurns[model]];
      left := left - {model};
    }
    assert turns == state.modelTurns;
    copy := state.(modelTurns := turns);
  }

  // ---------------------------------------------------------------------------
  // updateSession
  // ---------------------------------------------------------------------------

  /** The part of a decision a session remembers. */
  datatype Turn = Turn(model: string, strategy: string, now: int)

  /** The state `updateSession` hands to `CompareAndSwap`, before the store sets the version. */
  function Advance(id: string, current: Option<SessionState>, turn: Turn): SessionState {
    var base := if current.Some? then current.value else ZeroState.(sessionId := id);
    base.(
      switchCount := if base.currentModel != "" && base.currentModel != turn.model
                     then base.switchCount + 1 else base.switchCount,
      currentModel := turn.model,
      turnCount := base.turnCount + 1,
      modelTurns := base.modelTurns[turn.model := At(base.modelTurns, turn.model) + 1],
      lastDecision := turn.strategy,
      lastSeen := turn.now)
  }

  function VersionOf(current: Option<SessionState>): nat {
    if current.Some? then current.value.version else 0
  }

  method UpdateSession(store: MemoryStore, id: string, current: Option<SessionState>, turn: Turn)
    returns (result: SwapResult)
    modifies store
    ensures (store.sessions, result) ==
            Swap(old(store.sessions), id, VersionOf(current), Advance(id, current, turn))
  {
    var next: SessionState;
    var version := 0;
    if current.None? {
      next := ZeroState.(sessionId := id);
    } else {
      next := current.value;
      version := current.value.version;
    }
    if next.currentModel != "" && next.currentModel != turn.model {
      next := next.(switchCount := next.switchCount + 1);
    }
    next := next.(currentModel := turn.model);
    next := next.(turnCount := next.turnCount + 1);
    var turns := if turn.model in next.modelTurns then next.modelTurns[turn.model] else 0;
    next := next.(modelTurns := next.modelTurns[turn.model := turns + 1]);
    next := next.(lastDecision := turn.strategy, lastSeen := turn.now);
    result := store.CompareAndSwap(id, version, next);
  }

  // ---------------------------------------------------------------------------
  // Concurrent Route calls
  // ---------------------------------------------------------------------------

  /** How a call turns the session it read into a decision: the routing pipeline for the call's
      own request and the registry it saw. Any function will do. */
  type Decide = Option<SessionState> -> Turn

  datatype Phase =
    | Starting
    | Holding(read: Option<SessionState>)
    | Routed(model: string)
    | Conflicted

  datatype RouteCall = RouteCall(session: string, decide: Decide, phase: Phase)

  /** `log[id]` lists the calls that succeeded on session `id`, oldest first. */
  datatype System = System(sessions: Sessions, calls: seq<RouteCall>, log: map<string, seq<nat>>)

  function LogOf(s: System, id: string): seq<nat> {
    if id in s.log then s.log[id] else []
  }

  predicate Pending(s: System, i: nat) {
    i < |s.calls| && (s.calls[i].phase.Starting? || s.calls[i].phase.Holding?)
  }

  /** Call `i` takes its next step: `Get`, or `CompareAndSwap` with what it read. */
  function Step(s: System, i: nat): System {
    if !Pending(s, i) then s else
    var c := s.calls[i];
    match c.phase
    case Starting => s.(calls := s.calls[i := c.(phase := Holding(Lookup(s.sessions, c.session)))])
    case Holding(read) =>
      var turn := c.decide(read);
      var swap := Swap(s.sessions, c.session, VersionOf(read), Advance(c.session, read, turn));
      if swap.1.Swapped? then
        System(swap.0,
               s.calls[i := c.(phase := Routed(turn.model))],
               s.log[c.session := LogOf(s, c.session) + [i]])
      else
        s.(calls := s.calls[i := c.(phase := Conflicted)])
    case _ => s
  }

  function Run(s: System, schedule: seq<nat>): System
    decreases |schedule|
  {
    if schedule == [] then s else Run(Step(s, schedule[0]), schedule[1..])
  }

  predicate Initial(s: System) {
    && s.sessions == map[] && s.log == map[]
    && forall i :: 0 <= i < |s.calls| ==> s.calls[i].phase == Starting
  }

  // ---------------------------------------------------------------------------
  // The sequential reference
  // ---------------------------------------------------------------------------

  /** One undisturbed Route on a session. */
  function RouteAlone(id: string, state: Option<SessionState>, decide: Decide): SessionState {
    Advance(id, state, decide(state)).(version := VersionOf(state) + 1)
  }

  predicate Within(order: seq<nat>, n: nat) {
    forall j :: 0 <= j < |order| ==> order[j] < n
  }

  /** The listed calls run one after the other, each reading what its predecessor stored. */
  function Sequential(calls: seq<RouteCall>, id: string, order: seq<nat>): Option<SessionState>
    requires Within(order, |calls|)
  {
    if order == [] then None
    else
      var last := order[|order| - 1];
      Some(RouteAlone(id, Sequential(calls, id, order[..|order| - 1]), calls[last].decide))
  }

  /** A call that holds a read state either still holds the current one or an older version. */
  predicate ReadInv(s: System, c: RouteCall) {
    c.phase.Holding? ==>
      (match c.phase.read
       case None => true
       case Some(read) =>
         c.session in s.sessions &&
         (read == s.sessions[c.session] || read.version < s.sessions[c.session].version))
  }

  /** The log of a session lists distinct calls, all of them successful calls on it. */
  predicate LogShape(s: System, id: string) {
    var log := LogOf(s, id);
    && Within(log, |s.calls|)
    && (forall j :: 0 <= j < |log| ==> s.calls[log[j]].phase.Routed? && s.calls[log[j]].session == id)
    && (forall j, k :: 0 <= j < k < |log| ==> log[j] != log[k])
  }

  /** Every logged call decided from exactly what its predecessors in the log left behind. */
  predicate LogDecisions(s: System, id: string)
    requires LogShape(s, id)
  {
    var log := LogOf(s, id);
    forall j :: 0 <= j < |log| ==> DecidedAlone(s, id, j)
  }

  predicate DecidedAlone(s: System, id: string, j: nat)
    requires LogShape(s, id) && j < |LogOf(s, id)|
  {
    var log := LogOf(s, id);
    s.calls[log[j]].phase.model == s.calls[log[j]].decide(Sequential(s.calls, id, log[..j])).model
  }

  predicate LogInv(s: System, id: string) {
    && LogShape(s, id)
    && LogDecisions(s, id)
    && LogState(s, id)
  }

  predicate RoutedLogged(s: System, i: nat) {
    i < |s.calls| && s.calls[i].phase.Routed? ==> i in LogOf(s, s.calls[i].session)
  }

  ghost predicate Inv(s: System) {
    && (forall i :: 0 <= i < |s.calls| ==> ReadInv(s, s.calls[i]))
    && (forall id :: LogInv(s, id))
    && (forall i: nat :: RoutedLogged(s, i))
  }

  lemma {:induction false} SequentialFrame(before: seq<RouteCall>, after: seq<RouteCall>, id: string, order: seq<nat>)
    requires |before| == |after|
    requires forall i :: 0 <= i < |before| ==> before[i].decide == after[i].decide
    requires Within(order, |before|)
    ensures Sequential(before, id, order) == Sequential(after, id, order)
  {
    if order != [] {
      SequentialFrame(before, after, id, order[..|order| - 1]);
    }
  }

  lemma StepKeepsReads(s: System, i: nat)
    requires Inv(s)
    ensures forall j :: 0 <= j < |s.calls| ==> ReadInv(Step(s, i), Step(s, i).calls[j])
  {
    if Pending(s, i) {
      var t := Step(s, i);
      var c := s.calls[i];
      assert LogInv(s, c.session);
      forall j | 0 <= j < |s.calls| ensures ReadInv(t, t.calls[j]) {
        assert ReadInv(s, s.calls[j]) && ReadInv(s, c);
      }
    }
  }

  lemma StepKeepsShape(s: System, i: nat, id: string)
    requires LogShape(s, id)
    ensures LogShape(Step(s, i), id)
  {
    if Pending(s, i) {
      var t := Step(s, i);
      var log := LogOf(s, id);
      assert LogOf(t, id) == log || (LogOf(t, id) == log + [i] && s.calls[i].session == id && t.calls[i].phase.Routed?);
      assert forall j :: 0 <= j < |log| ==> log[j] != i && t.calls[log[j]] == s.calls[log[j]];
    }
  }

  lemma EarlierDecisionStands(s: System, i: nat, id: string, j: nat)
    requires LogShape(s, id) && LogShape(Step(s, i), id)
    requires j < |LogOf(s, id)| && DecidedAlone(s, id, j)
    ensures j < |LogOf(Step(s, i), id)| && DecidedAlone(Step(s, i), id, j)
  {
    if Pending(s, i) {
      var t := Step(s, i);
      var log, longer := LogOf(s, id), LogOf(t, id);
      assert longer[..j] == log[..j] && longer[j] == log[j] && log[j] != i;
      SequentialFrame(s.calls, t.calls, id, log[..j]);
    }
  }

  lemma NewDecisionStands(s: System, i: nat, id: string)
    requires LogInv(s, id) && i < |s.calls| && ReadInv(s, s.calls[i]) && LogShape(Step(s, i), id)
    requires |LogOf(Step(s, i), id)| > |LogOf(s, id)|
    ensures DecidedAlone(Step(s, i), id, |LogOf(s, id)|)
  {
    var t := Step(s, i);
    assert LogOf(t, id)[..|LogOf(s, id)|] == LogOf(s, id);
    SequentialFrame(s.calls, t.calls, id, LogOf(s, id));
  }

  lemma LogGrowsByOne(s: System, i: nat, id: string)
    ensures |LogOf(Step(s, i), id)| <= |LogOf(s, id)| + 1
    ensures i >= |s.calls| ==> Step(s, i) == s
  {
  }

  lemma StepKeepsDecisions(s: System, i: nat, id: string)
    requires LogInv(s, id) && (i < |s.calls| ==> ReadInv(s, s.calls[i]))
    requires LogShape(Step(s, i), id)
    ensures LogDecisions(Step(s, i), id)
  {
    LogGrowsByOne(s, i, id);
    forall j | 0 <= j < |LogOf(Step(s, i), id)| ensures DecidedAlone(Step(s, i), id, j) {
      if j < |LogOf(s, id)| {
        EarlierDecisionStands(s, i, id, j);
      } else {
        NewDecisionStands(s, i, id);
      }
    }
  }

  predicate LogState(s: System, id: string)
    requires LogShape(s, id)
  {
    && Lookup(s.sessions, id) == Sequential(s.calls, id, LogOf(s, id))
    && VersionOf(Lookup(s.sessions, id)) == |LogOf(s, id)|
  }

  /** A swap stores what running the call alone on the stored state gives. */
  lemma SwapIsRouteAlone(s: System, i: nat)
    requires i < |s.calls| && s.calls[i].phase.Holding? && Step(s, i).calls[i].phase.Routed?
    requires LogInv(s, s.calls[i].session) && ReadInv(s, s.calls[i])
    ensures var id := s.calls[i].session; var before := Lookup(s.sessions, id);
      && Lookup(Step(s, i).sessions, id) == Some(RouteAlone(id, before, s.calls[i].decide))
      && LogOf(Step(s, i), id) == LogOf(s, id) + [i]
  {
  }

  /** Any other step leaves the session and its log alone. */
  lemma NoSwapNoChange(s: System, i: nat, id: string)
    requires !(i < |s.calls| && s.calls[i].session == id && s.calls[i].phase.Holding? && Step(s, i).calls[i].phase.Routed?)
    ensures Lookup(Step(s, i).sessions, id) == Lookup(s.sessions, id)
    ensures LogOf(Step(s, i), id) == LogOf(s, id)
  {
  }

  lemma StepKeepsState(s: System, i: nat, id: string)
    requires LogInv(s, id) && (i < |s.calls| ==> ReadInv(s, s.calls[i]))
    requires LogShape(Step(s, i), id)
    ensures LogState(Step(s, i), id)
  {
    var t, log := Step(s, i), LogOf(s, id);
    SequentialFrame(s.calls, t.calls, id, log);
    if i < |s.calls| && s.calls[i].session == id && s.calls[i].phase.Holding? && t.calls[i].phase.Routed? {
      SwapIsRouteAlone(s, i);
      assert (log + [i])[..|log|] == log;
    } else {
      NoSwapNoChange(s, i, id);
    }
  }

  lemma StepKeepsLog(s: System, i: nat, id: string)
    requires LogInv(s, id) && (i < |s.calls| ==> ReadInv(s, s.calls[i]))
    ensures LogInv(Step(s, i), id)
  {
    StepKeepsShape(s, i, id);
    StepKeepsDecisions(s, i, id);
    StepKeepsState(s, i, id);
  }

  lemma {:induction false} RunKeepsInv(s: System, schedule: seq<nat>)
    requires Inv(s)
    ensures Inv(Run(s, schedule))
    decreases |schedule|
  {
    if schedule != [] {
      var t := Step(s, schedule[0]);
      StepKeepsReads(s, schedule[0]);
      forall id ensures LogInv(t, id) { assert LogInv(s, id); StepKeepsLog(s, schedule[0], id); }
      forall i: nat ensures RoutedLogged(t, i) { assert RoutedLogged(s, i); }
      RunKeepsInv(t, schedule[1..]);
    }
  }

  lemma InitialInv(s: System)
    requires Initial(s)
    ensures Inv(s)
  {
    forall id ensures LogInv(s, id) { assert LogOf(s, id) == []; }
  }

  lemma {:induction false} RunKeepsCalls(s: System, schedule: seq<nat>)
    ensures |Run(s, schedule).calls| == |s.calls|
    ensures forall i :: 0 <= i < |s.calls| ==>
      Run(s, schedule).calls[i].session == s.calls[i].session && Run(s, schedule).calls[i].decide == s.calls[i].decide
    decreases |schedule|
  {
    if schedule != [] {
      RunKeepsCalls(Step(s, schedule[0]), schedule[1..]);
    }
  }

  /** Linearizability: under every interleaving the successful calls on a session form one
      sequential run. The log holds each of them once, the stored state is what running them
      alone in that order stores, and each made the decision it would have made alone. */
  lemma SuccessfulCallsLinearize(s: System, schedule: seq<nat>, id: string)
    requires Initial(s)
    ensures var t := Run(s, schedule);
      var log := LogOf(t, id);
      && |t.calls| == |s.calls| && Within(log, |s.calls|)
      && (forall i: nat :: i < |t.calls| && t.calls[i].session == id ==> (t.calls[i].phase.Routed? <==> i in log))
      && (forall j, k :: 0 <= j < k < |log| ==> log[j] != log[k])
      && Lookup(t.sessions, id) == Sequential(s.calls, id, log)
      && (forall j :: 0 <= j < |log| ==>
            t.calls[log[j]].phase == Routed(s.calls[log[j]].decide(Sequential(s.calls, id, log[..j])).model))
  {
    InitialInv(s);
    RunKeepsInv(s, schedule);
    RunKeepsCalls(s, schedule);
    var t := Run(s, schedule);
    var log := LogOf(t, id);
    assert LogInv(t, id);
    SequentialFrame(s.calls, t.calls, id, log);
    forall i: nat | i < |t.calls| && t.calls[i].session == id ensures t.calls[i].phase.Routed? <==> i in log {
      assert RoutedLogged(t, i);
    }
    forall j | 0 <= j < |log|
      ensures t.calls[log[j]].phase == Routed(s.calls[log[j]].decide(Sequential(s.calls, id, log[..j])).model)
    {
      assert DecidedAlone(t, id, j);
      SequentialFrame(s.calls, t.calls, id, log[..j]);
    }
  }

  /** The order respects real time: what is in the log stays a prefix of it, so a call that has
      succeeded precedes every call that has not. */
  lemma {:induction false} LogOnlyGrows(s: System, schedule: seq<nat>, id: string)
    ensures LogOf(s, id) <= LogOf(Run(s, schedule), id)
    decreases |schedule|
  {
    if schedule != [] {
      LogOnlyGrows(Step(s, schedule[0]), schedule[1..], id);
    }
  }

  // ---------------------------------------------------------------------------
  // What the counters mean
  // ---------------------------------------------------------------------------

  /** How often consecutive entries differ. */
  function Changes(models: seq<string>): nat {
    if |models| < 2 then 0
    else Changes(models[..|models| - 1]) +
         if models[|models| - 1] != models[|models| - 2] then 1 else 0
  }

  /** The models the listed calls pick when they run one after the other. */
  function History(calls: seq<RouteCall>, id: string, order: seq<nat>): (models: seq<string>)
    requires Within(order, |calls|)
    ensures |models| == |order|
  {
    if order == [] then []
    else
      var earlier := order[..|order| - 1];
      History(calls, id, earlier) + [calls[order[|order| - 1]].decide(Sequential(calls, id, earlier)).model]
  }

  /** The stored state is a summary of the whole history. */
  ghost predicate Summarizes(state: SessionState, models: seq<string>) {
    && models != []
    && state.version == state.turnCount == |models|
    && state.currentModel == models[|models| - 1]
    && state.switchCount == Changes(models)
    && (forall m :: m in state.modelTurns <==> m in models)
    && (forall m :: m in state.modelTurns ==> state.modelTurns[m] == multiset(models)[m])
  }

  /** The registry rejects blank model names, so no decision names one. */
  ghost predicate NamesModels(calls: seq<RouteCall>) {
    forall i, read :: 0 <= i < |calls| ==> calls[i].decide(read).model != ""
  }

  /** One more turn keeps the summary exact. */
  lemma AdvanceSummarizes(id: string, before: Option<SessionState>, turn: Turn, models: seq<string>)
    requires before.None? <==> models == []
    requires before.Some? ==> Summarizes(before.value, models)
    requires before.Some? ==> before.value.currentModel != ""
    ensures Summarizes(Advance(id, before, turn).(version := VersionOf(before) + 1), models + [turn.model])
  {
    var longer := models + [turn.model];
    assert longer[..|longer| - 1] == models;
    assert forall m :: m in longer <==> m in models || m == turn.model;
  }

  /** `before` summarizes `models`; with no turns yet there is no state. */
  ghost predicate SummarizesSo(before: Option<SessionState>, models: seq<string>) {
    if models == [] then before.None?
    else before.Some? && Summarizes(before.value, models) && before.value.currentModel != ""
  }

  lemma RouteAloneSummarizes(id: string, before: Option<SessionState>, decide: Decide, models: seq<string>)
    requires SummarizesSo(before, models) && decide(before).model != ""
    ensures SummarizesSo(Some(RouteAlone(id, before, decide)), models + [decide(before).model])
  {
    AdvanceSummarizes(id, before, decide(before), models);
  }

  lemma {:induction false} SequentialSummarizes(calls: seq<RouteCall>, id: string, order: seq<nat>)
    requires Within(order, |calls|) && NamesModels(calls)
    ensures SummarizesSo(Sequential(calls, id, order), History(calls, id, order))
  {
    if order != [] {
      var earlier, last := order[..|order| - 1], order[|order| - 1];
      SequentialSummarizes(calls, id, earlier);
      RouteAloneSummarizes(id, Sequential(calls, id, earlier), calls[last].decide, History(calls, id, earlier));
    }
  }

  /** `turns` counts how often each model occurs in `models`. */
  ghost predicate Counts(turns: map<string, nat>, models: seq<string>) {
    && (forall m :: m in turns <==> m in models)
    && (forall m :: m in turns ==> turns[m] == multiset(models)[m])
  }

  /** The count table without the last entry. */
  lemma CountsShorter(turns: map<string, nat>, shorter: seq<string>, last: string) returns (rest: map<string, nat>)
    requires Counts(turns, shorter + [last])
    ensures Counts(rest, shorter)
    ensures last in turns && turns - {last} == rest - {last}
    ensures last in shorter ==> last in rest && rest[last] == turns[last] - 1 && |rest| == |turns|
    ensures last !in shorter ==> last !in rest && turns[last] == 1 && |rest| == |turns| - 1
  {
    var models := shorter + [last];
    assert forall m :: m in models <==> m in shorter || m == last;
    assert multiset(models) == multiset(shorter) + multiset{last};
    if last in shorter {
      rest := turns[last := turns[last] - 1];
      assert rest.Keys == turns.Keys;
    } else {
      rest := turns - {last};
      assert turns.Keys == rest.Keys + {last};
    }
    assert |rest| == |rest.Keys| && |turns| == |turns.Keys|;
  }

  /** Occurrence counts sum to the number of entries. */
  lemma {:induction false} CountsAddUp(turns: map<string, nat>, models: seq<string>)
    requires Counts(turns, models)
    ensures Total(turns) == |models|
    decreases |models|
  {
    if models == [] {
      assert turns == map[];
    } else {
      var last, shorter := models[|models| - 1], models[..|models| - 1];
      assert models == shorter + [last];
      var rest := CountsShorter(turns, shorter, last);
      CountsAddUp(rest, shorter);
      TotalWithout(turns, last);
      if last in shorter {
        TotalWithout(rest, last);
      } else {
        assert rest - {last} == rest;
      }
    }
  }

  lemma ChangesAppend(shorter: seq<string>, last: string)
    ensures Changes(shorter + [last]) ==
            Changes(shorter) + if shorter != [] && last != shorter[|shorter| - 1] then 1 else 0
  {
    assert (shorter + [last])[..|shorter|] == shorter;
  }

  /** A new model can only appear at a change. */
  lemma {:induction false} RowsBoundedByChanges(turns: map<string, nat>, models: seq<string>)
    requires Counts(turns, models)
    ensures |turns| <= Changes(models) + 1
    ensures models != [] ==> Changes(models) <= |models| - 1
    decreases |models|
  {
    if models == [] {
      assert turns == map[];
    } else {
      var last, shorter := models[|models| - 1], models[..|models| - 1];
      assert models == shorter + [last];
      var rest := CountsShorter(turns, shorter, last);
      RowsBoundedByChanges(rest, shorter);
      ChangesAppend(shorter, last);
      if shorter == [] {
        NothingCounted(rest);
      }
    }
  }

  lemma NothingCounted(turns: map<string, nat>)
    requires Counts(turns, [])
    ensures |turns| == 0
  {
    assert turns == map[];
  }

  /** In every reachable state a stored session's version, its turn count, the sum of its
      per-model counts and the number of successful calls on it are one number, and its
      switches bound both its turns and its models. */
  lemma SessionCounters(s: System, schedule: seq<nat>, id: string)
    requires Initial(s) && NamesModels(s.calls)
    ensures var t := Run(s, schedule);
      id in t.sessions ==>
        var state := t.sessions[id];
        && state.version == state.turnCount == Total(state.modelTurns) == |LogOf(t, id)|
        && state.switchCount <= state.turnCount - 1
        && |state.modelTurns| <= state.switchCount + 1
        && Within(LogOf(t, id), |s.calls|)
        && Summarizes(state, History(s.calls, id, LogOf(t, id)))
  {
    SuccessfulCallsLinearize(s, schedule, id);
    var t := Run(s, schedule);
    if id in t.sessions {
      SequentialSummarizes(s.calls, id, LogOf(t, id));
      CountsAddUp(t.sessions[id].modelTurns, History(s.calls, id, LogOf(t, id)));
      RowsBoundedByChanges(t.sessions[id].modelTurns, History(s.calls, id, LogOf(t, id)));
    }
  }

  /** A call fails only because another call succeeded on the session after it read. */
  lemma ConflictMeansProgress(s: System, i: nat)
    requires Inv(s) && Pending(s, i) && s.calls[i].phase.Holding?
    ensures Step(s, i).calls[i].phase == Conflicted <==>
            s.calls[i].session in s.sessions && VersionOf(s.calls[i].phase.read) < |LogOf(s, s.calls[i].session)|
  {
    var id := s.calls[i].session;
    assert LogInv(s, id) && ReadInv(s, s.calls[i]);
  }
}
