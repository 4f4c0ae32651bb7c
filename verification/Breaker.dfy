/**
 The provider circuit breaker. Requests and outcomes arrive in any order: a request admitted
 long ago may report its outcome in whatever state the circuit is in by then. Time is an
 integer that never runs backwards.
 */
module Breaker {
  import opened Prelude

  datatype Status = Healthy | Degraded | Unhealthy

  datatype Circuit = Closed | Open | HalfOpen

  /** `ProviderHealthState`, without the provider's own name. */
  datatype Health = Health(
    status: Status,
    circuit: Circuit,
    consecutiveFailures: nat,
    totalFailures: nat,
    totalSuccesses: nat,
    lastFailureAt: Option<int>,
    lastSuccessAt: Option<int>,
    openedAt: Option<int>,
    halfOpenedAt: Option<int>)

  const NewHealth := Health(Healthy, Closed, 0, 0, 0, None, None, None, None)

  /** The constructor's checks. */
  datatype Config = Config(degradedThreshold: int, unhealthyThreshold: int, recovery: int) {
    predicate Valid() {
      1 <= degradedThreshold <= unhealthyThreshold && 0 < recovery
    }
  }

  datatype Manager = Manager(states: map<string, Health>, probes: set<string>)

  const NewManager := Manager(map[], {})

  /** `Unregistered` stands for the KeyError of an unknown provider. */
  datatype Answer = Allowed | Refused | Unregistered

  // ---------------------------------------------------------------------------
  // The operations on values
  // ---------------------------------------------------------------------------

  predicate Recovered(c: Config, h: Health, now: int) {
    h.openedAt.Some? && now - h.openedAt.value >= c.recovery
  }

  function Admit(c: Config, m: Manager, p: string, now: int): (Manager, Answer) {
    if p !in m.states then (m, Unregistered) else
    var h := m.states[p];
    match h.circuit
    case Closed => (m, Allowed)
    case Open =>
      if !Recovered(c, h, now) then (m, Refused) else
      var half := m.(states := m.states[p := h.(circuit := HalfOpen, halfOpenedAt := Some(now))]);
      if p in m.probes then (half, Refused) else (half.(probes := half.probes + {p}), Allowed)
    case HalfOpen =>
      if p in m.probes then (m, Refused) else (m.(probes := m.probes + {p}), Allowed)
  }

  function Succeed(m: Manager, p: string, now: int): Manager {
    if p !in m.states then m else
    var h := m.states[p];
    Manager(
      m.states[p := h.(status := Healthy, circuit := Closed, consecutiveFailures := 0,
                       totalSuccesses := h.totalSuccesses + 1, lastSuccessAt := Some(now),
                       openedAt := None, halfOpenedAt := None)],
      m.probes - {p})
  }

  function FailedHealth(c: Config, h: Health, now: int): Health {
    var counted := h.(totalFailures := h.totalFailures + 1,
                      consecutiveFailures := h.consecutiveFailures + 1,
                      lastFailureAt := Some(now));
    if h.circuit.HalfOpen? || counted.consecutiveFailures >= c.unhealthyThreshold then
      counted.(circuit := Open, openedAt := Some(now), halfOpenedAt := None, status := Unhealthy)
    else if counted.consecutiveFailures >= c.degradedThreshold then
      counted.(status := Degraded)
    else
      counted
  }

  function Fail(c: Config, m: Manager, p: string, now: int): Manager {
    if p !in m.states then m else
    Manager(m.states[p := FailedHealth(c, m.states[p], now)], m.probes - {p})
  }

  /** `ReliabilityManager`. */
  class ReliabilityManager {
    const config: Config
    var states: map<string, Health>
    var probes: set<string>

    function View(): Manager
      reads this
    {
      Manager(states, probes)
    }

    constructor (config: Config)
      requires config.Valid()
      ensures this.config == config && View() == NewManager
    {
      this.config := config;
      states, probes := map[], {};
    }

    /** Fails, changing nothing, on a blank or already registered name. */
    method Register(p: string) returns (ok: bool)
      modifies this
      ensures ok <==> !Blank(p) && p !in old(states)
      ensures View() == if ok then Registered(old(View()), p) else old(View())
    {
      if Blank(p) || p in states {
        return false;
      }
      states := states[p := NewHealth];
      ok := true;
    }

    method AllowRequest(p: string, now: int) returns (answer: Answer)
      modifies this
      ensures (View(), answer) == Admit(config, old(View()), p, now)
    {
      if p !in states {
        return Unregistered;
      }
      var h := states[p];
      if h.circuit == Closed {
        return Allowed;
      }
      if h.circuit == Open {
        if h.openedAt.Some? && now - h.openedAt.value >= config.recovery {
          states := states[p := h.(circuit := HalfOpen, halfOpenedAt := Some(now))];
          if p in probes {
            return Refused;
          }
          probes := probes + {p};
          return Allowed;
        }
        return Refused;
      }
      if p in probes {
        return Refused;
      }
      probes := probes + {p};
      answer := Allowed;
    }

    method RecordSuccess(p: string, now: int) returns (known: bool)
      modifies this
      ensures known <==> p in old(states)
      ensures View() == Succeed(old(View()), p, now)
    {
      if p !in states {
        return false;
      }
      var h := states[p];
      h := h.(totalSuccesses := h.totalSuccesses + 1, consecutiveFailures := 0, lastSuccessAt := Some(now));
      h := h.(status := Healthy, circuit := Closed, openedAt := None, halfOpenedAt := None);
      states := states[p := h];
      probes := probes - {p};
      known := true;
    }

    method RecordFailure(p: string, now: int) returns (known: bool)
      modifies this
      ensures known <==> p in old(states)
      ensures View() == Fail(config, old(View()), p, now)
    {
      if p !in states {
        return false;
      }
      var h := states[p];
      h := h.(totalFailures := h.totalFailures + 1,
              consecutiveFailures := h.consecutiveFailures + 1,
              lastFailureAt := Some(now));
      probes := probes - {p};
      if h.circuit == HalfOpen {
        h := h.(circuit := Open, openedAt := Some(now), halfOpenedAt := None, status := Unhealthy);
      } else if h.consecutiveFailures >= config.unhealthyThreshold {
        h := h.(status := Unhealthy, circuit := Open, openedAt := Some(now), halfOpenedAt := None);
      } else if h.consecutiveFailures >= config.degradedThreshold {
        h := h.(status := Degraded);
      }
      states := states[p := h];
      known := true;
    }
  }

  /** Empty, or nothing but white space (ASCII). */
  predicate Blank(s: string) {
    forall i :: 0 <= i < |s| ==> s[i] in " \t\n\r"
  }

  function Registered(m: Manager, p: string): Manager {
    m.(states := m.states[p := NewHealth])
  }

  // ---------------------------------------------------------------------------
  // Traces
  // ---------------------------------------------------------------------------

  /** `id` names a request; an outcome carries the id of the request it answers. */
  datatype Event =
    | Registration(p: string)
    | Request(p: string, id: nat)
    | Success(p: string, id: nat)
    | Failure(p: string, id: nat)

  datatype Stamped = Stamped(at: int, event: Event)

  function Apply(c: Config, m: Manager, s: Stamped): Manager {
    match s.event
    case Registration(p) => if Blank(p) || p in m.states then m else Registered(m, p)
    case Request(p, _) => Admit(c, m, p, s.at).0
    case Success(p, _) => Succeed(m, p, s.at)
    case Failure(p, _) => Fail(c, m, p, s.at)
  }

  /** The manager after the first n events. */
  function After(c: Config, trace: seq<Stamped>, n: nat): Manager
    requires n <= |trace|
  {
    if n == 0 then NewManager else Apply(c, After(c, trace, n - 1), trace[n - 1])
  }

  predicate ClockRuns(trace: seq<Stamped>) {
    forall i, j :: 0 <= i <= j < |trace| ==> trace[i].at <= trace[j].at
  }

  /** Event i is a request the breaker admitted. */
  predicate Admitted(c: Config, trace: seq<Stamped>, i: nat, p: string)
    requires i < |trace|
  {
    && trace[i].event.Request? && trace[i].event.p == p
    && Admit(c, After(c, trace, i), p, trace[i].at).1 == Allowed
  }

  /** Event i is a request the breaker admitted although the circuit was not closed. */
  predicate Probe(c: Config, trace: seq<Stamped>, i: nat, p: string)
    requires i < |trace|
  {
    Admitted(c, trace, i, p) && After(c, trace, i).states[p].circuit != Closed
  }

  // ---------------------------------------------------------------------------
  // Invariants
  // ---------------------------------------------------------------------------

  /** Status and circuit are functions of the failure count; a probe is out exactly while the
      circuit is half open; the opening time is known exactly while the circuit is open. */
  predicate HealthInv(c: Config, h: Health, probing: bool) {
    && (h.circuit == Closed <==> h.consecutiveFailures < c.unhealthyThreshold)
    && (h.status == Unhealthy <==> h.circuit != Closed)
    && (h.status == Healthy <==> h.consecutiveFailures < c.degradedThreshold)
    && (h.circuit == HalfOpen <==> probing)
    && (h.circuit == Open ==> h.openedAt.Some? && h.halfOpenedAt.None?)
    && (h.circuit == Closed ==> h.openedAt.None? && h.halfOpenedAt.None?)
    && (h.circuit == HalfOpen ==> h.halfOpenedAt.Some?)
    && h.consecutiveFailures <= h.totalFailures
  }

  predicate Inv(c: Config, m: Manager) {
    && m.probes <= m.states.Keys
    && forall p :: p in m.states ==> HealthInv(c, m.states[p], p in m.probes)
  }

  lemma {:induction false} ReachableInv(c: Config, trace: seq<Stamped>, n: nat)
    requires c.Valid() && n <= |trace|
    ensures Inv(c, After(c, trace, n))
  {
    if n > 0 {
      ReachableInv(c, trace, n - 1);
    }
  }

  /** The admission rule in every reachable state: a closed circuit admits, an open one admits
      exactly when its recovery time is over, a half-open one admits nobody. */
  lemma AdmissionRule(c: Config, trace: seq<Stamped>, n: nat, p: string, now: int)
    requires c.Valid() && n <= |trace|
    requires p in After(c, trace, n).states
    ensures var m := After(c, trace, n); var h := m.states[p];
      Admit(c, m, p, now).1 == Allowed <==>
        h.consecutiveFailures < c.unhealthyThreshold
        || (h.circuit == Open && Recovered(c, h, now))
  {
    ReachableInv(c, trace, n);
  }

  /** Nothing a trace does to other providers touches p. */
  lemma ProvidersAreIndependent(c: Config, m: Manager, s: Stamped, p: string)
    requires s.event.p != p
    ensures var t := Apply(c, m, s);
      && (p in t.states <==> p in m.states)
      && (p in m.states ==> t.states[p] == m.states[p])
      && (p in t.probes <==> p in m.probes)
  {
  }

  // ---------------------------------------------------------------------------
  // Probes
  // ---------------------------------------------------------------------------

  /** From a probe at time `since` on, an open circuit was opened no earlier than that. */
  predicate OpenedSince(m: Manager, p: string, since: int) {
    p in m.states && (m.states[p].circuit == Open ==> m.states[p].openedAt.Some? && m.states[p].openedAt.value >= since)
  }

  lemma {:induction false} OpenedSinceProbe(c: Config, trace: seq<Stamped>, i: nat, n: nat, p: string)
    requires c.Valid() && ClockRuns(trace)
    requires i < n <= |trace| && Probe(c, trace, i, p)
    ensures OpenedSince(After(c, trace, n), p, trace[i].at)
    decreases n
  {
    ReachableInv(c, trace, n - 1);
    if n > i + 1 {
      OpenedSinceProbe(c, trace, i, n - 1, p);
    }
  }

  /** Two requests admitted while the circuit is not closed are at least the recovery time
      apart, under any interleaving of admissions and late outcomes. */
  lemma ProbeSpacing(c: Config, trace: seq<Stamped>, i: nat, j: nat, p: string)
    requires c.Valid() && ClockRuns(trace)
    requires i < j < |trace| && Probe(c, trace, i, p) && Probe(c, trace, j, p)
    ensures trace[j].at - trace[i].at >= c.recovery
  {
    ReachableInv(c, trace, j);
    OpenedSinceProbe(c, trace, i, j, p);
  }

  predicate Outcome(e: Event, p: string) {
    (e.Success? || e.Failure?) && e.p == p
  }

  lemma {:induction false} ProbeHolds(c: Config, trace: seq<Stamped>, i: nat, n: nat, p: string)
    requires c.Valid()
    requires i < n <= |trace| && Probe(c, trace, i, p)
    requires forall k :: i < k < n ==> !Outcome(trace[k].event, p)
    ensures p in After(c, trace, n).states && After(c, trace, n).states[p].circuit == HalfOpen && p in After(c, trace, n).probes
    decreases n
  {
    ReachableInv(c, trace, n - 1);
    if n > i + 1 {
      ProbeHolds(c, trace, i, n - 1, p);
    }
  }

  /** A half-open period admits one probe: between two probes some outcome was recorded. */
  lemma OneProbePerHalfOpen(c: Config, trace: seq<Stamped>, i: nat, j: nat, p: string)
    requires c.Valid()
    requires i < j < |trace| && Probe(c, trace, i, p) && Probe(c, trace, j, p)
    ensures exists k :: i < k < j && Outcome(trace[k].event, p)
  {
    if forall k :: i < k < j ==> !Outcome(trace[k].event, p) {
      ProbeHolds(c, trace, i, j, p);
    }
  }

  /** How many of the first n events are probes of p at or after `since`. */
  function Probes(c: Config, trace: seq<Stamped>, n: nat, p: string, since: int): nat
    requires n <= |trace|
  {
    if n == 0 then 0
    else Probes(c, trace, n - 1, p, since) + if trace[n - 1].at >= since && Probe(c, trace, n - 1, p) then 1 else 0
  }

  /** The latest of those probes. */
  lemma {:induction false} LastProbe(c: Config, trace: seq<Stamped>, n: nat, p: string, since: int) returns (i: nat)
    requires n <= |trace| && Probes(c, trace, n, p, since) > 0
    ensures i < n && Probe(c, trace, i, p) && trace[i].at >= since
    ensures Probes(c, trace, n, p, since) == Probes(c, trace, i, p, since) + 1
  {
    if trace[n - 1].at >= since && Probe(c, trace, n - 1, p) {
      i := n - 1;
    } else {
      i := LastProbe(c, trace, n - 1, p, since);
    }
  }

  lemma OneMoreInterval(k: int, interval: int, first: int, second: int)
    requires (k - 1) * interval <= first && interval <= second - first
    ensures k * interval <= second
  {
    assert k * interval == (k - 1) * interval + interval;
  }

  /** The rate of probes: k of them take at least k - 1 recovery times. */
  lemma {:induction false} ProbeRate(c: Config, trace: seq<Stamped>, n: nat, p: string, since: int)
    requires c.Valid() && ClockRuns(trace) && n <= |trace|
    requires Probes(c, trace, n, p, since) > 0
    ensures (Probes(c, trace, n, p, since) - 1) * c.recovery <= trace[n - 1].at - since
  {
    var j := LastProbe(c, trace, n, p, since);
    var earlier := Probes(c, trace, j, p, since);
    if earlier > 0 {
      var i := LastProbe(c, trace, j, p, since);
      ProbeSpacing(c, trace, i, j, p);
      ProbeRate(c, trace, i + 1, p, since);
      OneMoreInterval(earlier, c.recovery, trace[i].at - since, trace[j].at - since);
    }
    assert earlier * c.recovery <= trace[j].at - since <= trace[n - 1].at - since;
  }

  // ---------------------------------------------------------------------------
  // Probes in flight
  // ---------------------------------------------------------------------------

  /** Event k is the outcome of the request of event i. */
  predicate Answers(trace: seq<Stamped>, i: nat, k: nat)
    requires i < |trace| && k < |trace|
  {
    && i < k && trace[i].event.Request?
    && Outcome(trace[k].event, trace[i].event.p) && trace[k].event.id == trace[i].event.id
  }

  /** Requests have different ids, and every outcome answers an admitted request that nothing has
      answered before. */
  ghost predicate WellAnswered(c: Config, trace: seq<Stamped>) {
    && (forall i, j :: 0 <= i < j < |trace| && trace[i].event.Request? && trace[j].event.Request? ==>
          trace[i].event.id != trace[j].event.id)
    && (forall k :: 0 <= k < |trace| ==> Rightful(c, trace, k))
    && forall i, j, k :: 0 <= i < j < k < |trace| && Answers(trace, i, j) ==> !Answers(trace, i, k)
  }

  ghost predicate Rightful(c: Config, trace: seq<Stamped>, k: nat)
    requires k < |trace|
  {
    trace[k].event.Success? || trace[k].event.Failure? ==>
      exists i: nat :: i < k && Admitted(c, trace, i, trace[k].event.p) && Answers(trace, i, k)
  }

  /** Every admitted request reports within `latency`: nothing happens later than that after its
      admission while it is unanswered. */
  ghost predicate Prompt(c: Config, trace: seq<Stamped>, latency: int) {
    forall i: nat, n: nat, p {:trigger Answered(trace, i, n), Admitted(c, trace, i, p)} ::
      i < n < |trace| && Admitted(c, trace, i, p) && trace[n].at - trace[i].at > latency ==> Answered(trace, i, n)
  }

  ghost predicate Answered(trace: seq<Stamped>, i: nat, n: nat)
    requires i < |trace| && n <= |trace|
  {
    exists k: nat :: k < n && Answers(trace, i, k)
  }

  /** The probe of event i is out after the first n events. */
  ghost predicate InFlight(c: Config, trace: seq<Stamped>, i: nat, n: nat, p: string)
    requires n <= |trace|
  {
    i < n && Probe(c, trace, i, p) && !Answered(trace, i, n)
  }

  ghost predicate OneInFlight(c: Config, trace: seq<Stamped>) {
    forall i: nat, j: nat, n: nat, p ::
      n <= |trace| && InFlight(c, trace, i, n, p) && InFlight(c, trace, j, n, p) ==> i == j
  }

  /** When requests report sooner than the recovery time, a probe is answered before the next one. */
  lemma PromptProbeAnswered(c: Config, trace: seq<Stamped>, latency: int, i: nat, j: nat, n: nat, p: string)
    requires c.Valid() && ClockRuns(trace) && Prompt(c, trace, latency) && latency < c.recovery
    requires i < j < n <= |trace| && Probe(c, trace, i, p) && Probe(c, trace, j, p)
    ensures Answered(trace, i, n)
  {
    ProbeSpacing(c, trace, i, j, p);
    assert Answered(trace, i, j);
    var k: nat :| k < j && Answers(trace, i, k);
  }

  /** A provider that is registered, is sent one request more than it takes to open its circuit, and
      fails all of them but the last; that one fails only when the first probe is out, reopens the
      circuit, and lets a second probe follow. */
  function Overtaken(c: Config): (trace: seq<Stamped>)
    requires c.Valid()
  {
    seq(2 * c.unhealthyThreshold + 5, i requires 0 <= i => OvertakenAt(c, i))
  }

  function OvertakenAt(c: Config, i: nat): Stamped
    requires c.Valid()
  {
    var t := c.unhealthyThreshold;
    if i == 0 then Stamped(0, Registration("p"))
    else if i < t + 2 then Stamped(0, Request("p", i - 1))
    else if i < 2 * t + 2 then Stamped(0, Failure("p", i - t - 2))
    else if i == 2 * t + 2 then Stamped(c.recovery, Request("p", t + 1))
    else if i == 2 * t + 3 then Stamped(c.recovery, Failure("p", t))
    else Stamped(2 * c.recovery, Request("p", t + 2))
  }

  /** The provider's health after k requests, and after k failures on top of them. */
  lemma {:induction false} OvertakenRequests(c: Config, k: nat)
    requires c.Valid() && k <= c.unhealthyThreshold + 1
    ensures After(c, Overtaken(c), k + 1) == Registered(NewManager, "p")
  {
    if k == 0 {
      assert !Blank("p") by { assert "p"[0] == 'p'; }
      assert After(c, Overtaken(c), 0) == NewManager;
    } else {
      OvertakenRequests(c, k - 1);
    }
  }

  predicate FailedTimes(c: Config, m: Manager, k: nat) {
    && "p" in m.states && "p" !in m.probes && m.states["p"].consecutiveFailures == k
    && (k < c.unhealthyThreshold ==> m.states["p"].circuit == Closed)
    && (k == c.unhealthyThreshold ==> m.states["p"].circuit == Open && m.states["p"].openedAt == Some(0))
  }

  lemma {:induction false} OvertakenFailures(c: Config, k: nat)
    requires c.Valid() && k <= c.unhealthyThreshold
    ensures FailedTimes(c, After(c, Overtaken(c), c.unhealthyThreshold + 2 + k), k)
  {
    if k == 0 {
      OvertakenRequests(c, c.unhealthyThreshold + 1);
    } else {
      OvertakenFailures(c, k - 1);
      assert Overtaken(c)[c.unhealthyThreshold + 1 + k] == Stamped(0, Failure("p", k - 1));
    }
  }

  /** Both probes of that trace are admitted as probes. */
  lemma OvertakenProbes(c: Config)
    requires c.Valid()
    ensures var t := c.unhealthyThreshold; var trace := Overtaken(c);
      Probe(c, trace, 2 * t + 2, "p") && Probe(c, trace, 2 * t + 4, "p")
  {
    var t, trace := c.unhealthyThreshold, Overtaken(c);
    OvertakenFailures(c, t);
    var m := After(c, trace, 2 * t + 2);
    assert trace[2 * t + 2] == Stamped(c.recovery, Request("p", t + 1));
    var probing := Apply(c, m, trace[2 * t + 2]);
    assert After(c, trace, 2 * t + 3) == probing;
    assert trace[2 * t + 3] == Stamped(c.recovery, Failure("p", t));
    var reopened := Apply(c, probing, trace[2 * t + 3]);
    assert After(c, trace, 2 * t + 4) == reopened;
    assert reopened.states["p"].circuit == Open && reopened.states["p"].openedAt == Some(c.recovery);
    assert trace[2 * t + 4] == Stamped(2 * c.recovery, Request("p", t + 2));
  }

  lemma OvertakenAdmits(c: Config, i: nat)
    requires c.Valid() && 0 < i < c.unhealthyThreshold + 2
    ensures Admitted(c, Overtaken(c), i, "p") && Overtaken(c)[i] == Stamped(0, Request("p", i - 1))
  {
    OvertakenRequests(c, i - 1);
  }

  lemma OvertakenClock(c: Config)
    requires c.Valid()
    ensures ClockRuns(Overtaken(c)) && |Overtaken(c)| == 2 * c.unhealthyThreshold + 5
  {
  }

  lemma OvertakenAnswer(c: Config, k: nat)
    requires c.Valid() && k < |Overtaken(c)|
    ensures Rightful(c, Overtaken(c), k)
  {
    assert Overtaken(c)[k] == OvertakenAt(c, k);
    if Overtaken(c)[k].event.Failure? {
      var i := Overtaken(c)[k].event.id + 1;
      OvertakenAdmits(c, i);
      assert Answers(Overtaken(c), i, k);
    }
  }

  lemma OvertakenIdsDiffer(c: Config)
    requires c.Valid()
    ensures var trace := Overtaken(c);
      && (forall i, j :: 0 <= i < j < |trace| && trace[i].event.Request? && trace[j].event.Request? ==>
            trace[i].event.id != trace[j].event.id)
      && forall i, j, k :: 0 <= i < j < k < |trace| && Answers(trace, i, j) ==> !Answers(trace, i, k)
  {
    var trace := Overtaken(c);
    forall i, j | 0 <= i < j < |trace| && trace[i].event.Failure? && trace[j].event.Failure?
      ensures trace[i].event.id != trace[j].event.id
    {
      assert trace[i] == OvertakenAt(c, i) && trace[j] == OvertakenAt(c, j);
    }
  }

  /** Each of its outcomes answers a different admitted request. */
  lemma OvertakenWellAnswered(c: Config)
    requires c.Valid()
    ensures WellAnswered(c, Overtaken(c))
  {
    var trace := Overtaken(c);
    forall k | 0 <= k < |trace| ensures Rightful(c, trace, k) {
      OvertakenAnswer(c, k);
    }
    OvertakenIdsDiffer(c);
  }

  /** All its requests but the probes are answered before the last event, and that one comes one
      recovery time after the first probe. */
  lemma OvertakenIsPrompt(c: Config)
    requires c.Valid()
    ensures Prompt(c, Overtaken(c), c.recovery)
  {
    var t, trace := c.unhealthyThreshold, Overtaken(c);
    forall i: nat, n: nat, p | i < n < |trace| && Admitted(c, trace, i, p) && trace[n].at - trace[i].at > c.recovery
      ensures Answered(trace, i, n)
    {
      assert n == 2 * t + 4 && 0 < i < t + 2;
      var k := if i == t + 1 then 2 * t + 3 else i + t + 1;
      assert Answers(trace, i, k);
    }
  }

  /** Nothing in it answers either probe. */
  lemma OvertakenInFlight(c: Config, i: nat)
    requires c.Valid() && (i == 2 * c.unhealthyThreshold + 2 || i == 2 * c.unhealthyThreshold + 4)
    ensures InFlight(c, Overtaken(c), i, |Overtaken(c)|, "p")
  {
    OvertakenProbes(c);
    var trace := Overtaken(c);
    forall k: nat | k < |trace| ensures !Answers(trace, i, k) {
      assert trace[k] == OvertakenAt(c, k);
    }
  }

  /** "At most one probe in flight" is not what the breaker gives: a late failure of a request
      admitted earlier reopens the circuit and forgets the probe that is still out. Whatever the
      thresholds, two probes can be out together in a trace where every outcome answers its own
      request and no request takes longer than the recovery time. */
  lemma ProbesMayOverlap(c: Config)
    requires c.Valid()
    ensures var trace := Overtaken(c); var t := c.unhealthyThreshold;
      && ClockRuns(trace) && WellAnswered(c, trace) && Prompt(c, trace, c.recovery)
      && InFlight(c, trace, 2 * t + 2, |trace|, "p") && InFlight(c, trace, 2 * t + 4, |trace|, "p")
  {
    OvertakenClock(c);
    OvertakenWellAnswered(c);
    OvertakenIsPrompt(c);
    OvertakenInFlight(c, 2 * c.unhealthyThreshold + 2);
    OvertakenInFlight(c, 2 * c.unhealthyThreshold + 4);
  }

  /** Exactly when the documented bound holds: for every trace of well-answered requests that report
      within `latency`, at most one probe is in flight at any time if and only if the latency is
      below the recovery time. */
  lemma OneProbeInFlightExactly(c: Config, latency: int)
    requires c.Valid()
    ensures latency < c.recovery <==>
      forall trace :: ClockRuns(trace) && WellAnswered(c, trace) && Prompt(c, trace, latency) ==> OneInFlight(c, trace)
  {
    if latency < c.recovery {
      forall trace, i: nat, j: nat, n: nat, p |
        ClockRuns(trace) && Prompt(c, trace, latency) && n <= |trace|
        && InFlight(c, trace, i, n, p) && InFlight(c, trace, j, n, p)
        ensures i == j
      {
        if i < j {
          PromptProbeAnswered(c, trace, latency, i, j, n, p);
        } else if j < i {
          PromptProbeAnswered(c, trace, latency, j, i, n, p);
        }
      }
    } else {
      ProbesMayOverlap(c);
      var trace := Overtaken(c);
      MorePatient(c, trace, c.recovery, latency);
      assert !OneInFlight(c, trace);
    }
  }

  lemma MorePatient(c: Config, trace: seq<Stamped>, short: int, long: int)
    requires short <= long && Prompt(c, trace, short)
    ensures Prompt(c, trace, long)
  {
  }

  // ---------------------------------------------------------------------------
  // Probes come back
  // ---------------------------------------------------------------------------

  /** A probe that the breaker still holds belongs to a request that has not reported. */
  lemma {:induction false} HeldProbeIsOut(c: Config, trace: seq<Stamped>, n: nat, p: string) returns (i: nat)
    requires c.Valid() && n <= |trace| && p in After(c, trace, n).probes
    ensures i < n && Probe(c, trace, i, p) && !Answered(trace, i, n)
    ensures forall k :: i < k < n ==> !Outcome(trace[k].event, p)
    decreases n
  {
    ReachableInv(c, trace, n - 1);
    if p in After(c, trace, n - 1).probes {
      i := HeldProbeIsOut(c, trace, n - 1, p);
    } else {
      i := n - 1;
    }
  }

  /** Once all admitted requests have reported, the breaker holds no probe, however their outcomes
      interleaved. */
  lemma NoProbeWithoutRequest(c: Config, trace: seq<Stamped>, n: nat)
    requires c.Valid() && n <= |trace|
    requires forall i: nat, p :: i < n && Admitted(c, trace, i, p) ==> Answered(trace, i, n)
    ensures After(c, trace, n).probes == {}
  {
    forall p ensures p !in After(c, trace, n).probes {
      if p in After(c, trace, n).probes {
        var i := HeldProbeIsOut(c, trace, n, p);
      }
    }
  }
}
