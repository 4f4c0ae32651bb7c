/**
 The tasks of one admitted batch, run at most `limit` at a time behind a semaphore and joined in
 model order. A schedule says in which order the tasks take their turns; a turn that cannot be
 taken (no permit left, or nothing left to do) changes nothing.
 */
module ToolPool {
  import opened Prelude
  import opened Lifecycle
  import opened ToolBudget

  /** The name of an exception's class. */
  type Name = s: string | s != "" witness "Exception"

  /** How much of a failed call its events tell: a deadline can pass before the call is announced, or
      after its tool has returned. */
  datatype Heard = Nothing | StartOnly | StartAndEnd

  /** How the body of one tool call ends. `Abandoned` is any cancellation; `announced` tells whether the
      call had been announced by then. */
  datatype Outcome =
    | Success(output: string)
    | Failure(error: string, errorType: Name, heard: Heard)
    | Abandoned(announced: bool)

  datatype Task = Queued | Active | Done(result: Outcome)

  /** `slots[i]` is the step of call i: its own, unless a later call of the batch has the same id. */
  datatype Pool = Pool(permits: nat, tasks: seq<Task>, steps: seq<Step>, slots: seq<nat>)

  predicate Shaped(outcomes: seq<Outcome>, p: Pool) {
    && |p.tasks| == |p.steps| == |p.slots| == |outcomes|
    && forall i :: 0 <= i < |p.slots| ==> p.slots[i] < |p.steps|
  }

  function Start(limit: nat, steps: seq<Step>, slots: seq<nat>): Pool {
    Pool(limit, seq(|steps|, _ => Queued), steps, slots)
  }

  /** What the end of the body does to the call's step; a step that is over already stays. */
  function Finish(step: Step, outcome: Outcome): Step {
    match outcome
    case Success(output) => MarkCompleted(step, Some(output)).0
    case Failure(error, errorType, _) => MarkFailed(step, if error == "" then errorType else error).0
    case Abandoned(_) => MarkCancelled(step).0
  }

  /** A step that is asked to move where it cannot raises. */
  function Illegal(heard: Heard): Outcome {
    Failure("Invalid step state transition", "InvalidStateTransition", heard)
  }

  /** A success that finds its step already over becomes a failure, after its events are out. */
  function Result(step: Step, outcome: Outcome): Outcome {
    if outcome.Success? && !MarkCompleted(step, Some(outcome.output)).1 then Illegal(StartAndEnd) else outcome
  }

  predicate Ready(p: Pool, i: nat) {
    i < |p.tasks| && (p.tasks[i].Active? || (p.tasks[i].Queued? && p.permits > 0))
  }

  /** The turn of task `i`: it takes a permit and starts, or it finishes and gives its permit back. A
      task that cannot start its step is over at once. */
  function Turn(outcomes: seq<Outcome>, p: Pool, i: nat): (q: Pool)
    requires Shaped(outcomes, p)
    ensures Shaped(outcomes, q) && q.slots == p.slots
  {
    if !Ready(p, i) then p else
    var k := p.slots[i];
    if p.tasks[i].Queued? then
      var (step, ok) := MarkStarted(p.steps[k]);
      if ok then p.(permits := p.permits - 1, tasks := p.tasks[i := Active], steps := p.steps[k := step])
      else p.(tasks := p.tasks[i := Done(Illegal(Nothing))])
    else
      p.(permits := p.permits + 1, tasks := p.tasks[i := Done(Result(p.steps[k], outcomes[i]))],
         steps := p.steps[k := Finish(p.steps[k], outcomes[i])])
  }

  function Run(outcomes: seq<Outcome>, p: Pool, schedule: seq<nat>): (q: Pool)
    requires Shaped(outcomes, p)
    ensures Shaped(outcomes, q)
    decreases |schedule|
  {
    if schedule == [] then p else Run(outcomes, Turn(outcomes, p, schedule[0]), schedule[1..])
  }

  /** Nothing more can happen. */
  predicate Quiet(p: Pool) {
    forall i: nat :: i < |p.tasks| ==> !Ready(p, i)
  }

  predicate AllDone(p: Pool) {
    forall i :: 0 <= i < |p.tasks| ==> p.tasks[i].Done?
  }

  predicate HasActive(p: Pool, k: nat)
    requires |p.slots| == |p.tasks|
  {
    exists i :: 0 <= i < |p.tasks| && p.tasks[i].Active? && p.slots[i] == k
  }

  /** A timeout or a cancellation of the whole batch: running bodies are cancelled, and calls still
      waiting for a permit never start. */
  function Stop(p: Pool): (q: Pool)
    requires |p.tasks| == |p.steps| == |p.slots|
    ensures |q.tasks| == |q.steps| == |q.slots| == |p.tasks|
  {
    p.(tasks := seq(|p.tasks|, i requires 0 <= i < |p.tasks| =>
                  if p.tasks[i].Done? then p.tasks[i] else Done(Abandoned(p.tasks[i].Active?))),
       steps := seq(|p.steps|, k requires 0 <= k < |p.steps| && |p.slots| == |p.tasks| =>
                  if HasActive(p, k) then MarkCancelled(p.steps[k]).0 else p.steps[k]))
  }

  // ---------------------------------------------------------------------------
  // Permits and progress
  // ---------------------------------------------------------------------------

  function Running(tasks: seq<Task>): nat
    decreases |tasks|
  {
    if tasks == [] then 0 else (if tasks[0].Active? then 1 else 0) + Running(tasks[1..])
  }

  /** Turns still to be taken: two for a queued task, one for a running one. */
  function Work(tasks: seq<Task>): nat
    decreases |tasks|
  {
    if tasks == [] then 0 else Turns(tasks[0]) + Work(tasks[1..])
  }

  function Turns(t: Task): nat {
    match t
    case Queued => 2
    case Active => 1
    case Done(_) => 0
  }

  lemma {:induction false} TaskChanged(tasks: seq<Task>, i: nat, t: Task)
    requires i < |tasks|
    ensures Running(tasks[i := t]) + (if tasks[i].Active? then 1 else 0) == Running(tasks) + if t.Active? then 1 else 0
    ensures Work(tasks[i := t]) + Turns(tasks[i]) == Work(tasks) + Turns(t)
    decreases |tasks|
  {
    var changed := tasks[i := t];
    if i == 0 {
      assert changed[1..] == tasks[1..];
    } else {
      assert changed[1..] == tasks[1..][i - 1 := t];
      TaskChanged(tasks[1..], i - 1, t);
    }
  }

  lemma {:induction false} NobodyRunning(tasks: seq<Task>)
    ensures Running(tasks) == 0 <==> forall i :: 0 <= i < |tasks| ==> !tasks[i].Active?
    ensures Running(tasks) <= Work(tasks) <= 2 * |tasks|
    ensures Work(tasks) == 0 <==> forall i :: 0 <= i < |tasks| ==> tasks[i].Done?
    decreases |tasks|
  {
    if tasks != [] {
      NobodyRunning(tasks[1..]);
      assert forall i :: 1 <= i < |tasks| ==> tasks[i] == tasks[1..][i - 1];
      if forall i :: 0 <= i < |tasks| ==> !tasks[i].Active? {
        assert forall i :: 0 <= i < |tasks| - 1 ==> tasks[1..][i] == tasks[i + 1];
      }
      if forall i :: 0 <= i < |tasks| ==> tasks[i].Done? {
        assert forall i :: 0 <= i < |tasks| - 1 ==> tasks[1..][i] == tasks[i + 1];
      }
    }
  }

  lemma {:induction false} AllQueued(tasks: seq<Task>)
    requires forall i :: 0 <= i < |tasks| ==> tasks[i].Queued?
    ensures Running(tasks) == 0 && Work(tasks) == 2 * |tasks|
    decreases |tasks|
  {
    if tasks != [] {
      AllQueued(tasks[1..]);
    }
  }

  // ---------------------------------------------------------------------------
  // Every schedule
  // ---------------------------------------------------------------------------

  /** Every permit is free or with a running body. */
  predicate Permitted(limit: nat, p: Pool) {
    p.permits + Running(p.tasks) == limit
  }

  lemma TurnKeepsPermits(limit: nat, outcomes: seq<Outcome>, p: Pool, i: nat)
    requires Shaped(outcomes, p) && Permitted(limit, p)
    ensures Permitted(limit, Turn(outcomes, p, i))
    ensures Work(Turn(outcomes, p, i).tasks) + (if Ready(p, i) then 1 else 0) <= Work(p.tasks)
  {
    if Ready(p, i) {
      TaskChanged(p.tasks, i, Turn(outcomes, p, i).tasks[i]);
    }
  }

  /** How many turns of the schedule were really taken. */
  function TurnsTaken(outcomes: seq<Outcome>, p: Pool, schedule: seq<nat>): nat
    requires Shaped(outcomes, p)
    decreases |schedule|
  {
    if schedule == [] then 0 else
    (if Ready(p, schedule[0]) then 1 else 0) + TurnsTaken(outcomes, Turn(outcomes, p, schedule[0]), schedule[1..])
  }

  lemma {:induction false} RunKeepsPermits(limit: nat, outcomes: seq<Outcome>, p: Pool, schedule: seq<nat>)
    requires Shaped(outcomes, p) && Permitted(limit, p)
    ensures Permitted(limit, Run(outcomes, p, schedule))
    ensures Work(Run(outcomes, p, schedule).tasks) + TurnsTaken(outcomes, p, schedule) <= Work(p.tasks)
    decreases |schedule|
  {
    if schedule != [] {
      TurnKeepsPermits(limit, outcomes, p, schedule[0]);
      RunKeepsPermits(limit, outcomes, Turn(outcomes, p, schedule[0]), schedule[1..]);
    }
  }

  lemma StartPermitted(limit: nat, steps: seq<Step>, slots: seq<nat>)
    ensures var p := Start(limit, steps, slots); Permitted(limit, p) && Work(p.tasks) == 2 * |steps|
  {
    AllQueued(Start(limit, steps, slots).tasks);
  }

  /** The step of a call whose task is in state `t`, from the step it had before the batch. */
  function StepAt(step: Step, t: Task): Step {
    match t
    case Queued => step
    case Active => MarkStarted(step).0
    case Done(outcome) => Finish(MarkStarted(step).0, outcome)
  }

  /** The steps of a batch before it runs. */
  predicate Fresh(steps: seq<Step>) {
    forall i :: 0 <= i < |steps| ==> steps[i].status == StepCreated || steps[i].status == StepWaiting
  }

  /** Every call has a step of its own, as it has when the ids of the batch are distinct. */
  predicate OwnSteps(slots: seq<nat>) {
    forall i :: 0 <= i < |slots| ==> slots[i] == i
  }

  /** Where a pool is depends only on where its tasks are. */
  predicate Inv(limit: nat, steps: seq<Step>, outcomes: seq<Outcome>, p: Pool) {
    && Shaped(outcomes, p) && |steps| == |outcomes| && Fresh(steps) && OwnSteps(p.slots)
    && Permitted(limit, p)
    && forall i :: 0 <= i < |steps| ==> TaskInv(steps, outcomes, p, i)
  }

  predicate TaskInv(steps: seq<Step>, outcomes: seq<Outcome>, p: Pool, i: nat)
    requires i < |p.tasks| == |p.steps| == |outcomes| == |steps|
  {
    && p.steps[i] == StepAt(steps[i], p.tasks[i])
    && (p.tasks[i].Done? ==> p.tasks[i].result == outcomes[i])
  }

  lemma TurnKeepsInv(limit: nat, steps: seq<Step>, outcomes: seq<Outcome>, p: Pool, i: nat)
    requires Inv(limit, steps, outcomes, p)
    ensures Inv(limit, steps, outcomes, Turn(outcomes, p, i))
    ensures Work(Turn(outcomes, p, i).tasks) == Work(p.tasks) - if Ready(p, i) then 1 else 0
  {
    if Ready(p, i) {
      var q := Turn(outcomes, p, i);
      TaskChanged(p.tasks, i, q.tasks[i]);
      assert TaskInv(steps, outcomes, p, i);
      forall j | 0 <= j < |steps| ensures TaskInv(steps, outcomes, q, j) {
        assert TaskInv(steps, outcomes, p, j);
      }
    }
  }

  lemma {:induction false} RunKeepsInv(limit: nat, steps: seq<Step>, outcomes: seq<Outcome>, p: Pool, schedule: seq<nat>)
    requires Inv(limit, steps, outcomes, p)
    ensures Inv(limit, steps, outcomes, Run(outcomes, p, schedule))
    ensures Work(Run(outcomes, p, schedule).tasks) + TurnsTaken(outcomes, p, schedule) == Work(p.tasks)
    decreases |schedule|
  {
    if schedule != [] {
      TurnKeepsInv(limit, steps, outcomes, p, schedule[0]);
      RunKeepsInv(limit, steps, outcomes, Turn(outcomes, p, schedule[0]), schedule[1..]);
    }
  }

  function Own(n: nat): (slots: seq<nat>)
    ensures |slots| == n && OwnSteps(slots)
  {
    seq(n, i => i)
  }

  lemma StartInv(limit: nat, steps: seq<Step>, outcomes: seq<Outcome>)
    requires |outcomes| == |steps| && Fresh(steps)
    ensures Inv(limit, steps, outcomes, Start(limit, steps, Own(|steps|)))
    ensures Work(Start(limit, steps, Own(|steps|)).tasks) == 2 * |steps|
  {
    AllQueued(Start(limit, steps, Own(|steps|)).tasks);
  }

  /** A pool that is not finished always has a task whose turn can be taken. */
  lemma NoDeadlock(limit: nat, p: Pool)
    requires Permitted(limit, p) && limit > 0
    ensures Quiet(p) <==> AllDone(p)
  {
    NobodyRunning(p.tasks);
    if Quiet(p) {
      forall i | 0 <= i < |p.tasks| ensures p.tasks[i].Done? {
        assert !Ready(p, i);
        if p.tasks[i].Queued? {
          var j :| 0 <= j < |p.tasks| && p.tasks[j].Active?;
          assert Ready(p, j);
          assert false;
        }
      }
    }
  }

  /** At no point of any schedule do more than `limit` bodies run. */
  lemma NeverOverfull(limit: nat, steps: seq<Step>, outcomes: seq<Outcome>, slots: seq<nat>, schedule: seq<nat>)
    requires Shaped(outcomes, Start(limit, steps, slots))
    ensures Running(Run(outcomes, Start(limit, steps, slots), schedule).tasks) <= limit
  {
    StartPermitted(limit, steps, slots);
    RunKeepsPermits(limit, outcomes, Start(limit, steps, slots), schedule);
  }

  /** The batch is over after at most two turns a call, in whatever order they are taken: no schedule
      can take more, and one that has taken them leaves nothing to do. With a step of its own every
      call takes exactly two. */
  lemma EveryScheduleTerminates(limit: nat, steps: seq<Step>, outcomes: seq<Outcome>, slots: seq<nat>, schedule: seq<nat>)
    requires Shaped(outcomes, Start(limit, steps, slots)) && Fresh(steps) && limit > 0
    ensures var p := Start(limit, steps, slots);
      && TurnsTaken(outcomes, p, schedule) <= 2 * |steps|
      && (TurnsTaken(outcomes, p, schedule) == 2 * |steps| ==> Quiet(Run(outcomes, p, schedule)))
      && (OwnSteps(slots) && Quiet(Run(outcomes, p, schedule)) ==> TurnsTaken(outcomes, p, schedule) == 2 * |steps|)
  {
    var p := Start(limit, steps, slots);
    StartPermitted(limit, steps, slots);
    RunKeepsPermits(limit, outcomes, p, schedule);
    NoDeadlock(limit, Run(outcomes, p, schedule));
    NobodyRunning(Run(outcomes, p, schedule).tasks);
    if OwnSteps(slots) {
      assert slots == Own(|steps|);
      StartInv(limit, steps, outcomes);
      RunKeepsInv(limit, steps, outcomes, p, schedule);
    }
  }

  /** Any schedule can be carried on to the end. */
  lemma {:induction false} CanAlwaysFinish(limit: nat, outcomes: seq<Outcome>, p: Pool)
    requires Shaped(outcomes, p) && Permitted(limit, p) && limit > 0
    ensures exists schedule :: Quiet(Run(outcomes, p, schedule))
    decreases Work(p.tasks)
  {
    if Quiet(p) {
      assert Quiet(Run(outcomes, p, []));
    } else {
      var i: nat :| i < |p.tasks| && Ready(p, i);
      TurnKeepsPermits(limit, outcomes, p, i);
      CanAlwaysFinish(limit, outcomes, Turn(outcomes, p, i));
      var rest :| Quiet(Run(outcomes, Turn(outcomes, p, i), rest));
      assert ([i] + rest)[1..] == rest;
      assert Quiet(Run(outcomes, p, [i] + rest));
    }
  }

  // ---------------------------------------------------------------------------
  // Joining the results
  // ---------------------------------------------------------------------------

  /** One tool result in the execution context. */
  datatype Entry = Entry(call: ToolCall, output: string)

  /** The results to record: the successes, in model order. */
  function Recorded(calls: seq<ToolCall>, tasks: seq<Task>): seq<Entry>
    requires |calls| == |tasks|
    decreases |calls|
  {
    if calls == [] then [] else
    var k := |calls| - 1;
    Recorded(calls[..k], tasks[..k]) +
    if tasks[k].Done? && tasks[k].result.Success? then [Entry(calls[k], tasks[k].result.output)] else []
  }

  /** The batch fails with the first failure in model order, not the first in time. */
  method FirstFailure(tasks: seq<Task>) returns (failure: Option<Outcome>)
    requires forall i :: 0 <= i < |tasks| ==> tasks[i].Done?
    ensures failure.None? <==> forall i :: 0 <= i < |tasks| ==> tasks[i].result.Success?
    ensures failure.Some? ==> exists k :: 0 <= k < |tasks| && tasks[k].result == failure.value && !failure.value.Success?
                                          && forall i :: 0 <= i < k ==> tasks[i].result.Success?
  {
    failure := None;
    for k := 0 to |tasks|
      invariant failure.None? ==> forall i :: 0 <= i < k ==> tasks[i].result.Success?
      invariant failure.Some? ==> exists j :: 0 <= j < k && tasks[j].result == failure.value && !failure.value.Success?
                                              && forall i :: 0 <= i < j ==> tasks[i].result.Success?
    {
      if !tasks[k].result.Success? {
        if failure.None? {
          failure := Some(tasks[k].result);
        }
      }
    }
  }

  /** The pool of a batch that is over, told from the outcomes alone. */
  function Finished(limit: nat, steps: seq<Step>, outcomes: seq<Outcome>): Pool
    requires |steps| == |outcomes|
  {
    Pool(limit,
         seq(|outcomes|, i requires 0 <= i < |outcomes| => Done(outcomes[i])),
         seq(|steps|, i requires 0 <= i < |steps| == |outcomes| => Finish(MarkStarted(steps[i]).0, outcomes[i])),
         Own(|steps|))
  }

  lemma FinishedPool(limit: nat, steps: seq<Step>, outcomes: seq<Outcome>, p: Pool)
    requires Inv(limit, steps, outcomes, p) && AllDone(p)
    ensures p == Finished(limit, steps, outcomes)
  {
    var q := Finished(limit, steps, outcomes);
    NobodyRunning(p.tasks);
    forall i | 0 <= i < |steps| ensures p.tasks[i] == q.tasks[i] && p.steps[i] == q.steps[i] && p.slots[i] == q.slots[i] {
      assert TaskInv(steps, outcomes, p, i);
    }
  }

  /** For fixed outcomes, every schedule that runs the batch to its end leaves the same steps, the
      same results to record, and so the same context and the same failure: what running the
      calls one after another in model order would leave. */
  lemma Confluence(limit: nat, steps: seq<Step>, outcomes: seq<Outcome>, schedule: seq<nat>)
    requires |outcomes| == |steps| && Fresh(steps) && limit > 0
    requires Quiet(Run(outcomes, Start(limit, steps, Own(|steps|)), schedule))
    ensures var p := Run(outcomes, Start(limit, steps, Own(|steps|)), schedule);
      p == Finished(limit, steps, outcomes) == InModelOrder(outcomes, Start(limit, steps, Own(|steps|)), 0)
  {
    var p := Run(outcomes, Start(limit, steps, Own(|steps|)), schedule);
    StartInv(limit, steps, outcomes);
    RunKeepsInv(limit, steps, outcomes, Start(limit, steps, Own(|steps|)), schedule);
    NoDeadlock(limit, p);
    FinishedPool(limit, steps, outcomes, p);
    OneByOne(limit, steps, outcomes, Start(limit, steps, Own(|steps|)), 0);
    FinishedPool(limit, steps, outcomes, InModelOrder(outcomes, Start(limit, steps, Own(|steps|)), 0));
  }

  /** A call that has not started ends as its outcome says. */
  lemma CallEnds(step: Step, outcome: Outcome)
    requires step.status.StepCreated? || step.status.StepWaiting?
    ensures var ended := Finish(MarkStarted(step).0, outcome);
      match outcome
      case Success(output) => ended == step.(status := StepCompleted, output := Some(output))
      case Failure(error, errorType, _) => ended.status == StepFailed && ended.error == Some(if error == "" then errorType else error)
      case Abandoned(_) => ended == step.(status := StepCancelled)
  {
  }

  /** The calls run one after another. */
  ghost function InModelOrder(outcomes: seq<Outcome>, p: Pool, k: nat): Pool
    requires Shaped(outcomes, p)
    decreases |outcomes| - k
  {
    if k >= |outcomes| then p
    else InModelOrder(outcomes, Turn(outcomes, Turn(outcomes, p, k), k), k + 1)
  }

  lemma {:induction false} OneByOne(limit: nat, steps: seq<Step>, outcomes: seq<Outcome>, p: Pool, k: nat)
    requires Inv(limit, steps, outcomes, p) && limit > 0 && k <= |outcomes|
    requires forall i :: 0 <= i < |outcomes| ==> if i < k then p.tasks[i].Done? else p.tasks[i].Queued?
    ensures Inv(limit, steps, outcomes, InModelOrder(outcomes, p, k)) && AllDone(InModelOrder(outcomes, p, k))
    decreases |outcomes| - k
  {
    if k < |outcomes| {
      NobodyRunning(p.tasks);
      TurnKeepsInv(limit, steps, outcomes, p, k);
      TurnKeepsInv(limit, steps, outcomes, Turn(outcomes, p, k), k);
      OneByOne(limit, steps, outcomes, Turn(outcomes, Turn(outcomes, p, k), k), k + 1);
    }
  }

  // ---------------------------------------------------------------------------
  // Calls that share a step
  // ---------------------------------------------------------------------------

  predicate SameCall(s: Step, t: Step) {
    s.number == t.number && s.kind == t.kind && s.callId == t.callId
  }

  /** What holds of every pool, calls with their own steps or not. */
  ghost predicate SharedInv(steps: seq<Step>, outcomes: seq<Outcome>, p: Pool) {
    && Shaped(outcomes, p) && |steps| == |outcomes|
    && (forall k :: 0 <= k < |steps| ==> StepShared(steps, p, k))
    && (forall i :: 0 <= i < |outcomes| ==> TaskShared(p, i))
    && forall i, j :: 0 <= i < j < |outcomes| && p.slots[i] == p.slots[j] ==> !(Succeeded(p, i) && Succeeded(p, j))
  }

  /** A running step belongs to a running task. */
  predicate StepShared(steps: seq<Step>, p: Pool, k: nat)
    requires k < |steps| == |p.steps| && |p.slots| == |p.tasks|
  {
    SameCall(p.steps[k], steps[k]) && (p.steps[k].status == StepRunning ==> HasActive(p, k))
  }

  predicate Succeeded(p: Pool, i: nat)
    requires i < |p.tasks|
  {
    p.tasks[i].Done? && p.tasks[i].result.Success?
  }

  predicate TaskShared(p: Pool, i: nat)
    requires i < |p.tasks| == |p.slots| && p.slots[i] < |p.steps|
  {
    && (p.tasks[i].Active? ==> p.steps[p.slots[i]].status == StepRunning || p.steps[p.slots[i]].status.Terminal())
    && (Succeeded(p, i) ==> p.steps[p.slots[i]].status == StepCompleted)
  }

  lemma StartShared(limit: nat, steps: seq<Step>, outcomes: seq<Outcome>, slots: seq<nat>)
    requires Fresh(steps) && Shaped(outcomes, Start(limit, steps, slots))
    ensures SharedInv(steps, outcomes, Start(limit, steps, slots))
  {
  }

  /** A turn moves its own step along and leaves every other step. */
  lemma TurnStep(outcomes: seq<Outcome>, p: Pool, i: nat, k: nat)
    requires Shaped(outcomes, p) && k < |p.steps|
    ensures var q := Turn(outcomes, p, i);
      && SameCall(q.steps[k], p.steps[k])
      && (p.steps[k].status.Terminal() ==> q.steps[k] == p.steps[k])
      && (i < |p.tasks| && p.slots[i] != k ==> q.steps[k] == p.steps[k])
  {
  }

  lemma TurnKeepsStep(steps: seq<Step>, outcomes: seq<Outcome>, p: Pool, i: nat, k: nat)
    requires SharedInv(steps, outcomes, p) && Ready(p, i) && k < |steps|
    ensures StepShared(steps, Turn(outcomes, p, i), k)
  {
    var q := Turn(outcomes, p, i);
    TurnStep(outcomes, p, i, k);
    assert StepShared(steps, p, k) && TaskShared(p, i);
    if q.steps[k].status == StepRunning {
      if p.slots[i] == k {
        assert q.tasks[i].Active?;
      } else {
        var j :| 0 <= j < |p.tasks| && p.tasks[j].Active? && p.slots[j] == k;
        assert q.tasks[j].Active?;
      }
    }
  }

  lemma TurnKeepsTask(steps: seq<Step>, outcomes: seq<Outcome>, p: Pool, i: nat, j: nat)
    requires SharedInv(steps, outcomes, p) && Ready(p, i) && j < |outcomes|
    ensures TaskShared(Turn(outcomes, p, i), j)
  {
    TurnStep(outcomes, p, i, p.slots[j]);
    assert TaskShared(p, j) && TaskShared(p, i);
  }

  lemma TurnKeepsShared(steps: seq<Step>, outcomes: seq<Outcome>, p: Pool, i: nat)
    requires SharedInv(steps, outcomes, p)
    ensures SharedInv(steps, outcomes, Turn(outcomes, p, i))
  {
    if Ready(p, i) {
      var q := Turn(outcomes, p, i);
      forall k | 0 <= k < |steps| ensures StepShared(steps, q, k) { TurnKeepsStep(steps, outcomes, p, i, k); }
      forall j | 0 <= j < |outcomes| ensures TaskShared(q, j) { TurnKeepsTask(steps, outcomes, p, i, j); }
      forall a, b | 0 <= a < b < |outcomes| && q.slots[a] == q.slots[b] ensures !(Succeeded(q, a) && Succeeded(q, b)) {
        OneSuccess(steps, outcomes, p, i, a, b);
      }
    }
  }

  lemma {:induction false} RunKeepsShared(steps: seq<Step>, outcomes: seq<Outcome>, p: Pool, schedule: seq<nat>)
    requires SharedInv(steps, outcomes, p)
    ensures SharedInv(steps, outcomes, Run(outcomes, p, schedule)) && Run(outcomes, p, schedule).slots == p.slots
    decreases |schedule|
  {
    if schedule != [] {
      TurnKeepsShared(steps, outcomes, p, schedule[0]);
      RunKeepsShared(steps, outcomes, Turn(outcomes, p, schedule[0]), schedule[1..]);
    }
  }

  /** Of two calls that share a step at most one ever succeeds, whatever the schedule. */
  lemma SharedStepSucceedsOnce(limit: nat, steps: seq<Step>, outcomes: seq<Outcome>, slots: seq<nat>, schedule: seq<nat>, a: nat, b: nat)
    requires Fresh(steps) && Shaped(outcomes, Start(limit, steps, slots))
    requires a < b < |outcomes| && slots[a] == slots[b]
    ensures var p := Run(outcomes, Start(limit, steps, slots), schedule); !(Succeeded(p, a) && Succeeded(p, b))
  {
    StartShared(limit, steps, outcomes, slots);
    RunKeepsShared(steps, outcomes, Start(limit, steps, slots), schedule);
  }

  /** Whoever completes a step second fails. */
  lemma OneSuccess(steps: seq<Step>, outcomes: seq<Outcome>, p: Pool, i: nat, a: nat, b: nat)
    requires SharedInv(steps, outcomes, p) && Ready(p, i)
    requires a < b < |outcomes| && p.slots[a] == p.slots[b]
    ensures var q := Turn(outcomes, p, i); !(Succeeded(q, a) && Succeeded(q, b))
  {
    assert TaskShared(p, a) && TaskShared(p, b);
  }

  /** Every call keeps the last step of its id: it shares that step with the call that owns it. */
  predicate LastOfKind(slots: seq<nat>) {
    forall i :: 0 <= i < |slots| ==> slots[i] < |slots| && slots[slots[i]] == slots[i]
  }

  /** A batch whose calls all succeed has no shared step, and has completed every one. */
  lemma AllSucceeded(steps: seq<Step>, outcomes: seq<Outcome>, p: Pool)
    requires SharedInv(steps, outcomes, p) && LastOfKind(p.slots)
    requires forall i :: 0 <= i < |p.tasks| ==> Succeeded(p, i)
    ensures OwnSteps(p.slots)
    ensures forall k :: 0 <= k < |p.steps| ==> p.steps[k].status == StepCompleted
  {
    forall i | 0 <= i < |p.slots| ensures p.slots[i] == i && p.steps[i].status == StepCompleted {
      var k := p.slots[i];
      assert Succeeded(p, i) && Succeeded(p, k) && p.slots[k] == p.slots[i];
      assert TaskShared(p, i);
    }
  }

  /** Once all tasks are over, and likewise once the batch is stopped, no step is left running. */
  lemma NothingRuns(steps: seq<Step>, outcomes: seq<Outcome>, p: Pool)
    requires SharedInv(steps, outcomes, p)
    ensures AllDone(p) ==> forall k :: 0 <= k < |steps| ==> p.steps[k].status != StepRunning
    ensures forall k :: 0 <= k < |steps| ==> Stop(p).steps[k].status != StepRunning && SameCall(Stop(p).steps[k], steps[k])
  {
    forall k | 0 <= k < |steps|
      ensures AllDone(p) ==> p.steps[k].status != StepRunning
      ensures Stop(p).steps[k].status != StepRunning && SameCall(Stop(p).steps[k], steps[k])
    {
      assert StepShared(steps, p, k);
    }
  }

  // ---------------------------------------------------------------------------
  // When the order does not matter
  // ---------------------------------------------------------------------------

  /** Whatever the outcomes, all schedules that run the batch to its end leave the same pool. */
  ghost predicate OrderFree(limit: nat, steps: seq<Step>, slots: seq<nat>) {
    forall outcomes, s, t ::
      Shaped(outcomes, Start(limit, steps, slots))
      && Quiet(Run(outcomes, Start(limit, steps, slots), s)) && Quiet(Run(outcomes, Start(limit, steps, slots), t)) ==>
        Run(outcomes, Start(limit, steps, slots), s) == Run(outcomes, Start(limit, steps, slots), t)
  }

  lemma {:induction false} DoneStays(outcomes: seq<Outcome>, p: Pool, schedule: seq<nat>, i: nat)
    requires Shaped(outcomes, p) && i < |p.tasks| && p.tasks[i].Done?
    ensures i < |Run(outcomes, p, schedule).tasks| && Run(outcomes, p, schedule).tasks[i] == p.tasks[i]
    decreases |schedule|
  {
    if schedule != [] {
      DoneStays(outcomes, Turn(outcomes, p, schedule[0]), schedule[1..], i);
    }
  }

  /** A call that takes its turns first succeeds if its body does. */
  lemma FirstSucceeds(limit: nat, steps: seq<Step>, outcomes: seq<Outcome>, slots: seq<nat>, i: nat) returns (schedule: seq<nat>)
    requires Fresh(steps) && Shaped(outcomes, Start(limit, steps, slots)) && limit > 0
    requires i < |outcomes| && outcomes[i].Success?
    ensures var p := Run(outcomes, Start(limit, steps, slots), schedule); Quiet(p) && Succeeded(p, i)
  {
    var p := Start(limit, steps, slots);
    var q := Turn(outcomes, p, i);
    var r := Turn(outcomes, q, i);
    StartPermitted(limit, steps, slots);
    TurnKeepsPermits(limit, outcomes, p, i);
    TurnKeepsPermits(limit, outcomes, q, i);
    CanAlwaysFinish(limit, outcomes, r);
    var rest :| Quiet(Run(outcomes, r, rest));
    DoneStays(outcomes, r, rest, i);
    schedule := [i] + ([i] + rest);
    assert schedule[1..] == [i] + rest && ([i] + rest)[1..] == rest;
  }

  /** The order of the turns is irrelevant exactly when every call has a step of its own: two calls
      with one step race for it. */
  lemma OrderFreeExactly(limit: nat, steps: seq<Step>, slots: seq<nat>)
    requires Fresh(steps) && |slots| == |steps| && LastOfKind(slots) && limit > 0
    ensures OrderFree(limit, steps, slots) <==> OwnSteps(slots)
  {
    var p := Start(limit, steps, slots);
    if OwnSteps(slots) {
      assert slots == Own(|steps|);
      forall outcomes, s | Shaped(outcomes, p) && Quiet(Run(outcomes, p, s))
        ensures Run(outcomes, p, s) == Finished(limit, steps, outcomes)
      {
        Confluence(limit, steps, outcomes, s);
      }
    } else {
      var i :| 0 <= i < |slots| && slots[i] != i;
      SharersRace(limit, steps, slots, i);
    }
  }

  lemma SharersRace(limit: nat, steps: seq<Step>, slots: seq<nat>, i: nat)
    requires Fresh(steps) && |slots| == |steps| && LastOfKind(slots) && limit > 0
    requires i < |slots| && slots[i] != i
    ensures !OrderFree(limit, steps, slots)
  {
    var k := slots[i];
    var outcomes := seq(|steps|, _ => Success(""));
    var s := FirstSucceeds(limit, steps, outcomes, slots, i);
    var t := FirstSucceeds(limit, steps, outcomes, slots, k);
    if i < k {
      SharedStepSucceedsOnce(limit, steps, outcomes, slots, s, i, k);
    } else {
      SharedStepSucceedsOnce(limit, steps, outcomes, slots, s, k, i);
    }
    assert Run(outcomes, Start(limit, steps, slots), s) != Run(outcomes, Start(limit, steps, slots), t);
  }
}
