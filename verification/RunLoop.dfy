/**
 The run of one agent: plan, route, then rounds of inference and tool batches until a final
 answer, a failure, a cancellation or the step limit, with the events published on the way.

 Everything the run does not decide itself comes from a `World`: every point where the run checks
 for cancellation, checks its deadline or suspends takes the next happening of the script.
 */
module RunLoop {
  import opened Prelude
  import opened Lifecycle
  import opened ToolBudget
  import opened ToolPool
  import opened RunTrace

  class World {
    const script: nat -> Happening
    var at: nat

    constructor (script: nat -> Happening)
      ensures this.script == script && at == 0
    {
      this.script, at := script, 0;
    }

    method Next() returns (h: Happening)
      modifies this
      ensures h == script(old(at)) && at == old(at) + 1
    {
      h := script(at);
      at := at + 1;
    }

    /** A point where only an exception can happen. */
    method Poll() returns (s: Signal)
      modifies this
      ensures s == script(old(at)).signal && at == old(at) + 1
    {
      var h := Next();
      s := h.signal;
    }
  }

  class AgentRun {
    const limits: Limits
    const tools: set<string>
    const world: World
    const execution: Execution
    var events: seq<Event>
    var closed: bool
    var counters: Counters
    var recorded: seq<Entry>
    /** The call ids an approval has been requested for. */
    var booked: set<string>
    /** Every call admitted so far. */
    ghost var admitted: seq<ToolCall>

    constructor (limits: Limits, tools: set<string>, world: World, execution: Execution)
      ensures this.limits == limits && this.tools == tools && this.world == world && this.execution == execution
      ensures events == [] && !closed && counters == NoCalls && recorded == [] && booked == {} && admitted == []
    {
      this.limits, this.tools, this.world, this.execution := limits, tools, world, execution;
      events, closed, counters, recorded, booked, admitted := [], false, NoCalls, [], {}, [];
    }

    /** What holds all through a run, whatever happens. */
    ghost predicate Standing()
      reads this, execution
    {
      && limits.Valid()
      && execution.refused == 0
      && !execution.state.Terminal()
      && Numbered(execution.steps)
      && Streaming()
      && Budgeted()
    }

    ghost predicate Sound()
      reads this, execution
    {
      Standing() && NoneRunning(execution.steps)
    }

    /** What holds between rounds: nothing is left unfinished. */
    ghost predicate Settled()
      reads this, execution
    {
      Sound() && AllCompleted(execution.steps) && Matches(recorded, admitted)
    }

    /** The counters tally the admitted calls, which fit all the limits. */
    ghost predicate Budgeted()
      reads this`counters, this`admitted
    {
      counters == Tally(NoCalls, admitted) && Fits(limits, tools, 0, NoCalls, admitted)
    }

    ghost predicate Streaming()
      reads this`events, this`closed
    {
      |events| > 0 && events[0] == ExecutionStarted && NoneTerminal(events) && !closed
    }

    method Publish(event: Event)
      modifies this`events
      ensures events == if closed then old(events) else old(events) + [event]
    {
      if closed {
        return;
      }
      events := events + [event];
    }

    /** A transition of the execution; every caller shows that it is legal. */
    method Enter(target: State)
      requires target in Targets(execution.state)
      modifies execution`state, execution`status, execution`startedAt, execution`updatedAt, execution`completedAt, execution`refused
      ensures execution.state == target && execution.status == StatusOf(target)
      ensures execution.refused == old(execution.refused)
    {
      var ok := execution.TransitionTo(target, world.script(world.at).now);
    }

    method StartStep(kind: StepKind, callId: string)
      modifies execution`steps
      ensures execution.steps ==
              old(execution.steps) + [Step(|old(execution.steps)| + 1, kind, callId, StepRunning, None, None)]
    {
      var step := NewStep(|execution.steps| + 1, kind, callId);
      execution.AddStep(MarkStarted(step).0);
    }

    /** Completing the last step without an output clears any output it was given. */
    method CompleteStep()
      requires |execution.steps| > 0 && execution.steps[|execution.steps| - 1].status == StepRunning
      modifies execution`steps
      ensures var i := |old(execution.steps)| - 1;
        execution.steps == old(execution.steps)[i := old(execution.steps)[i].(status := StepCompleted, output := None)]
    {
      var i := |execution.steps| - 1;
      execution.steps := execution.steps[i := MarkCompleted(execution.steps[i], None).0];
    }

    /** A running step can be failed with any text but the empty one. */
    method FailStep(error: string) returns (ok: bool)
      requires |execution.steps| > 0 && execution.steps[|execution.steps| - 1].status == StepRunning
      modifies execution`steps
      ensures ok <==> error != ""
      ensures var i := |old(execution.steps)| - 1;
        execution.steps ==
          if ok then old(execution.steps)[i := old(execution.steps)[i].(status := StepFailed, error := Some(error))]
          else old(execution.steps)
    {
      var i := |execution.steps| - 1;
      var (failed, accepted) := MarkFailed(execution.steps[i], error);
      ok := accepted;
      execution.steps := execution.steps[i := failed];
    }

    /** A step that starts and completes at once. */
    method RecordStep(kind: StepKind, callId: string)
      requires !kind.InferenceStep? && InOrder(execution.steps)
      modifies execution`steps
      ensures execution.steps ==
              old(execution.steps) + [Step(|old(execution.steps)| + 1, kind, callId, StepCompleted, None, None)]
      ensures InOrder(execution.steps) && Rounds(execution.steps) == old(Rounds(execution.steps))
      ensures old(AllCompleted(execution.steps)) ==> AllCompleted(execution.steps)
    {
      ghost var before := execution.steps;
      StartStep(kind, callId);
      CompleteStep();
      StepAppended(before, execution.steps);
    }

    // -------------------------------------------------------------------------
    // Admission of a batch
    // -------------------------------------------------------------------------

    /** Checks one call, between two points of interruption. */
    method CheckCall(call: ToolCall, total: nat, projected: Counters) returns (signal: Signal)
      modifies world
      ensures signal.Go? ==> Refuses(limits, tools, total, projected, call).None? && world.at == old(world.at) + 2
      ensures Undisturbed(world.script, old(world.at), 2) ==> signal == Verdict(Refuses(limits, tools, total, projected, call))
    {
      signal := world.Poll();
      if !signal.Go? {
        return;
      }
      var refusal := Refuses(limits, tools, total, projected, call);
      if refusal.Some? {
        return Verdict(refusal);
      }
      signal := world.Poll();
    }

    /** Checks the calls one at a time against projected counters. Undisturbed, it raises the first
        refusal, if there is one. */
    method ProjectBatch(calls: seq<ToolCall>) returns (signal: Signal)
      modifies world
      ensures signal.Go? ==> Admit(limits, tools, |recorded|, counters, calls).None?
      ensures Undisturbed(world.script, old(world.at), 2 * |calls|) ==>
        signal == Verdict(Admit(limits, tools, |recorded|, counters, calls))
    {
      var total := |recorded|;
      var projected := counters;
      for k := 0 to |calls|
        invariant total == |recorded| + k
        invariant projected == Tally(counters, calls[..k])
        invariant Admit(limits, tools, |recorded|, counters, calls[..k]).None?
        invariant world.at == old(world.at) + 2 * k
      {
        signal := CheckCall(calls[k], total, projected);
        if !signal.Go? {
          if Refuses(limits, tools, total, projected, calls[k]).Some? {
            AdmitFails(limits, tools, |recorded|, counters, calls, k);
          }
          return;
        }
        AdmitNext(limits, tools, |recorded|, counters, calls, k);
        total := total + 1;
        projected := Count(projected, calls[k]);
      }
      assert calls[..|calls|] == calls;
      signal := Go;
    }

    method CommitBatch(calls: seq<ToolCall>)
      modifies this`counters, this`admitted
      ensures counters == Tally(old(counters), calls)
      ensures admitted == old(admitted) + calls
    {
      for k := 0 to |calls|
        invariant counters == Tally(old(counters), calls[..k]) && admitted == old(admitted)
      {
        assert calls[..k + 1] == calls[..k] + [calls[k]];
        TallyConcat(old(counters), calls[..k], [calls[k]]);
        counters := Count(counters, calls[k]);
      }
      assert calls[..|calls|] == calls;
      admitted := admitted + calls;
    }

    /** Admits the whole batch or nothing: a batch that is refused, or interrupted, changes no
        counter. */
    method AdmitBatch(calls: seq<ToolCall>) returns (signal: Signal)
      requires Settled()
      modifies world, this`counters, this`admitted
      ensures Sound()
      ensures signal.Go? ==>
        Admit(limits, tools, old(|admitted|), old(counters), calls).None? && admitted == old(admitted) + calls
      ensures !signal.Go? ==> admitted == old(admitted) && counters == old(counters)
      ensures Undisturbed(world.script, old(world.at), 2 * |calls|) ==>
        signal == Verdict(Admit(limits, tools, old(|admitted|), old(counters), calls))
    {
      signal := ProjectBatch(calls);
      if signal.Go? {
        RunsStayWithinBudget(limits, tools, admitted, calls);
        CommitBatch(calls);
      }
    }

    /** One CREATED step a call; the table leads from a call id to the last step with that id. */
    method AddToolSteps(calls: seq<ToolCall>) returns (signal: Signal, toolSteps: map<string, nat>)
      requires InOrder(execution.steps)
      modifies world, execution`steps
      ensures InOrder(execution.steps) && Rounds(execution.steps) == old(Rounds(execution.steps))
      ensures Keeps(old(execution.steps), execution.steps, |old(execution.steps)|)
      ensures AllCreated(execution.steps, |old(execution.steps)|)
      ensures signal.Go? ==> Located(toolSteps, calls, |old(execution.steps)|) && AwaitsStart(execution.steps, calls)
      ensures signal.Go? ==> |execution.steps| == |old(execution.steps)| + |calls|
    {
      ghost var before := execution.steps;
      toolSteps := map[];
      for k := 0 to |calls|
        invariant execution.steps == before + ToolSteps(|before|, calls[..k])
        invariant Located(toolSteps, calls[..k], |before|)
      {
        signal := world.Poll();
        if !signal.Go? {
          ToolStepsAdded(before, calls[..k]);
          return;
        }
        ToolStepsNext(before, calls, k);
        LocatedNext(toolSteps, calls, |before|, k);
        var step := NewStep(|execution.steps| + 1, ToolCallStep, calls[k].callId);
        toolSteps := toolSteps[calls[k].callId := |execution.steps|];
        execution.AddStep(step);
      }
      assert calls[..|calls|] == calls;
      ToolStepsAdded(before, calls);
      signal := Go;
    }

    // -------------------------------------------------------------------------
    // The approval gate
    // -------------------------------------------------------------------------

    /** Which calls need an approval. */
    method AskPolicy(calls: seq<ToolCall>) returns (signal: Signal, waiting: seq<ToolCall>)
      modifies world
      ensures signal.Go? ==> IdsOf(waiting) == NeedApproval(world.script, old(world.at), calls)
    {
      waiting := [];
      for k := 0 to |calls|
        invariant world.at == old(world.at) + k && IdsOf(waiting) == NeedApproval(world.script, old(world.at), calls[..k])
      {
        assert calls[..k + 1][..k] == calls[..k];
        var h := world.Next();
        signal := h.signal;
        if !signal.Go? {
          return;
        }
        if h.needsApproval {
          IdsAppend(waiting, calls[k]);
          waiting := waiting + [calls[k]];
        }
      }
      assert calls[..|calls|] == calls;
      signal := Go;
    }

    /** Requests the approvals; a call id can be requested for once in a run. */
    method RequestApprovals(waiting: seq<ToolCall>) returns (signal: Signal)
      modifies world, this`booked
      ensures old(booked) <= booked <= old(booked) + IdsOf(waiting)
      ensures signal.Go? ==> booked == old(booked) + IdsOf(waiting) && old(booked) !! IdsOf(waiting) && DistinctIds(waiting)
    {
      for k := 0 to |waiting|
        invariant booked == old(booked) + IdsOf(waiting[..k]) && old(booked) !! IdsOf(waiting[..k])
        invariant DistinctIds(waiting[..k])
        invariant IdsOf(waiting[..k]) <= IdsOf(waiting)
      {
        signal := world.Poll();
        if !signal.Go? {
          return;
        }
        if waiting[k].callId in booked {
          return Raise("Approval request already exists: " + waiting[k].callId, "ValueError");
        }
        assert waiting[..k + 1] == waiting[..k] + [waiting[k]];
        IdsAppend(waiting[..k], waiting[k]);
        assert waiting[k].callId in IdsOf(waiting);
        booked := booked + {waiting[k].callId};
      }
      assert waiting[..|waiting|] == waiting;
      signal := Go;
    }

    /** Waits for the verdicts, in whatever order they come, until all are in or one is not a grant.
        The waits are joined, and the first exception ends the join. */
    method AwaitApprovals(waiting: seq<ToolCall>) returns (signal: Signal, ghost verdicts: map<string, bool>)
      modifies world
      ensures verdicts.Keys <= IdsOf(waiting)
      ensures signal.Go? ==> verdicts.Keys == IdsOf(waiting) && forall id :: id in verdicts ==> verdicts[id]
      ensures (exists id :: id in verdicts && !verdicts[id]) ==> signal.Raise? && signal.errorType == "ToolExecutionError"
    {
      verdicts := map[];
      var left := waiting;
      while left != []
        invariant IdsOf(waiting) == verdicts.Keys + IdsOf(left)
        invariant forall id :: id in verdicts ==> verdicts[id]
        decreases |left|
      {
        var h := world.Next();
        signal := if h.signal.TaskCancelled? then CancelRequested else h.signal;
        if !signal.Go? {
          return;
        }
        var i := h.waiter % |left|;
        IdsWithout(left, i);
        verdicts := verdicts[left[i].callId := h.approved];
        if !h.approved {
          signal := Raise("Human approval rejected for tool " + left[i].name, "ToolExecutionError");
          return;
        }
        left := Without(left, i);
      }
      signal := Go;
    }

    /** Asks which calls need an approval, requests them, and waits until all are granted or one is
        not. `verdicts` are the answers received; `Go` takes one, and a grant, for each call the
        policy asked an approval for. */
    method HandleRequiredApprovals(calls: seq<ToolCall>)
      returns (signal: Signal, required: set<string>, ghost verdicts: map<string, bool>)
      requires execution.state == Inference
      modifies world, this`booked
      modifies execution`state, execution`status, execution`startedAt, execution`updatedAt, execution`completedAt, execution`refused
      ensures execution.refused == old(execution.refused)
      ensures execution.state == Inference || execution.state == WaitingApproval
      ensures old(booked) <= booked
      ensures signal.Go? ==> required == NeedApproval(world.script, old(world.at), calls) == verdicts.Keys == booked - old(booked)
      ensures signal.Go? ==> forall id :: id in verdicts ==> verdicts[id]
      ensures (exists id :: id in verdicts && !verdicts[id]) ==> signal.Raise?
    {
      required, verdicts := {}, map[];
      var waiting;
      signal, waiting := AskPolicy(calls);
      if !signal.Go? || waiting == [] {
        return;
      }
      signal := RequestApprovals(waiting);
      if !signal.Go? {
        return;
      }
      Enter(WaitingApproval);
      signal, verdicts := AwaitApprovals(waiting);
      if !signal.Go? {
        return;
      }
      signal := world.Poll();
      required := IdsOf(waiting);
    }

    /** Marks the step of every call that was granted an approval. */
    method MarkWaiting(calls: seq<ToolCall>, toolSteps: map<string, nat>, required: set<string>)
      requires InOrder(execution.steps) && AwaitsStart(execution.steps, calls)
      requires Located(toolSteps, calls, |execution.steps| - |calls|) && required <= IdsOf(calls)
      requires AllCreated(execution.steps, |execution.steps| - |calls|)
      modifies execution`steps
      ensures InOrder(execution.steps) && AwaitsStart(execution.steps, calls)
      ensures Rounds(execution.steps) == old(Rounds(execution.steps))
      ensures MarkedWaiting(old(execution.steps), execution.steps, |old(execution.steps)| - |calls|, toolSteps, required)
    {
      ghost var before := execution.steps;
      var left := required;
      while left != {}
        invariant left <= required
        invariant MarkedWaiting(before, execution.steps, |before| - |calls|, toolSteps, required - left)
        decreases |left|
      {
        var id :| id in left;
        MarkedOne(before, execution.steps, calls, toolSteps, required - left, id);
        var i := toolSteps[id];
        execution.steps := execution.steps[i := Lifecycle.MarkWaiting(execution.steps[i]).0];
        assert required - (left - {id}) == required - left + {id};
        left := left - {id};
      }
      assert required - {} == required;
      MarkedKeeps(before, execution.steps, calls, toolSteps, required);
    }

    /** The gate between admission and the first tool. With `Go`, every approval the batch requires
        has been granted; without it, no step of the batch gets beyond waiting. No event is
        published. */
    method PassGate(calls: seq<ToolCall>, toolSteps: map<string, nat>) returns (signal: Signal, ghost verdicts: map<string, bool>)
      requires execution.state == Inference
      requires InOrder(execution.steps) && AwaitsStart(execution.steps, calls)
      requires Located(toolSteps, calls, |execution.steps| - |calls|)
      requires AllCreated(execution.steps, |execution.steps| - |calls|)
      modifies world, this`booked, execution
      ensures execution.refused == old(execution.refused)
      ensures execution.state != Created && !execution.state.Terminal()
      ensures InOrder(execution.steps) && AwaitsStart(execution.steps, calls)
      ensures |execution.steps| == |old(execution.steps)|
      ensures Keeps(old(execution.steps), execution.steps, |old(execution.steps)| - |calls|)
      ensures Rounds(execution.steps) == old(Rounds(execution.steps))
      ensures signal.Go? ==> execution.state == ToolExecution
      ensures signal.Go? ==> verdicts.Keys == NeedApproval(world.script, old(world.at), calls)
      ensures signal.Go? ==> forall id :: id in verdicts ==> verdicts[id]
      ensures signal.Go? ==>
        MarkedWaiting(old(execution.steps), execution.steps, |old(execution.steps)| - |calls|, toolSteps, verdicts.Keys)
    {
      var required;
      signal, required, verdicts := HandleRequiredApprovals(calls);
      if !signal.Go? {
        return;
      }
      NeededIds(world.script, old(world.at), calls);
      MarkWaiting(calls, toolSteps, required);
      signal := world.Poll();
      if !signal.Go? {
        return;
      }
      Enter(ToolExecution);
    }

    /** Everything before the first tool starts: admission, one step a call, approvals. */
    method PrepareBatch(calls: seq<ToolCall>) returns (signal: Signal, toolSteps: map<string, nat>)
      requires Settled() && execution.state == Inference
      modifies world, execution, this`counters, this`admitted, this`booked
      ensures Sound()
      ensures Keeps(old(execution.steps), execution.steps, |old(execution.steps)|)
      ensures Rounds(execution.steps) == old(Rounds(execution.steps))
      ensures Admit(limits, tools, old(|admitted|), old(counters), calls).Some? ==>
        !signal.Go? && counters == old(counters) && admitted == old(admitted) && execution.steps == old(execution.steps)
      ensures admitted == old(admitted) || admitted == old(admitted) + calls
      ensures forall j :: |old(execution.steps)| <= j < |execution.steps| ==>
        execution.steps[j].status == StepCreated || execution.steps[j].status == StepWaiting
      ensures signal.Go? ==>
        && execution.state == ToolExecution && admitted == old(admitted) + calls
        && |execution.steps| == |old(execution.steps)| + |calls|
        && AwaitsStart(execution.steps, calls) && Located(toolSteps, calls, |old(execution.steps)|)
    {
      toolSteps := map[];
      signal := AdmitBatch(calls);
      if !signal.Go? {
        return;
      }
      signal, toolSteps := AddToolSteps(calls);
      if !signal.Go? {
        return;
      }
      ghost var verdicts;
      signal, verdicts := PassGate(calls, toolSteps);
      StillToStart(execution.steps, calls, |old(execution.steps)|);
    }

    // -------------------------------------------------------------------------
    // Running a batch
    // -------------------------------------------------------------------------

    /** One turn of the pool, with the events it publishes. */
    method TakeTurn(calls: seq<ToolCall>, outcomes: seq<Outcome>, pool: Pool, i: nat) returns (next: Pool)
      requires Shaped(outcomes, pool) && |calls| == |outcomes| && Streaming()
      modifies this`events
      ensures next == Turn(outcomes, pool, i)
      ensures Streaming() && events == old(events) + TurnSays(calls, outcomes, pool, i)
    {
      if Ready(pool, i) {
        if pool.tasks[i].Queued? {
          if MarkStarted(pool.steps[pool.slots[i]]).1 && SaysStarted(outcomes[i]) {
            Publish(ToolCallStarted(calls[i].callId));
          }
        } else if SaysCompleted(outcomes[i]) {
          Publish(ToolCallCompleted(calls[i].callId, outcomes[i].Success?));
        }
      }
      next := Turn(outcomes, pool, i);
    }

    /** Lets the tasks take the turns of a schedule. */
    method RunSchedule(calls: seq<ToolCall>, outcomes: seq<Outcome>, steps: seq<Step>, slots: seq<nat>, schedule: seq<nat>)
      returns (pool: Pool, ghost sent: seq<Event>)
      requires limits.Valid() && Streaming() && |calls| == |outcomes| && Fresh(steps)
      requires Shaped(outcomes, Start(limits.maxParallelToolCalls, steps, slots))
      modifies this`events
      ensures Streaming() && events == old(events) + sent
      ensures pool.slots == slots && Account(limits.maxParallelToolCalls, steps, outcomes, pool, calls, sent)
    {
      pool, sent := Start(limits.maxParallelToolCalls, steps, slots), [];
      AccountStarts(limits.maxParallelToolCalls, steps, outcomes, slots, calls);
      for k := 0 to |schedule|
        invariant Streaming() && events == old(events) + sent
        invariant pool.slots == slots && Account(limits.maxParallelToolCalls, steps, outcomes, pool, calls, sent)
      {
        TurnKeepsAccount(limits.maxParallelToolCalls, steps, outcomes, pool, schedule[k], calls, sent);
        sent := sent + TurnSays(calls, outcomes, pool, schedule[k]);
        pool := TakeTurn(calls, outcomes, pool, schedule[k]);
      }
    }

    /** Runs the batch behind the semaphore until it is over, or until the deadline or a cancellation
        stops it. */
    method DrivePool(calls: seq<ToolCall>, steps: seq<Step>, slots: seq<nat>)
      returns (signal: Signal, pool: Pool, ghost sent: seq<Event>)
      requires limits.Valid() && Streaming() && |steps| == |calls| == |slots| && LastOfKind(slots) && Fresh(steps)
      modifies world, this`events
      ensures Streaming() && events == old(events) + sent
      ensures |pool.tasks| == |calls| && SameCalls(pool.steps, steps) && NoneRunning(pool.steps)
      ensures signal.Go? ==> AllOver(pool.tasks) && (AllSuccessful(pool.tasks) ==> AllCompleted(pool.steps))
      ensures signal.Go? && DistinctIds(calls) && OwnSteps(slots) ==>
        AllEnded(pool.steps, pool.tasks) && Reported(multiset(sent), calls, pool.tasks)
    {
      pool, sent := Start(limits.maxParallelToolCalls, steps, slots), [];
      signal := world.Poll();
      if !signal.Go? {
        return;
      }
      var h := world.Next();
      var outcomes := seq(|calls|, i requires 0 <= i => h.outcomes(i));
      pool, sent := RunSchedule(calls, outcomes, steps, slots, h.schedule);
      if AllDone(pool) {
        signal := Go;
        BatchOver(limits.maxParallelToolCalls, steps, outcomes, pool, calls, sent);
      } else {
        var interruption := world.Poll();
        signal := if interruption.TaskCancelled? then CancelRequested
                  else Raise("Agent parallel tool execution exceeded execution timeout", "ExecutionLimitExceeded");
        NothingRuns(steps, outcomes, pool);
        pool := Stop(pool);
      }
    }

    /** Runs the batch on its steps, the last of the execution. */
    method RunPool(calls: seq<ToolCall>, toolSteps: map<string, nat>)
      returns (signal: Signal, tasks: seq<Task>, ghost sent: seq<Event>)
      requires limits.Valid() && Streaming()
      requires InOrder(execution.steps) && AwaitsStart(execution.steps, calls)
      requires Located(toolSteps, calls, |execution.steps| - |calls|)
      modifies world, this`events, execution`steps
      ensures Streaming() && events == old(events) + sent
      ensures InOrder(execution.steps) && Rounds(execution.steps) == old(Rounds(execution.steps))
      ensures |execution.steps| == |old(execution.steps)|
      ensures Keeps(old(execution.steps), execution.steps, |old(execution.steps)| - |calls|)
      ensures signal.Go? ==> |tasks| == |calls| && AllOver(tasks)
      ensures signal.Go? && AllSuccessful(tasks) ==> AllCompleted(execution.steps[|old(execution.steps)| - |calls|..])
      ensures signal.Go? && DistinctIds(calls) ==>
        && AllEnded(execution.steps[|old(execution.steps)| - |calls|..], tasks)
        && Reported(multiset(sent), calls, tasks)
    {
      var trace, base := execution.steps, |execution.steps| - |calls|;
      SlotsFit(toolSteps, calls, base);
      var pool;
      signal, pool, sent := DrivePool(calls, trace[base..], Slots(toolSteps, calls, base));
      tasks := pool.tasks;
      WrittenBack(trace, base, pool.steps);
      execution.steps := trace[..base] + pool.steps;
    }

    method RecordToolResult(entry: Entry)
      requires InOrder(execution.steps)
      modifies this`recorded, execution`steps
      ensures recorded == old(recorded) + [entry]
      ensures InOrder(execution.steps) && Rounds(execution.steps) == old(Rounds(execution.steps))
      ensures var n := |old(execution.steps)|;
        execution.steps == old(execution.steps) + [Step(n + 1, ToolResultStep, entry.call.callId, StepCompleted, None, None),
                                                   Step(n + 2, ObservationStep, entry.call.callId, StepCompleted, None, None)]
    {
      RecordStep(ToolResultStep, entry.call.callId);
      recorded := recorded + [entry];
      RecordStep(ObservationStep, entry.call.callId);
    }

    /** Records one call's result, if it has one; an interruption can come before it or after. */
    method RecordOne(call: ToolCall, t: Task) returns (signal: Signal)
      requires InOrder(execution.steps)
      modifies world, this`recorded, execution`steps
      ensures recorded == old(recorded) || recorded == old(recorded) + Contribution(call, t)
      ensures signal.Go? ==> recorded == old(recorded) + Contribution(call, t)
      ensures Undisturbed(world.script, old(world.at), 3) ==> signal.Go?
      ensures old(world.at) <= world.at <= old(world.at) + 3
      ensures InOrder(execution.steps) && Rounds(execution.steps) == old(Rounds(execution.steps))
      ensures Keeps(old(execution.steps), execution.steps, |old(execution.steps)|)
      ensures CompletedFrom(execution.steps, |old(execution.steps)|)
      ensures |execution.steps| - |old(execution.steps)| == 2 * (|recorded| - |old(recorded)|)
    {
      signal := world.Poll();
      if !signal.Go? {
        return;
      }
      if t.Done? && t.result.Success? {
        signal := world.Poll();
        if !signal.Go? {
          return;
        }
        RecordToolResult(Entry(call, t.result.output));
        signal := world.Poll();
      }
    }

    /** Records the successes in model order. */
    method RecordResults(calls: seq<ToolCall>, tasks: seq<Task>) returns (signal: Signal)
      requires |calls| == |tasks| && InOrder(execution.steps)
      modifies world, this`recorded, execution`steps
      ensures old(recorded) <= recorded <= old(recorded) + Recorded(calls, tasks)
      ensures signal.Go? ==> recorded == old(recorded) + Recorded(calls, tasks)
      ensures Undisturbed(world.script, old(world.at), 3 * |calls|) ==> signal.Go?
      ensures InOrder(execution.steps) && Rounds(execution.steps) == old(Rounds(execution.steps))
      ensures Keeps(old(execution.steps), execution.steps, |old(execution.steps)|)
      ensures CompletedFrom(execution.steps, |old(execution.steps)|)
      ensures |execution.steps| - |old(execution.steps)| == 2 * (|recorded| - |old(recorded)|)
    {
      for k := 0 to |calls|
        invariant recorded == old(recorded) + Recorded(calls[..k], tasks[..k])
        invariant old(world.at) <= world.at <= old(world.at) + 3 * k
        invariant InOrder(execution.steps) && Rounds(execution.steps) == old(Rounds(execution.steps))
        invariant Keeps(old(execution.steps), execution.steps, |old(execution.steps)|)
        invariant CompletedFrom(execution.steps, |old(execution.steps)|)
        invariant |execution.steps| - |old(execution.steps)| == 2 * (|recorded| - |old(recorded)|)
      {
        RecordedNext(calls, tasks, k);
        signal := RecordOne(calls[k], tasks[k]);
        if !signal.Go? {
          return;
        }
      }
      assert calls[..|calls|] == calls && tasks[..|calls|] == tasks;
      signal := Go;
    }

    /** Records what the batch returned, then raises its first failure in model order. */
    method ObserveResults(calls: seq<ToolCall>, tasks: seq<Task>) returns (signal: Signal)
      requires Sound() && execution.state == ToolExecution && |tasks| == |calls| && AllOver(tasks)
      modifies world, execution, this`recorded
      ensures Sound() && old(recorded) <= recorded <= old(recorded) + Recorded(calls, tasks)
      ensures Keeps(old(execution.steps), execution.steps, |old(execution.steps)|)
      ensures CompletedFrom(execution.steps, |old(execution.steps)|)
      ensures Rounds(execution.steps) == old(Rounds(execution.steps))
      ensures Undisturbed(world.script, old(world.at), 3 * |calls|) ==> signal == Raised(tasks)
      ensures signal.Go? ==>
        execution.state == Observing && recorded == old(recorded) + Recorded(calls, tasks) && AllSuccessful(tasks)
    {
      var failure := FirstFailure(tasks);
      Enter(Observing);
      signal := RecordResults(calls, tasks);
      if signal.Go? {
        if failure.Some? {
          signal := match failure.value
            case Failure(error, errorType, _) => Raise(error, errorType)
            case _ => CancelRequested;
          ghost var k :| 0 <= k < |tasks| && tasks[k].result == failure.value && forall i :: 0 <= i < k ==> tasks[i].result.Success?;
          RaisedFirst(tasks, k);
        } else {
          RaisedFirst(tasks, |tasks|);
        }
      }
    }

    /** Runs the prepared batch, records its results in model order and raises its first failure. */
    method FinishBatch(calls: seq<ToolCall>, toolSteps: map<string, nat>) returns (signal: Signal, ghost more: seq<Entry>)
      requires Sound() && execution.state == ToolExecution
      requires AwaitsStart(execution.steps, calls) && Located(toolSteps, calls, |execution.steps| - |calls|)
      modifies world, execution, this`events, this`recorded
      ensures Sound() && old(events) <= events && recorded == old(recorded) + more
      ensures Keeps(old(execution.steps), execution.steps, |old(execution.steps)| - |calls|)
      ensures Rounds(execution.steps) == old(Rounds(execution.steps))
      ensures signal.Go? ==>
        && execution.state == Observing && Matches(more, calls)
        && CompletedFrom(execution.steps, |old(execution.steps)| - |calls|)
    {
      more := [];
      var tasks;
      ghost var sent;
      signal, tasks, sent := RunPool(calls, toolSteps);
      if !signal.Go? {
        return;
      }
      ghost var before := execution.steps;
      signal := ObserveResults(calls, tasks);
      more := recorded[|old(recorded)|..];
      if signal.Go? {
        more := Recorded(calls, tasks);
        AllRecorded(calls, tasks);
        BatchCompleted(before, execution.steps, |before| - |calls|);
      }
    }

    method ExecuteToolCalls(calls: seq<ToolCall>) returns (signal: Signal)
      requires Settled() && execution.state == Inference
      modifies world, execution, this`counters, this`admitted, this`booked, this`events, this`recorded
      ensures Sound() && old(recorded) <= recorded
      ensures Rounds(execution.steps) == old(Rounds(execution.steps))
      ensures Keeps(old(execution.steps), execution.steps, |old(execution.steps)|)
      ensures signal.Go? ==> Settled() && execution.state == Observing && admitted == old(admitted) + calls
    {
      if calls == [] {
        return Raise("Tool decision contains no tool calls", "AgentProtocolError");
      }
      signal := world.Poll();
      if !signal.Go? {
        return;
      }
      ghost var before, more := execution.steps, [];
      var toolSteps;
      signal, toolSteps := PrepareBatch(calls);
      if !signal.Go? {
        return;
      }
      signal, more := FinishBatch(calls, toolSteps);
      if signal.Go? {
        NothingOpen(before, execution.steps);
        RecordsJoin(old(recorded), more, old(admitted), calls);
      }
    }

    // -------------------------------------------------------------------------
    // The reasoning loop
    // -------------------------------------------------------------------------

    /** How an inference ends: its step is failed, not left open, when the inference does not return,
        except that it cannot be failed without a text. */
    method CloseInference(round: nat, ending: Signal) returns (signal: Signal)
      requires |execution.steps| > 0 && execution.steps[|execution.steps| - 1].status == StepRunning && Streaming()
      modifies execution`steps, this`events
      ensures signal == InferenceRaises(ending)
      ensures Streaming() && events == old(events) + if ending.Go? then [InferenceCompleted(round)] else []
      ensures var i := |old(execution.steps)| - 1;
        && |execution.steps| == i + 1 && Keeps(old(execution.steps), execution.steps, i)
        && SameCall(execution.steps[i], old(execution.steps)[i])
        && execution.steps[i].status == InferenceLeaves(ending)
    {
      match ending {
        case Go =>
          CompleteStep();
          Publish(InferenceCompleted(round));
          signal := Go;
        case Raise(error, _) =>
          var ok := FailStep(error);
          signal := if ok then ending else UnnamedFailure;
        case _ =>
          var ok := FailStep("Agent execution was cancelled during inference");
          signal := CancelRequested;
      }
    }

    /** Announces the inference unless the deadline has passed by then, and waits for it. */
    method AwaitInference(round: nat) returns (ending: Signal)
      requires Streaming()
      modifies world, this`events
      ensures ending == InferenceEnding(world.script, old(world.at))
      ensures Streaming()
      ensures events == old(events) + if world.script(old(world.at)).signal.Go? then [InferenceStarted(round)] else []
    {
      ending := world.Poll();
      if ending.Go? {
        Publish(InferenceStarted(round));
        ending := world.Poll();
      }
    }

    /** One inference, with a step of its own. */
    method Infer(round: nat) returns (signal: Signal)
      requires Settled() && execution.state == Inference
      modifies world, execution`steps, this`events
      ensures Standing() && Excused(execution.steps, signal)
      ensures signal.Go? ==> Settled()
      ensures Rounds(execution.steps) == old(Rounds(execution.steps)) + 1
      ensures signal == InferenceRaises(InferenceEnding(world.script, old(world.at)))
      ensures events == old(events) + InferenceEvents(world.script, old(world.at), round)
      ensures var n := |old(execution.steps)|;
        && |execution.steps| == n + 1 && Keeps(old(execution.steps), execution.steps, n)
        && execution.steps[n].kind == InferenceStep
        && execution.steps[n].status == InferenceLeaves(InferenceEnding(world.script, old(world.at)))
    {
      ghost var before := execution.steps;
      StartStep(InferenceStep, "");
      var ending := AwaitInference(round);
      signal := CloseInference(round, ending);
      InferenceClosed(before, execution.steps, ending);
    }

    /** What one round does after its inference. `done` tells a final answer, whose text is `output`,
        from another round. */
    method ActOn(decision: Decision) returns (signal: Signal, done: bool, output: string)
      requires Settled() && execution.state == Inference
      modifies world, execution, this`counters, this`admitted, this`booked, this`events, this`recorded
      ensures Sound() && old(recorded) <= recorded
      ensures Rounds(execution.steps) == old(Rounds(execution.steps))
      ensures Keeps(old(execution.steps), execution.steps, |old(execution.steps)|)
      ensures signal.Go? ==> Settled()
      ensures signal.Go? && done ==>
        && execution.state == Inference && decision == Final(output)
        && |execution.steps| == |old(execution.steps)| + 1 && EndsFinally(execution.steps)
      ensures signal.Go? && !done ==> execution.state == Inference || execution.state == Observing
    {
      done, output := false, "";
      match decision {
        case Final(content) =>
          signal := world.Poll();
          if signal.Go? {
            RecordStep(FinalStep, "");
            done, output := true, content;
          }
        case Continue =>
          signal := world.Poll();
        case GiveUp(error) =>
          signal := Raise(if error == "" then "Agent returned a failure decision" else error, "RuntimeError");
        case CallTools(calls) =>
          signal := world.Poll();
          if signal.Go? {
            signal := ExecuteToolCalls(calls);
            if signal.Go? {
              signal := world.Poll();
            }
          }
        case Unsupported =>
          signal := Raise("Unsupported agent decision type", "AgentProtocolError");
      }
    }

    /** One pass of the reasoning loop. */
    method Round(round: nat) returns (signal: Signal, done: bool, output: string)
      requires Settled() && execution.state in {Planning, Inference, Observing}
      modifies world, execution, this`counters, this`admitted, this`booked, this`events, this`recorded
      ensures Standing() && Excused(execution.steps, signal)
      ensures Rounds(execution.steps) <= old(Rounds(execution.steps)) + 1
      ensures Keeps(old(execution.steps), execution.steps, |old(execution.steps)|)
      ensures signal.Go? ==> Settled() && execution.state in {Inference, Observing}
      ensures signal.Go? && done ==> execution.state == Inference && EndsFinally(execution.steps) && Answered(output)
    {
      done, output := false, "";
      signal := world.Poll();
      if !signal.Go? {
        return;
      }
      if execution.state != Inference {
        Enter(Inference);
      }
      signal := Infer(round);
      if !signal.Go? {
        return;
      }
      var h := world.Next();
      signal := h.signal;
      if !signal.Go? {
        return;
      }
      signal, done, output := ActOn(h.decision);
    }

    /** Some decision of the world was this final answer. */
    ghost predicate Answered(output: string) {
      exists k: nat :: world.script(k).decision == Final(output)
    }

    /** The checks around routing, and the routing itself; nothing but an exception comes of them. */
    method Route() returns (signal: Signal)
      modifies world
    {
      signal := world.Poll();
      if !signal.Go? {
        return;
      }
      signal := world.Poll();
      if signal.TaskCancelled? {
        return CancelRequested;
      }
      if !signal.Go? {
        return;
      }
      signal := world.Poll();
    }

    /** The plan step, and the routing. */
    method Plan() returns (signal: Signal)
      requires Settled()
      modifies world, execution`steps
      ensures Settled() && Rounds(execution.steps) == old(Rounds(execution.steps))
      ensures signal.Go? ==>
        execution.steps == old(execution.steps) + [Step(|old(execution.steps)| + 1, PlanStep, "", StepCompleted, None, None)]
    {
      signal := world.Poll();
      if !signal.Go? {
        return;
      }
      RecordStep(PlanStep, "");
      signal := Route();
    }

    /** `_execute`. `Go` means a final answer. */
    method Execute() returns (signal: Signal, output: string)
      requires Settled() && execution.state == Planning && Rounds(execution.steps) == 0 && execution.steps == []
      modifies world, execution, this`counters, this`admitted, this`booked, this`events, this`recorded
      ensures Standing() && Excused(execution.steps, signal)
      ensures Rounds(execution.steps) <= limits.maxSteps
      ensures signal.Go? ==> Settled() && execution.state == Inference && FullTrace(execution.steps) && Answered(output)
    {
      output := "";
      signal := Plan();
      if !signal.Go? {
        return;
      }
      for round := 1 to limits.maxSteps + 1
        invariant Settled() && Rounds(execution.steps) < round
        invariant execution.state in {Planning, Inference, Observing}
        invariant StartsWithPlan(execution.steps)
      {
        var done;
        signal, done, output := Round(round);
        if !signal.Go? || done {
          return;
        }
      }
      signal := Raise("Agent exceeded maximum steps", "AgentMaxStepsError");
    }

    /** The end of every run: one terminal state and one terminal event, unless the run failed without
        a text; then the stream closes. */
    method Conclude(signal: Signal)
      requires Standing() && (signal.Go? ==> execution.state == Inference)
      modifies execution, this`events, this`closed
      ensures execution.refused == 0 && execution.steps == old(execution.steps) && closed
      ensures Textless(signal) ==> execution.View() == old(execution.View()) && events == old(events)
      ensures !Textless(signal) ==>
        && execution.state == FinalState(signal)
        && (signal.Raise? ==> execution.error == Some(signal.error) && execution.errorType == Some(signal.errorType))
        && events == old(events) + [TerminalEvent(signal, |execution.steps|)]
    {
      var ok := true;
      match signal {
        case Go =>
          Enter(Completed);
        case Raise(error, errorType) =>
          ok := execution.MarkFailed(error, errorType, world.script(world.at).now);
        case _ =>
          Enter(Cancelled);
      }
      if ok {
        Publish(TerminalEvent(signal, |execution.steps|));
      }
      closed := true;
    }

    /** Nothing has happened yet. */
    ghost predicate Untouched()
      reads this, execution
    {
      && execution.state == Created && execution.steps == [] && execution.refused == 0
      && events == [] && !closed && counters == NoCalls && recorded == [] && booked == {} && admitted == []
    }

    /** The run up to its last check for cancellation. */
    method Begin() returns (signal: Signal, output: string)
      requires limits.Valid() && Untouched()
      modifies world, execution, this`counters, this`admitted, this`booked, this`events, this`recorded
      ensures Standing() && Excused(execution.steps, signal) && Rounds(execution.steps) <= limits.maxSteps
      ensures signal.Go? ==> Settled() && execution.state == Inference && FullTrace(execution.steps) && Answered(output)
    {
      output := "";
      Publish(ExecutionStarted);
      signal := world.Poll();
      if signal.Go? {
        Enter(Planning);
        signal, output := Execute();
        if signal.Go? {
          signal := world.Poll();
        }
      }
    }

    /** `_run_execution`. Whatever the world does, the run asks for no illegal transition, makes at
        most `maxSteps` inferences, numbers its steps in order and stays within every budget, and its
        stream is closed in the end. It ends in exactly one terminal state, with one terminal event,
        published last, if and only if what ended it carries a text; an exception without one leaves it
        neither completed nor failed. No step is left running, except an inference that raised without
        a text, which the run then fails for. If the run completes, it answers with a final decision,
        every step from the plan to the final one is completed, and the context holds the result of
        every admitted call in order. */
    method RunExecution() returns (signal: Signal, output: string)
      requires limits.Valid() && Untouched()
      modifies world, execution, this
      ensures execution.refused == 0 && closed && |events| > 0 && events[0] == ExecutionStarted
      ensures execution.state.Terminal() <==> !Textless(signal)
      ensures Textless(signal) ==> NoneTerminal(events)
      ensures !Textless(signal) ==>
        && execution.state == FinalState(signal)
        && (signal.Raise? ==> execution.error == Some(signal.error) && execution.errorType == Some(signal.errorType))
        && |events| >= 2 && NoneTerminal(events[..|events| - 1])
        && events[|events| - 1] == TerminalEvent(signal, |execution.steps|)
      ensures Numbered(execution.steps) && Excused(execution.steps, signal)
      ensures Rounds(execution.steps) <= limits.maxSteps && Budgeted()
      ensures execution.state == Completed ==>
        && FullTrace(execution.steps) && AllCompleted(execution.steps)
        && Matches(recorded, admitted) && Answered(output)
    {
      signal, output := Begin();
      ghost var before := events;
      Conclude(signal);
      if !Textless(signal) {
        assert events[..|events| - 1] == before;
      }
    }
  }
}
