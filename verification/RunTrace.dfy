/**
 What a run leaves behind: its steps, its events, its records, and the facts about them that the run
 loop keeps. Everything here is about values.
 */
module RunTrace {
  import opened Prelude
  import opened Lifecycle
  import opened ToolBudget
  import opened ToolPool

  /** `CancelRequested` is the run's own cancellation exception, `TaskCancelled` the event loop's;
      `Raise` is every other exception, deadlines included. */
  datatype Signal = Go | CancelRequested | TaskCancelled | Raise(error: string, errorType: string)

  datatype Decision =
    | Final(content: string)
    | Continue
    | GiveUp(error: string)
    | CallTools(calls: seq<ToolCall>)
    | Unsupported

  /** What the world does at one point of the run; each point looks at some of the fields. */
  datatype Happening = Happening(
    now: int,
    signal: Signal,
    decision: Decision,
    needsApproval: bool,
    waiter: nat,
    approved: bool,
    schedule: seq<nat>,
    outcomes: nat -> Outcome)

  /** Nothing interrupts the run at the next `n` points. */
  ghost predicate Undisturbed(script: nat -> Happening, at: nat, n: nat) {
    forall k: nat :: at <= k < at + n ==> script(k).signal.Go?
  }

  // ---------------------------------------------------------------------------
  // Signals
  // ---------------------------------------------------------------------------

  /** What admission raises for a refusal. */
  function Verdict(refusal: Option<Refusal>): (signal: Signal)
    ensures signal.Go? <==> refusal.None?
  {
    match refusal
    case None => Go
    case Some(MissingName) => Raise("Tool call is missing tool name", "AgentProtocolError")
    case Some(MissingCallId) => Raise("Tool call is missing call_id", "AgentProtocolError")
    case Some(UnknownTool(name)) => Raise("Unknown tool requested by model: " + name, "AgentProtocolError")
    case Some(TooManyCalls) => Raise("Agent exceeded maximum tool calls", "ExecutionLimitExceeded")
    case Some(TooManyOfTool(name)) => Raise("Agent exceeded maximum calls for tool " + name, "ExecutionLimitExceeded")
    case Some(TooManyRepetitions) => Raise("Agent exceeded maximum repeated tool calls", "ExecutionLimitExceeded")
  }

  /** What a batch whose tasks are over raises: its first failure in model order. */
  function Raised(tasks: seq<Task>): Signal
    requires forall i :: 0 <= i < |tasks| ==> tasks[i].Done?
    decreases |tasks|
  {
    if tasks == [] then Go
    else match tasks[0].result
      case Success(_) => Raised(tasks[1..])
      case Failure(error, errorType, _) => Raise(error, errorType)
      case Abandoned(_) => CancelRequested
  }

  lemma {:induction false} RaisedFirst(tasks: seq<Task>, k: nat)
    requires k <= |tasks| && forall i :: 0 <= i < |tasks| ==> tasks[i].Done?
    requires forall i :: 0 <= i < k ==> tasks[i].result.Success?
    ensures Raised(tasks) == Raised(tasks[k..])
    decreases k
  {
    if k > 0 {
      RaisedFirst(tasks[1..], k - 1);
      assert tasks[1..][k - 1..] == tasks[k..];
    } else {
      assert tasks[0..] == tasks;
    }
  }

  /** The error of a step that is to be failed without a text. */
  const UnnamedFailure := Raise("Step failure error cannot be empty", "ValueError")

  /** An exception without a text, which the execution refuses to record as its failure. */
  predicate Textless(signal: Signal) {
    signal.Raise? && signal.error == ""
  }

  /** How an inference ends: a deadline can pass before it is announced. */
  function InferenceEnding(script: nat -> Happening, at: nat): Signal {
    if script(at).signal.Go? then script(at + 1).signal else script(at).signal
  }

  /** What an inference raises for its ending, and how it leaves its step. */
  function InferenceRaises(ending: Signal): Signal {
    if Textless(ending) then UnnamedFailure else if ending.TaskCancelled? then CancelRequested else ending
  }

  function InferenceLeaves(ending: Signal): StepStatus {
    if ending.Go? then StepCompleted else if Textless(ending) then StepRunning else StepFailed
  }

  function InferenceEvents(script: nat -> Happening, at: nat, round: nat): seq<Event> {
    (if script(at).signal.Go? then [InferenceStarted(round)] else [])
    + (if InferenceEnding(script, at).Go? then [InferenceCompleted(round)] else [])
  }

  // ---------------------------------------------------------------------------
  // Events
  // ---------------------------------------------------------------------------

  datatype Event =
    | ExecutionStarted
    | InferenceStarted(step: nat)
    | InferenceCompleted(step: nat)
    | ToolCallStarted(callId: string)
    | ToolCallCompleted(callId: string, success: bool)
    | ExecutionCompleted(steps: nat)
    | ExecutionCancelled(reason: string)
    | ExecutionFailed(error: string, errorType: string)
  {
    predicate Terminal() {
      ExecutionCompleted? || ExecutionCancelled? || ExecutionFailed?
    }
  }

  predicate NoneTerminal(events: seq<Event>) {
    forall i :: 0 <= i < |events| ==> !events[i].Terminal()
  }

  function TerminalEvent(signal: Signal, steps: nat): Event {
    match signal
    case Go => ExecutionCompleted(steps)
    case CancelRequested => ExecutionCancelled("execution_cancelled")
    case TaskCancelled => ExecutionCancelled("task_cancelled")
    case Raise(error, errorType) => ExecutionFailed(error, errorType)
  }

  function FinalState(signal: Signal): State {
    match signal
    case Go => Completed
    case Raise(_, _) => Failed
    case _ => Cancelled
  }

  predicate DistinctIds(calls: seq<ToolCall>) {
    forall i, j :: 0 <= i < j < |calls| ==> calls[i].callId != calls[j].callId
  }

  /** A call is announced unless it was cancelled or its deadline passed before that. */
  predicate SaysStarted(outcome: Outcome) {
    match outcome
    case Success(_) => true
    case Failure(_, _, heard) => heard != Nothing
    case Abandoned(announced) => announced
  }

  /** Its end is announced unless it was cancelled or its deadline passed after the tool returned. */
  predicate SaysCompleted(outcome: Outcome) {
    outcome.Success? || (outcome.Failure? && outcome.heard == StartAndEnd)
  }

  /** The events about one call so far. */
  predicate Announced(sent: multiset<Event>, callId: string, outcome: Outcome, t: Task) {
    && sent[ToolCallStarted(callId)] == (if !t.Queued? && SaysStarted(outcome) then 1 else 0)
    && sent[ToolCallCompleted(callId, true)] == (if t.Done? && SaysCompleted(outcome) && outcome.Success? then 1 else 0)
    && sent[ToolCallCompleted(callId, false)] == (if t.Done? && SaysCompleted(outcome) && !outcome.Success? then 1 else 0)
  }

  predicate AllAnnounced(sent: multiset<Event>, calls: seq<ToolCall>, outcomes: seq<Outcome>, tasks: seq<Task>) {
    |calls| == |tasks| == |outcomes| && forall i :: 0 <= i < |calls| ==> Announced(sent, calls[i].callId, outcomes[i], tasks[i])
  }

  /** What a turn of a task publishes; `starts` tells whether its step can start. */
  function TurnEvents(callId: string, outcome: Outcome, t: Task, starts: bool): seq<Event> {
    if t.Queued? then (if starts && SaysStarted(outcome) then [ToolCallStarted(callId)] else [])
    else if SaysCompleted(outcome) then [ToolCallCompleted(callId, outcome.Success?)]
    else []
  }

  /** Every turn keeps the account of a batch with distinct ids. */
  lemma TurnAnnounced(sent: multiset<Event>, calls: seq<ToolCall>, outcomes: seq<Outcome>, p: Pool, i: nat, limit: nat, steps: seq<Step>)
    requires DistinctIds(calls) && Inv(limit, steps, outcomes, p) && Ready(p, i)
    requires AllAnnounced(sent, calls, outcomes, p.tasks)
    ensures AllAnnounced(sent + multiset(TurnEvents(calls[i].callId, outcomes[i], p.tasks[i], true)), calls, outcomes,
                         Turn(outcomes, p, i).tasks)
  {
    var more := multiset(TurnEvents(calls[i].callId, outcomes[i], p.tasks[i], true));
    var t := Turn(outcomes, p, i);
    assert TaskInv(steps, outcomes, p, i);
    forall j | 0 <= j < |calls| ensures Announced(sent + more, calls[j].callId, outcomes[j], t.tasks[j]) {
      assert Announced(sent, calls[j].callId, outcomes[j], p.tasks[j]);
      if j != i {
        assert calls[j].callId != calls[i].callId;
        assert t.tasks[j] == p.tasks[j];
      }
    }
  }

  // ---------------------------------------------------------------------------
  // Steps
  // ---------------------------------------------------------------------------

  predicate NoneRunning(steps: seq<Step>) {
    forall i :: 0 <= i < |steps| ==> steps[i].status != StepRunning
  }

  /** Steps are numbered 1, 2, ... and none of them is left running. */
  predicate InOrder(steps: seq<Step>) {
    Numbered(steps) && NoneRunning(steps)
  }

  /** No step is left running, except an inference that could not be failed for want of a text. */
  predicate Excused(steps: seq<Step>, signal: Signal) {
    forall i :: 0 <= i < |steps| && steps[i].status == StepRunning ==>
      signal == UnnamedFailure && i == |steps| - 1 && steps[i].kind == InferenceStep
  }

  predicate AllCompleted(steps: seq<Step>) {
    forall i :: 0 <= i < |steps| ==> steps[i].status == StepCompleted
  }

  predicate StartsWithPlan(steps: seq<Step>) {
    |steps| > 0 && steps[0].kind == PlanStep
  }

  predicate EndsFinally(steps: seq<Step>) {
    |steps| > 0 && steps[|steps| - 1].kind == FinalStep
  }

  predicate FullTrace(steps: seq<Step>) {
    StartsWithPlan(steps) && EndsFinally(steps)
  }

  /** The first n steps are the same. */
  predicate Keeps(before: seq<Step>, after: seq<Step>, n: nat) {
    n <= |before| && n <= |after| && forall i :: 0 <= i < n ==> after[i] == before[i]
  }

  function Rounds(steps: seq<Step>): nat {
    CountKind(steps, InferenceStep)
  }

  lemma SameKinds(before: seq<Step>, after: seq<Step>)
    requires |before| == |after| && forall i :: 0 <= i < |before| ==> after[i].kind == before[i].kind
    ensures Rounds(after) == Rounds(before)
  {
    CountSplits(before, after, [], InferenceStep);
  }

  /** One step more. */
  lemma StepAppended(before: seq<Step>, after: seq<Step>)
    requires InOrder(before) && |after| == |before| + 1 && Keeps(before, after, |before|)
    requires after[|before|].number == |before| + 1
    ensures Numbered(after) && (after[|before|].status != StepRunning ==> InOrder(after))
    ensures Rounds(after) == Rounds(before) + if after[|before|].kind == InferenceStep then 1 else 0
    ensures AllCompleted(before) && after[|before|].status == StepCompleted ==> AllCompleted(after)
  {
    assert after[..|before|] == before;
  }

  /** One inference more, however it ended. */
  lemma InferenceClosed(before: seq<Step>, after: seq<Step>, ending: Signal)
    requires InOrder(before) && AllCompleted(before) && |after| == |before| + 1 && Keeps(before, after, |before|)
    requires after[|before|].number == |before| + 1 && after[|before|].kind == InferenceStep
    requires after[|before|].status == InferenceLeaves(ending)
    ensures Numbered(after) && Excused(after, InferenceRaises(ending)) && Rounds(after) == Rounds(before) + 1
    ensures ending.Go? ==> NoneRunning(after) && AllCompleted(after)
  {
    StepAppended(before, after);
  }

  /** The last steps are those of the batch: one tool step a call, in order. */
  predicate EndsWithCalls(steps: seq<Step>, calls: seq<ToolCall>) {
    && |calls| <= |steps|
    && forall j :: |steps| - |calls| <= j < |steps| ==>
         steps[j].kind == ToolCallStep && steps[j].callId == calls[j - (|steps| - |calls|)].callId
  }

  /** The steps of the batch are all still to be started. */
  predicate AwaitsStart(steps: seq<Step>, calls: seq<ToolCall>) {
    EndsWithCalls(steps, calls) && Fresh(steps[|steps| - |calls|..])
  }

  lemma StillToStart(steps: seq<Step>, calls: seq<ToolCall>, base: nat)
    requires AwaitsStart(steps, calls) && base + |calls| == |steps|
    ensures forall j :: base <= j < |steps| ==> steps[j].status == StepCreated || steps[j].status == StepWaiting
  {
    forall j | base <= j < |steps| ensures steps[j].status == StepCreated || steps[j].status == StepWaiting {
      assert steps[j] == steps[base..][j - base];
    }
  }

  function ToolSteps(base: nat, calls: seq<ToolCall>): seq<Step> {
    seq(|calls|, i requires 0 <= i < |calls| => NewStep(base + i + 1, ToolCallStep, calls[i].callId))
  }

  lemma ToolStepsNext(before: seq<Step>, calls: seq<ToolCall>, k: nat)
    requires k < |calls|
    ensures before + ToolSteps(|before|, calls[..k]) + [NewStep(|before| + k + 1, ToolCallStep, calls[k].callId)] ==
            before + ToolSteps(|before|, calls[..k + 1])
  {
  }

  predicate AllCreated(steps: seq<Step>, from: nat) {
    from <= |steps| && forall j :: from <= j < |steps| ==> steps[j].status == StepCreated
  }

  lemma ToolStepsAdded(before: seq<Step>, calls: seq<ToolCall>)
    requires InOrder(before)
    ensures var after := before + ToolSteps(|before|, calls);
      && InOrder(after) && Rounds(after) == Rounds(before) && AwaitsStart(after, calls)
      && Keeps(before, after, |before|) && AllCreated(after, |before|)
  {
    var more := ToolSteps(|before|, calls);
    var after := before + more;
    forall j | |before| <= j < |after| ensures after[j] == NewStep(j + 1, ToolCallStep, calls[j - |before|].callId) {
      assert after[j] == more[j - |before|];
    }
    forall i | 0 <= i < |more| ensures after[|before| + i].kind == more[i].kind {
    }
    CountSplits(before, after, more, InferenceStep);
    NoInference(more);
  }

  lemma {:induction false} NoInference(steps: seq<Step>)
    requires forall i :: 0 <= i < |steps| ==> steps[i].kind != InferenceStep
    ensures Rounds(steps) == 0
    decreases |steps|
  {
    if steps != [] {
      NoInference(steps[..|steps| - 1]);
    }
  }

  // Finding the step of a call ------------------------------------------------

  /** The table leads from a call's id to the step of the last call with that id. */
  predicate Located(toolSteps: map<string, nat>, calls: seq<ToolCall>, base: nat) {
    forall i :: 0 <= i < |calls| ==> LocatedAt(toolSteps, calls, base, i)
  }

  predicate LocatedAt(toolSteps: map<string, nat>, calls: seq<ToolCall>, base: nat, i: nat)
    requires i < |calls|
  {
    var id := calls[i].callId;
    && id in toolSteps && base + i <= toolSteps[id] < base + |calls|
    && calls[toolSteps[id] - base].callId == id
    && forall m :: toolSteps[id] - base < m < |calls| ==> calls[m].callId != id
  }

  lemma LocatedNext(toolSteps: map<string, nat>, calls: seq<ToolCall>, base: nat, k: nat)
    requires k < |calls| && Located(toolSteps, calls[..k], base)
    ensures Located(toolSteps[calls[k].callId := base + k], calls[..k + 1], base)
  {
    var more, longer := toolSteps[calls[k].callId := base + k], calls[..k + 1];
    forall i | 0 <= i < |longer| ensures LocatedAt(more, longer, base, i) {
      if i < k {
        assert LocatedAt(toolSteps, calls[..k], base, i);
      }
    }
  }

  function Slots(toolSteps: map<string, nat>, calls: seq<ToolCall>, base: nat): (slots: seq<nat>)
    requires Located(toolSteps, calls, base)
    ensures |slots| == |calls| && forall i :: 0 <= i < |calls| ==> slots[i] == SlotOf(toolSteps, calls, base, i)
  {
    seq(|calls|, i requires 0 <= i < |calls| && Located(toolSteps, calls, base) => SlotOf(toolSteps, calls, base, i))
  }

  function SlotOf(toolSteps: map<string, nat>, calls: seq<ToolCall>, base: nat, i: nat): (k: nat)
    requires i < |calls| && Located(toolSteps, calls, base)
    ensures i <= k < |calls| && calls[k].callId == calls[i].callId
  {
    assert LocatedAt(toolSteps, calls, base, i);
    toolSteps[calls[i].callId] - base
  }

  lemma SlotsFit(toolSteps: map<string, nat>, calls: seq<ToolCall>, base: nat)
    requires Located(toolSteps, calls, base)
    ensures LastOfKind(Slots(toolSteps, calls, base))
    ensures DistinctIds(calls) ==> OwnSteps(Slots(toolSteps, calls, base))
  {
    var slots := Slots(toolSteps, calls, base);
    forall i | 0 <= i < |slots| ensures slots[i] < |slots| && slots[slots[i]] == slots[i] && (DistinctIds(calls) ==> slots[i] == i) {
      assert calls[slots[i]].callId == calls[i].callId;
    }
  }

  // The batch in the pool, and back -------------------------------------------

  predicate StepEnded(step: Step, t: Task) {
    t.Done? && step.status.Terminal() && (t.result.Success? <==> step.status == StepCompleted)
  }

  predicate AllEnded(steps: seq<Step>, tasks: seq<Task>) {
    |steps| == |tasks| && forall i :: 0 <= i < |steps| ==> StepEnded(steps[i], tasks[i])
  }

  predicate AllOver(tasks: seq<Task>) {
    forall i :: 0 <= i < |tasks| ==> tasks[i].Done?
  }

  predicate AllSuccessful(tasks: seq<Task>) {
    forall i :: 0 <= i < |tasks| ==> tasks[i].Done? && tasks[i].result.Success?
  }

  lemma PoolEnded(limit: nat, steps: seq<Step>, outcomes: seq<Outcome>, p: Pool)
    requires Inv(limit, steps, outcomes, p) && AllDone(p)
    ensures AllEnded(p.steps, p.tasks)
  {
    forall i | 0 <= i < |steps| ensures StepEnded(p.steps[i], p.tasks[i]) {
      assert TaskInv(steps, outcomes, p, i);
      CallEnds(steps[i], outcomes[i]);
    }
  }

  /** In a batch with distinct ids that is over, the outcomes are the results. */
  lemma ResultsAnnounced(limit: nat, steps: seq<Step>, outcomes: seq<Outcome>, p: Pool, sent: multiset<Event>, calls: seq<ToolCall>)
    requires Inv(limit, steps, outcomes, p) && AllDone(p) && AllAnnounced(sent, calls, outcomes, p.tasks)
    ensures Reported(sent, calls, p.tasks)
  {
    forall i | 0 <= i < |calls| ensures Announced(sent, calls[i].callId, p.tasks[i].result, p.tasks[i]) {
      assert TaskInv(steps, outcomes, p, i);
    }
  }

  /** Every call is announced as its result tells. */
  predicate Reported(sent: multiset<Event>, calls: seq<ToolCall>, tasks: seq<Task>) {
    && |calls| == |tasks| && AllOver(tasks)
    && forall i :: 0 <= i < |calls| ==> Announced(sent, calls[i].callId, tasks[i].result, tasks[i])
  }

  /** What a turn of task `i` publishes, if it can be taken. */
  function TurnSays(calls: seq<ToolCall>, outcomes: seq<Outcome>, p: Pool, i: nat): seq<Event>
    requires Shaped(outcomes, p) && |calls| == |outcomes|
  {
    if Ready(p, i) then TurnEvents(calls[i].callId, outcomes[i], p.tasks[i], MarkStarted(p.steps[p.slots[i]]).1) else []
  }

  /** What holds while a batch runs; a batch with distinct ids accounts for every event as well. */
  ghost predicate Account(limit: nat, steps: seq<Step>, outcomes: seq<Outcome>, p: Pool, calls: seq<ToolCall>, sent: seq<Event>) {
    && SharedInv(steps, outcomes, p) && |calls| == |outcomes|
    && (OwnSteps(p.slots) && DistinctIds(calls) ==>
          Inv(limit, steps, outcomes, p) && AllAnnounced(multiset(sent), calls, outcomes, p.tasks))
  }

  lemma AccountStarts(limit: nat, steps: seq<Step>, outcomes: seq<Outcome>, slots: seq<nat>, calls: seq<ToolCall>)
    requires Fresh(steps) && Shaped(outcomes, Start(limit, steps, slots)) && |calls| == |outcomes|
    ensures Account(limit, steps, outcomes, Start(limit, steps, slots), calls, [])
  {
    StartShared(limit, steps, outcomes, slots);
    if OwnSteps(slots) {
      StartInv(limit, steps, outcomes);
      assert slots == Own(|steps|);
    }
  }

  lemma TurnKeepsAccount(limit: nat, steps: seq<Step>, outcomes: seq<Outcome>, p: Pool, i: nat, calls: seq<ToolCall>, sent: seq<Event>)
    requires Account(limit, steps, outcomes, p, calls, sent)
    ensures Account(limit, steps, outcomes, Turn(outcomes, p, i), calls, sent + TurnSays(calls, outcomes, p, i))
  {
    TurnKeepsShared(steps, outcomes, p, i);
    if OwnSteps(p.slots) && DistinctIds(calls) {
      TurnKeepsInv(limit, steps, outcomes, p, i);
      if Ready(p, i) {
        assert TaskInv(steps, outcomes, p, i);
        TurnAnnounced(multiset(sent), calls, outcomes, p, i, limit, steps);
        TurnsJoin(calls, outcomes, p, i, sent);
      } else {
        assert sent + [] == sent;
      }
    }
  }

  lemma TurnsJoin(calls: seq<ToolCall>, outcomes: seq<Outcome>, p: Pool, i: nat, sent: seq<Event>)
    requires Shaped(outcomes, p) && |calls| == |outcomes| && Ready(p, i)
    requires p.tasks[i].Queued? ==> MarkStarted(p.steps[p.slots[i]]).1
    ensures multiset(sent + TurnSays(calls, outcomes, p, i)) ==
            multiset(sent) + multiset(TurnEvents(calls[i].callId, outcomes[i], p.tasks[i], true))
  {
  }

  /** A batch that is over: if every call succeeded, every step is completed; with distinct ids, the
      steps and the events tell the results. */
  lemma BatchOver(limit: nat, steps: seq<Step>, outcomes: seq<Outcome>, p: Pool, calls: seq<ToolCall>, sent: seq<Event>)
    requires Account(limit, steps, outcomes, p, calls, sent) && LastOfKind(p.slots) && AllDone(p)
    ensures SameCalls(p.steps, steps) && NoneRunning(p.steps) && AllOver(p.tasks)
    ensures AllSuccessful(p.tasks) ==> AllCompleted(p.steps)
    ensures OwnSteps(p.slots) && DistinctIds(calls) ==> AllEnded(p.steps, p.tasks) && Reported(multiset(sent), calls, p.tasks)
  {
    NothingRuns(steps, outcomes, p);
    forall k | 0 <= k < |steps| ensures SameCall(p.steps[k], steps[k]) {
      assert StepShared(steps, p, k);
    }
    if AllSuccessful(p.tasks) {
      assert forall i :: 0 <= i < |p.tasks| ==> Succeeded(p, i);
      AllSucceeded(steps, outcomes, p);
    }
    if OwnSteps(p.slots) && DistinctIds(calls) {
      PoolEnded(limit, steps, outcomes, p);
      ResultsAnnounced(limit, steps, outcomes, p, multiset(sent), calls);
    }
  }

  predicate SameCalls(after: seq<Step>, before: seq<Step>) {
    |after| == |before| && forall i :: 0 <= i < |after| ==> SameCall(after[i], before[i])
  }

  /** Writing the steps of the batch back keeps every number and every kind. */
  lemma WrittenBack(trace: seq<Step>, base: nat, batch: seq<Step>)
    requires base + |batch| == |trace| && InOrder(trace)
    requires SameCalls(batch, trace[base..]) && NoneRunning(batch)
    ensures var after := trace[..base] + batch;
      InOrder(after) && Rounds(after) == Rounds(trace) && Keeps(trace, after, base) && after[base..] == batch
  {
    var after := trace[..base] + batch;
    forall j | 0 <= j < |after| ensures SameCall(after[j], trace[j]) && after[j].status != StepRunning {
      if j >= base {
        assert after[j] == batch[j - base] && trace[base..][j - base] == trace[j];
      }
    }
    SameKinds(trace, after);
  }

  predicate CompletedFrom(steps: seq<Step>, from: nat) {
    from <= |steps| && forall j :: from <= j < |steps| ==> steps[j].status == StepCompleted
  }

  lemma NothingOpen(before: seq<Step>, after: seq<Step>)
    requires AllCompleted(before) && Keeps(before, after, |before|) && CompletedFrom(after, |before|)
    ensures AllCompleted(after)
  {
  }

  /** A completed batch, and completed steps after it. */
  lemma BatchCompleted(before: seq<Step>, after: seq<Step>, base: nat)
    requires base <= |before| && AllCompleted(before[base..])
    requires Keeps(before, after, |before|) && CompletedFrom(after, |before|)
    ensures CompletedFrom(after, base)
  {
    forall j | base <= j < |after| ensures after[j].status == StepCompleted {
      if j < |before| {
        assert before[base..][j - base] == before[j];
      }
    }
  }

  // ---------------------------------------------------------------------------
  // Records
  // ---------------------------------------------------------------------------

  /** The context holds one result for every admitted call, in the order of the calls. */
  predicate Matches(recorded: seq<Entry>, admitted: seq<ToolCall>) {
    |recorded| == |admitted| && forall i :: 0 <= i < |recorded| ==> recorded[i].call == admitted[i]
  }

  lemma RecordsJoin(before: seq<Entry>, more: seq<Entry>, admitted: seq<ToolCall>, calls: seq<ToolCall>)
    requires Matches(before, admitted) && Matches(more, calls)
    ensures Matches(before + more, admitted + calls)
  {
  }

  lemma {:induction false} RecordedPrefix(calls: seq<ToolCall>, tasks: seq<Task>, k: nat)
    requires k <= |calls| == |tasks|
    ensures Recorded(calls[..k], tasks[..k]) <= Recorded(calls, tasks)
    decreases |calls|
  {
    if k < |calls| {
      var n := |calls| - 1;
      assert calls[..n][..k] == calls[..k] && tasks[..n][..k] == tasks[..k];
      RecordedPrefix(calls[..n], tasks[..n], k);
    } else {
      assert calls[..k] == calls && tasks[..k] == tasks;
    }
  }

  function Contribution(call: ToolCall, t: Task): seq<Entry> {
    if t.Done? && t.result.Success? then [Entry(call, t.result.output)] else []
  }

  lemma RecordedNext(calls: seq<ToolCall>, tasks: seq<Task>, k: nat)
    requires k < |calls| == |tasks|
    ensures Recorded(calls[..k], tasks[..k]) <= Recorded(calls, tasks)
    ensures Recorded(calls[..k + 1], tasks[..k + 1]) <= Recorded(calls, tasks)
    ensures Recorded(calls[..k + 1], tasks[..k + 1]) == Recorded(calls[..k], tasks[..k]) + Contribution(calls[k], tasks[k])
  {
    RecordedPrefix(calls, tasks, k);
    RecordedPrefix(calls, tasks, k + 1);
    assert calls[..k + 1][..k] == calls[..k] && tasks[..k + 1][..k] == tasks[..k];
  }

  lemma {:induction false} AllRecorded(calls: seq<ToolCall>, tasks: seq<Task>)
    requires |calls| == |tasks| && AllSuccessful(tasks)
    ensures Matches(Recorded(calls, tasks), calls)
    decreases |calls|
  {
    if calls != [] {
      AllRecorded(calls[..|calls| - 1], tasks[..|calls| - 1]);
    }
  }

  // ---------------------------------------------------------------------------
  // Approvals
  // ---------------------------------------------------------------------------

  /** The calls for which the policy, asked in order from happening `at` on, wants an approval. */
  function NeedApproval(script: nat -> Happening, at: nat, calls: seq<ToolCall>): set<string>
    decreases |calls|
  {
    if calls == [] then {} else
    var k := |calls| - 1;
    NeedApproval(script, at, calls[..k]) + if script(at + k).needsApproval then {calls[k].callId} else {}
  }

  function IdsOf(calls: seq<ToolCall>): set<string> {
    set i | 0 <= i < |calls| :: calls[i].callId
  }

  lemma {:induction false} NeededIds(script: nat -> Happening, at: nat, calls: seq<ToolCall>)
    ensures NeedApproval(script, at, calls) <= IdsOf(calls)
    decreases |calls|
  {
    if calls != [] {
      var k := |calls| - 1;
      NeededIds(script, at, calls[..k]);
      assert IdsOf(calls[..k]) <= IdsOf(calls);
      assert calls[k].callId in IdsOf(calls);
    }
  }

  lemma IdsAppend(calls: seq<ToolCall>, call: ToolCall)
    ensures IdsOf(calls + [call]) == IdsOf(calls) + {call.callId}
  {
    var longer := calls + [call];
    assert longer[|calls|] == call;
    forall id ensures id in IdsOf(longer) <==> id in IdsOf(calls) + {call.callId} {
      if id in IdsOf(calls) {
        var i :| 0 <= i < |calls| && calls[i].callId == id;
        assert longer[i].callId == id;
      }
    }
  }

  lemma IdsWithout(calls: seq<ToolCall>, i: nat)
    requires i < |calls|
    ensures IdsOf(calls) == IdsOf(Without(calls, i)) + {calls[i].callId}
  {
    var rest := Without(calls, i);
    forall id ensures id in IdsOf(calls) <==> id in IdsOf(rest) + {calls[i].callId} {
      if id in IdsOf(calls) {
        var j :| 0 <= j < |calls| && calls[j].callId == id;
        if j < i {
          assert rest[j] == calls[j];
        } else if j > i {
          assert rest[j - 1] == calls[j];
        }
      }
      if id in IdsOf(rest) {
        var j :| 0 <= j < |rest| && rest[j].callId == id;
        assert rest[j] == calls[if j < i then j else j + 1];
      }
    }
  }

  /** The steps of the calls that wait for an approval: of several with one id, the last. */
  predicate MarkedWaiting(before: seq<Step>, after: seq<Step>, base: nat, toolSteps: map<string, nat>, marked: set<string>) {
    && Keeps(before, after, base) && |after| == |before|
    && forall j :: base <= j < |before| ==>
         after[j] == before[j].(status := if Waits(toolSteps, marked, before[j].callId, j) then StepWaiting else StepCreated)
  }

  predicate Waits(toolSteps: map<string, nat>, marked: set<string>, callId: string, j: nat) {
    callId in marked && callId in toolSteps && toolSteps[callId] == j
  }

  lemma MarkedKeeps(before: seq<Step>, after: seq<Step>, calls: seq<ToolCall>, toolSteps: map<string, nat>, marked: set<string>)
    requires InOrder(before) && AwaitsStart(before, calls)
    requires MarkedWaiting(before, after, |before| - |calls|, toolSteps, marked)
    ensures InOrder(after) && AwaitsStart(after, calls) && Rounds(after) == Rounds(before)
  {
    var base := |before| - |calls|;
    forall j | 0 <= j < |after| ensures SameCall(after[j], before[j]) && (j >= base ==> after[base..][j - base] == after[j]) {
    }
    SameKinds(before, after);
  }

  lemma MarkedOne(before: seq<Step>, after: seq<Step>, calls: seq<ToolCall>, toolSteps: map<string, nat>, marked: set<string>, id: string)
    requires EndsWithCalls(before, calls) && Located(toolSteps, calls, |before| - |calls|)
    requires MarkedWaiting(before, after, |before| - |calls|, toolSteps, marked) && id in IdsOf(calls) && id !in marked
    ensures id in toolSteps && toolSteps[id] < |after| && after[toolSteps[id]].status == StepCreated
    ensures MarkedWaiting(before, after[toolSteps[id] := MarkWaiting(after[toolSteps[id]]).0], |before| - |calls|, toolSteps, marked + {id})
  {
    var i :| 0 <= i < |calls| && calls[i].callId == id;
    assert LocatedAt(toolSteps, calls, |before| - |calls|, i);
  }
}
