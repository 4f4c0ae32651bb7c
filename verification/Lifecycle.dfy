/**
 The lifecycle of one execution and of its steps: the transition table, the legacy `mark_*`
 operations with the status and timestamps they keep in step, and the smaller table of a step.
 */
module Lifecycle {
  import opened Prelude

  // ---------------------------------------------------------------------------
  // Executions
  // ---------------------------------------------------------------------------

  datatype State =
    | Created
    | Planning
    | Inference
    | WaitingApproval
    | ToolExecution
    | Observing
    | Completed
    | Failed
    | Cancelled
  {
    predicate Terminal() {
      Completed? || Failed? || Cancelled?
    }
  }

  /** The older, coarser status kept beside the state. */
  datatype Status = CreatedStatus | RunningStatus | CompletedStatus | FailedStatus | CancelledStatus

  function Targets(s: State): set<State> {
    match s
    case Created => {Planning, Failed, Cancelled}
    case Planning => {Inference, Failed, Cancelled}
    case Inference => {ToolExecution, WaitingApproval, Completed, Failed, Cancelled}
    case WaitingApproval => {ToolExecution, Failed, Cancelled}
    case ToolExecution => {Observing, Failed, Cancelled}
    case Observing => {Inference, Failed, Cancelled}
    case _ => {}
  }

  function StatusOf(s: State): Status {
    match s
    case Created => CreatedStatus
    case Completed => CompletedStatus
    case Failed => FailedStatus
    case Cancelled => CancelledStatus
    case _ => RunningStatus
  }

  /** Everything about an execution except its steps. */
  datatype Record = Record(
    state: State,
    status: Status,
    startedAt: Option<int>,
    updatedAt: int,
    completedAt: Option<int>,
    error: Option<string>,
    errorType: Option<string>)

  function NewRecord(now: int): Record {
    Record(Created, CreatedStatus, None, now, None, None, None)
  }

  function Once(at: Option<int>, now: int): Option<int> {
    if at.None? then Some(now) else at
  }

  /** One request to the lifecycle; any of them may be refused. */
  datatype Request =
    | Moves(target: State)
    | Starts
    | Completes
    | Fails(error: string, errorType: string)
    | Cancels

  function Move(r: Record, target: State, now: int): (Record, bool) {
    if target !in Targets(r.state) then (r, false) else
    (r.(state := target,
        status := StatusOf(target),
        updatedAt := now,
        startedAt := if target == Planning then Once(r.startedAt, now) else r.startedAt,
        completedAt := if target.Terminal() then Once(r.completedAt, now) else r.completedAt),
     true)
  }

  function Apply(r: Record, q: Request, now: int): (Record, bool) {
    match q
    case Moves(target) => Move(r, target, now)
    case Starts =>
      if r.state == Created then Move(r, Planning, now)
      else if r.state.Terminal() then (r, false)
      else if r.startedAt.None? then (r.(startedAt := Some(now), updatedAt := now), true)
      else (r, true)
    case Completes =>
      var bridged := if r.state == Planning then Move(r, Inference, now).0 else r;
      if bridged.state == Inference then Move(bridged, Completed, now)
      else (bridged, bridged.state == Completed)
    case Fails(error, errorType) =>
      if error == "" || r.state.Terminal() then (r, false)
      else Move(r.(error := Some(error), errorType := Some(errorType)), Failed, now)
    case Cancels =>
      if r.state == Cancelled then (r, true)
      else if r.state.Terminal() then (r, false)
      else Move(r, Cancelled, now)
  }

  // ---------------------------------------------------------------------------
  // Steps
  // ---------------------------------------------------------------------------

  datatype StepKind = PlanStep | InferenceStep | ToolCallStep | ToolResultStep | ObservationStep | FinalStep

  datatype StepStatus =
    | StepCreated
    | StepWaiting
    | StepRunning
    | StepCompleted
    | StepFailed
    | StepCancelled
  {
    predicate Terminal() {
      StepCompleted? || StepFailed? || StepCancelled?
    }
  }

  /** One operation of an execution, without its timestamps. */
  datatype Step = Step(
    number: nat,
    kind: StepKind,
    callId: string,
    status: StepStatus,
    output: Option<string>,
    error: Option<string>)

  function NewStep(number: nat, kind: StepKind, callId: string): Step {
    Step(number, kind, callId, StepCreated, None, None)
  }

  function StepTargets(s: StepStatus): set<StepStatus> {
    match s
    case StepCreated => {StepWaiting, StepRunning, StepFailed, StepCancelled}
    case StepWaiting => {StepRunning, StepFailed, StepCancelled}
    case StepRunning => {StepCompleted, StepFailed, StepCancelled}
    case _ => {}
  }

  function MoveStep(s: Step, target: StepStatus): (Step, bool) {
    if target in StepTargets(s.status) then (s.(status := target), true) else (s, false)
  }

  function MarkWaiting(s: Step): (Step, bool) {
    MoveStep(s, StepWaiting)
  }

  /** Starting a running step again is allowed and does nothing. */
  function MarkStarted(s: Step): (Step, bool) {
    if s.status == StepRunning then (s, true) else MoveStep(s, StepRunning)
  }

  /** The output argument replaces whatever output the step had, even when it is absent. */
  function MarkCompleted(s: Step, output: Option<string>): (Step, bool) {
    var (moved, ok) := MoveStep(s, StepCompleted);
    if ok then (moved.(output := output), true) else (s, false)
  }

  function MarkFailed(s: Step, error: string): (Step, bool) {
    if error == "" then (s, false) else
    var (moved, ok) := MoveStep(s, StepFailed);
    if ok then (moved.(error := Some(error)), true) else (s, false)
  }

  function MarkCancelled(s: Step): (Step, bool) {
    MoveStep(s, StepCancelled)
  }

  /** `Execution`. `refused` counts the transitions the state machine turned down. */
  class Execution {
    var state: State
    var status: Status
    var startedAt: Option<int>
    var updatedAt: int
    var completedAt: Option<int>
    var error: Option<string>
    var errorType: Option<string>
    var steps: seq<Step>
    ghost var refused: nat

    function View(): Record
      reads this
    {
      Record(state, status, startedAt, updatedAt, completedAt, error, errorType)
    }

    constructor (now: int)
      ensures View() == NewRecord(now) && steps == [] && refused == 0
    {
      state, status, startedAt, updatedAt, completedAt := Created, CreatedStatus, None, now, None;
      error, errorType, steps, refused := None, None, [], 0;
    }

    method TransitionTo(target: State, now: int) returns (ok: bool)
      modifies this`state, this`status, this`startedAt, this`updatedAt, this`completedAt, this`refused
      ensures (View(), ok) == Move(old(View()), target, now)
      ensures refused == old(refused) + if ok then 0 else 1
    {
      if target !in Targets(state) {
        refused := refused + 1;
        return false;
      }
      state := target;
      status := StatusOf(state);
      updatedAt := now;
      if target == Planning {
        if startedAt.None? {
          startedAt := Some(now);
        }
      } else if target == Completed || target == Failed || target == Cancelled {
        if completedAt.None? {
          completedAt := Some(now);
        }
      }
      ok := true;
    }

    method MarkStarted(now: int) returns (ok: bool)
      modifies this`state, this`status, this`startedAt, this`updatedAt, this`completedAt, this`refused
      ensures (View(), ok) == Apply(old(View()), Starts, now)
      ensures refused == old(refused)
    {
      if state == Created {
        ok := TransitionTo(Planning, now);
        return;
      }
      if state in {Planning, Inference, WaitingApproval, ToolExecution, Observing} {
        if startedAt.None? {
          startedAt := Some(now);
          updatedAt := now;
        }
        return true;
      }
      ok := false;
    }

    method MarkCompleted(now: int) returns (ok: bool)
      modifies this`state, this`status, this`startedAt, this`updatedAt, this`completedAt, this`refused
      ensures (View(), ok) == Apply(old(View()), Completes, now)
      ensures refused == old(refused)
    {
      if state == Planning {
        state := Inference;
        status := StatusOf(state);
        updatedAt := now;
      }
      if state == Inference {
        ok := TransitionTo(Completed, now);
        return;
      }
      ok := state == Completed;
    }

    method MarkFailed(error: string, errorType: string, now: int) returns (ok: bool)
      modifies this`state, this`status, this`startedAt, this`updatedAt, this`completedAt, this`refused, this`error, this`errorType
      ensures (View(), ok) == Apply(old(View()), Fails(error, errorType), now)
      ensures refused == old(refused)
    {
      if error == "" {
        return false;
      }
      if state in {Completed, Failed, Cancelled} {
        return false;
      }
      this.error := Some(error);
      this.errorType := Some(errorType);
      ok := TransitionTo(Failed, now);
    }

    method MarkCancelled(now: int) returns (ok: bool)
      modifies this`state, this`status, this`startedAt, this`updatedAt, this`completedAt, this`refused
      ensures (View(), ok) == Apply(old(View()), Cancels, now)
      ensures refused == old(refused)
    {
      if state == Cancelled {
        return true;
      }
      if state in {Completed, Failed} {
        return false;
      }
      ok := TransitionTo(Cancelled, now);
    }

    method AddStep(step: Step)
      modifies this`steps
      ensures steps == old(steps) + [step]
    {
      steps := steps + [step];
    }
  }

  // ---------------------------------------------------------------------------
  // Runs of requests
  // ---------------------------------------------------------------------------

  datatype Timed = Timed(request: Request, now: int)

  function Run(r: Record, requests: seq<Timed>): Record
    decreases |requests|
  {
    if requests == [] then r
    else Run(Apply(r, requests[0].request, requests[0].now).0, requests[1..])
  }

  /** The clock never runs backwards, and starts no earlier than `from`. */
  predicate Chronological(from: int, requests: seq<Timed>)
    decreases |requests|
  {
    requests == [] || (from <= requests[0].now && Chronological(requests[0].now, requests[1..]))
  }

  /** What every record made by the lifecycle satisfies. */
  predicate Consistent(r: Record) {
    && r.status == StatusOf(r.state)
    && (r.completedAt.Some? <==> r.state.Terminal())
    && (r.state == Created ==> r.startedAt.None?)
    && (!r.state.Failed? && !r.state.Cancelled? && r.state != Created ==> r.startedAt.Some?)
    && (r.error.Some? ==> r.state == Failed && r.error.value != "")
    && (r.startedAt.Some? ==> r.startedAt.value <= r.updatedAt)
    && (r.completedAt.Some? ==> r.completedAt.value == r.updatedAt)
  }

  lemma RequestKeepsConsistent(r: Record, q: Request, now: int)
    requires Consistent(r) && r.updatedAt <= now
    ensures Consistent(Apply(r, q, now).0)
    ensures r.updatedAt <= Apply(r, q, now).0.updatedAt <= now
  {
  }

  /** Whatever is requested, in whatever order: the coarse status follows the state, an execution
      has a completion time exactly when it is over, and that time is not before its start. */
  lemma {:induction false} RecordsStayConsistent(r: Record, requests: seq<Timed>)
    requires Consistent(r) && Chronological(r.updatedAt, requests)
    ensures var last := Run(r, requests);
      && Consistent(last)
      && (last.startedAt.Some? && last.completedAt.Some? ==> last.startedAt.value <= last.completedAt.value)
    decreases |requests|
  {
    if requests != [] {
      var next := Apply(r, requests[0].request, requests[0].now).0;
      RequestKeepsConsistent(r, requests[0].request, requests[0].now);
      LaterStart(next.updatedAt, requests[0].now, requests[1..]);
      RecordsStayConsistent(next, requests[1..]);
    }
  }

  lemma LaterStart(early: int, late: int, requests: seq<Timed>)
    requires early <= late && Chronological(late, requests)
    ensures Chronological(early, requests)
  {
  }

  /** Nothing changes an execution that is over: not its state, not its error, not its times. */
  lemma {:induction false} TerminalIsFinal(r: Record, requests: seq<Timed>)
    requires r.state.Terminal()
    ensures Run(r, requests) == r
    decreases |requests|
  {
    if requests != [] {
      TerminalIsFinal(Apply(r, requests[0].request, requests[0].now).0, requests[1..]);
    }
  }

  /** A start time, once set, is never moved. */
  lemma {:induction false} StartedOnce(r: Record, requests: seq<Timed>)
    requires r.startedAt.Some?
    ensures Run(r, requests).startedAt == r.startedAt
    decreases |requests|
  {
    if requests != [] {
      StartedOnce(Apply(r, requests[0].request, requests[0].now).0, requests[1..]);
    }
  }

  /** Failing (with a message) and cancelling always work before the end and never after it,
      except that cancelling twice is accepted. */
  lemma StoppingAlwaysPossible(r: Record, error: string, errorType: string, now: int)
    ensures var (failed, ok) := Apply(r, Fails(error, errorType), now);
      && (ok <==> error != "" && !r.state.Terminal())
      && (ok ==> failed.state == Failed && failed.error == Some(error))
    ensures var (cancelled, ok) := Apply(r, Cancels, now);
      && (ok <==> !r.state.Completed? && !r.state.Failed?)
      && (ok ==> cancelled.state == Cancelled)
  {
    assert r.state.Terminal() || (Failed in Targets(r.state) && Cancelled in Targets(r.state));
  }

  /** A chain of states, each a legal target of the one before. */
  predicate Path(states: seq<State>) {
    forall i {:trigger states[i]} :: 0 < i < |states| ==> states[i] in Targets(states[i - 1])
  }

  /** Between two inferences an execution runs tools and observes them, in that order: the only
      way back to INFERENCE is through TOOL_EXECUTION and then OBSERVING. */
  lemma RoundsRunTools(states: seq<State>, k: nat)
    requires Path(states) && 0 < k < |states|
    requires states[0] == states[k] == Inference
    requires forall i :: 0 < i < k ==> states[i] != Inference
    ensures k >= 3 && states[k - 1] == Observing && states[k - 2] == ToolExecution
    ensures k == 3 || (k == 4 && states[1] == WaitingApproval)
  {
    assert states[1] in Targets(states[0]);
    assert states[k - 1] == Observing;
    assert states[k - 2] == ToolExecution;
    assert states[k - 3] in {Inference, WaitingApproval};
    if states[k - 3] == WaitingApproval {
      assert k > 3;
      assert states[k - 4] == Inference;
    }
  }

  /** From every state that is not terminal there is a path to COMPLETED. */
  lemma CompletionStaysReachable(s: State)
    requires !s.Terminal()
    ensures exists states :: Path(states) && |states| > 1 && states[0] == s && states[|states| - 1] == Completed
  {
    var rest := match s
      case Created => [Planning, Inference, Completed]
      case Planning => [Inference, Completed]
      case Inference => [Completed]
      case WaitingApproval => [ToolExecution, Observing, Inference, Completed]
      case ToolExecution => [Observing, Inference, Completed]
      case Observing => [Inference, Completed];
    var states := [s] + rest;
    assert Path(states) && states[|states| - 1] == Completed;
  }

  /** A step that is over never changes again, whatever it is asked. */
  lemma FinishedStepIsFinal(s: Step, output: Option<string>, error: string)
    requires s.status.Terminal()
    ensures MarkWaiting(s) == MarkStarted(s) == MarkCompleted(s, output) == MarkFailed(s, error) == MarkCancelled(s) == (s, false)
  {
  }

  // ---------------------------------------------------------------------------
  // The list of steps
  // ---------------------------------------------------------------------------

  predicate Numbered(steps: seq<Step>) {
    forall i :: 0 <= i < |steps| ==> steps[i].number == i + 1
  }

  function CountKind(steps: seq<Step>, kind: StepKind): nat
    decreases |steps|
  {
    if steps == [] then 0
    else CountKind(steps[..|steps| - 1], kind) + if steps[|steps| - 1].kind == kind then 1 else 0
  }

  /** The count depends on the kinds alone, and adds up. */
  lemma {:induction false} CountSplits(before: seq<Step>, after: seq<Step>, more: seq<Step>, kind: StepKind)
    requires |after| == |before| + |more|
    requires forall i :: 0 <= i < |before| ==> after[i].kind == before[i].kind
    requires forall i :: 0 <= i < |more| ==> after[|before| + i].kind == more[i].kind
    ensures CountKind(after, kind) == CountKind(before, kind) + CountKind(more, kind)
    decreases |after|
  {
    if more != [] {
      CountSplits(before, after[..|after| - 1], more[..|more| - 1], kind);
    } else if before != [] {
      CountSplits(before[..|before| - 1], after[..|after| - 1], more, kind);
    }
  }
}
