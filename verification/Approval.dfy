/**
 Human approvals: the request book with one event per request, and the gate that holds back a
 batch of tools until every approval the batch requires has been granted.
 */
module Approval {
  import opened Prelude

  datatype Status = Pending | Approved | Rejected

  datatype Request = Request(
    approvalId: string,
    executionId: string,
    callId: string,
    toolName: string,
    arguments: map<string, string>,
    status: Status)

  datatype Error = EmptyField | AlreadyExists | NotFound | AlreadyResolved

  /** `signalled` holds the ids whose event is set. */
  datatype Book = Book(requests: map<string, Request>, events: set<string>, signalled: set<string>)

  const EmptyBook := Book(map[], {}, {})

  predicate Complete(r: Request) {
    r.approvalId != "" && r.executionId != "" && r.callId != "" && r.toolName != ""
  }

  function Create(b: Book, r: Request): (Book, Result<Request, Error>) {
    var id := r.approvalId;
    var request := r.(status := Pending);
    if !Complete(r) then (b, Err(EmptyField))
    else if id in b.requests then (b, Err(AlreadyExists))
    else (Book(b.requests[id := request], b.events + {id}, b.signalled - {id}), Ok(request))
  }

  function Resolve(b: Book, id: string, verdict: Status): (Book, Result<Request, Error>) {
    if id !in b.requests then (b, Err(NotFound))
    else if b.requests[id].status != Pending then (b, Err(AlreadyResolved))
    else
      var resolved := b.requests[id].(status := verdict);
      (b.(requests := b.requests[id := resolved],
          signalled := if id in b.events then b.signalled + {id} else b.signalled),
       Ok(resolved))
  }

  /** Where `wait_for_resolution` is before or after its one suspension. */
  datatype WaitEntry = Resolved(request: Request) | Missing | Sleeping

  function BeginWait(b: Book, id: string): WaitEntry {
    if id !in b.requests then Missing
    else if b.requests[id].status != Pending then Resolved(b.requests[id])
    else if id !in b.events then Missing
    else Sleeping
  }

  class ApprovalManager {
    var requests: map<string, Request>
    var events: set<string>
    var signalled: set<string>

    function View(): Book
      reads this
    {
      Book(requests, events, signalled)
    }

    constructor ()
      ensures View() == EmptyBook
    {
      requests, events, signalled := map[], {}, {};
    }

    method CreateRequest(approvalId: string, executionId: string, callId: string, toolName: string,
                         arguments: map<string, string>)
      returns (result: Result<Request, Error>)
      modifies this
      ensures (View(), result) ==
              Create(old(View()), Request(approvalId, executionId, callId, toolName, arguments, Pending))
    {
      if approvalId == "" || executionId == "" || callId == "" || toolName == "" {
        return Err(EmptyField);
      }
      if approvalId in requests {
        return Err(AlreadyExists);
      }
      var request := Request(approvalId, executionId, callId, toolName, arguments, Pending);
      requests := requests[approvalId := request];
      events := events + {approvalId};
      signalled := signalled - {approvalId};
      result := Ok(request);
    }

    method Get(approvalId: string) returns (result: Result<Request, Error>)
      ensures result == if approvalId in requests then Ok(requests[approvalId]) else Err(NotFound)
    {
      if approvalId !in requests {
        return Err(NotFound);
      }
      result := Ok(requests[approvalId]);
    }

    method Decide(approvalId: string, verdict: Status) returns (result: Result<Request, Error>)
      requires verdict != Pending
      modifies this
      ensures (View(), result) == Resolve(old(View()), approvalId, verdict)
    {
      var found := Get(approvalId);
      if found.Err? {
        return found;
      }
      var request := found.value;
      if request.status != Pending {
        return Err(AlreadyResolved);
      }
      var resolved := request.(status := verdict);
      requests := requests[approvalId := resolved];
      if approvalId in events {
        signalled := signalled + {approvalId};
      }
      result := Ok(resolved);
    }

    method Approve(approvalId: string) returns (result: Result<Request, Error>)
      modifies this
      ensures (View(), result) == Resolve(old(View()), approvalId, Approved)
    {
      result := Decide(approvalId, Approved);
    }

    method Reject(approvalId: string) returns (result: Result<Request, Error>)
      modifies this
      ensures (View(), result) == Resolve(old(View()), approvalId, Rejected)
    {
      result := Decide(approvalId, Rejected);
    }

    method EnterWait(approvalId: string) returns (entry: WaitEntry)
      ensures entry == BeginWait(View(), approvalId)
    {
      var found := Get(approvalId);
      if found.Err? {
        return Missing;
      }
      if found.value.status != Pending {
        return Resolved(found.value);
      }
      if approvalId !in events {
        return Missing;
      }
      entry := Sleeping;
    }
  }

  // ---------------------------------------------------------------------------
  // The gate of one batch
  // ---------------------------------------------------------------------------

  /** A waiter of the batch: the coroutine that waits for one required approval. */
  datatype Waiter =
    | Entering
    | Asleep
    | Granted
    | Raised(error: GateError)

  datatype GateError = ApprovalRejected(callId: string) | ApprovalMissing | Interrupted

  /** `Waiting` until the gathered waiters all return or the first of them raises. */
  datatype Gate = Waiting | Open | Shut(cause: GateError)

  /** `required` lists the approvals the batch needs; `started` the tools of the batch running or
      done. Tools start only behind an open gate. */
  datatype Batch = Batch(book: Book, required: seq<string>, waiters: seq<Waiter>, gate: Gate, size: nat, started: set<nat>)

  datatype Action =
    | Creates(request: Request)
    | Decides(id: string, verdict: Status)
    | Resumes(waiter: nat)
    | Interrupts(waiter: nat)
    | Collects
    | Starts(tool: nat)

  /** What a resolved request makes of its waiter. */
  function Outcome(r: Request): Waiter {
    match r.status
    case Approved => Granted
    case Rejected => Raised(ApprovalRejected(r.callId))
    case Pending => Entering
  }

  function ResumeWaiter(b: Book, id: string, w: Waiter): Waiter {
    match w
    case Entering =>
      (match BeginWait(b, id)
       case Missing => Raised(ApprovalMissing)
       case Resolved(request) => Outcome(request)
       case Sleeping => Asleep)
    case Asleep =>
      if id !in b.signalled then Asleep
      else if id !in b.requests then Raised(ApprovalMissing)
      else Outcome(b.requests[id])
    case _ => w
  }

  predicate AllGranted(waiters: seq<Waiter>) {
    forall i :: 0 <= i < |waiters| ==> waiters[i].Granted?
  }

  function Step(s: Batch, a: Action): Batch {
    match a
    case Creates(_) => s.(book := NextBook(s.book, a))
    case Decides(_, _) => s.(book := NextBook(s.book, a))
    case Resumes(i) =>
      if i < |s.required| == |s.waiters| && s.gate.Waiting? then
        var w := ResumeWaiter(s.book, s.required[i], s.waiters[i]);
        s.(waiters := s.waiters[i := w], gate := if w.Raised? then Shut(w.error) else s.gate)
      else s
    case Interrupts(i) =>
      if i < |s.waiters| && s.gate.Waiting? && !s.waiters[i].Granted? then
        s.(waiters := s.waiters[i := Raised(Interrupted)], gate := Shut(Interrupted))
      else s
    case Collects => if s.gate.Waiting? && AllGranted(s.waiters) then s.(gate := Open) else s
    case Starts(tool) => if s.gate.Open? && tool < s.size then s.(started := s.started + {tool}) else s
  }

  function Run(s: Batch, actions: seq<Action>): Batch
    decreases |actions|
  {
    if actions == [] then s else Run(Step(s, actions[0]), actions[1..])
  }

  /** The batch has created all its requests and set its waiters off. */
  predicate Initial(s: Batch) {
    && BookInv(s.book)
    && |s.waiters| == |s.required|
    && (forall i :: 0 <= i < |s.waiters| ==> s.waiters[i] == Entering)
    && (forall i :: 0 <= i < |s.required| ==> s.required[i] in s.book.requests)
    && s.gate == Waiting && s.started == {}
  }

  /** Every request has its event, set exactly when the request is resolved. */
  predicate BookInv(b: Book) {
    && b.events == b.requests.Keys
    && b.signalled <= b.events
    && forall id :: id in b.requests ==> (id in b.signalled <==> b.requests[id].status != Pending)
  }

  predicate WaiterInv(b: Book, id: string, w: Waiter) {
    && id in b.requests
    && (w.Granted? ==> b.requests[id].status == Approved)
    && (w.Raised? && w.error.ApprovalRejected? ==> b.requests[id].status == Rejected)
    && w != Raised(ApprovalMissing)
  }

  predicate Inv(s: Batch) {
    && BookInv(s.book)
    && |s.waiters| == |s.required|
    && (forall i :: 0 <= i < |s.required| ==> WaiterInv(s.book, s.required[i], s.waiters[i]))
    && (s.gate.Open? ==> AllGranted(s.waiters))
    && (s.gate.Shut? ==> s.started == {} && exists i :: 0 <= i < |s.waiters| && s.waiters[i] == Raised(s.gate.cause))
    && (s.gate.Waiting? ==> s.started == {} && forall i :: 0 <= i < |s.waiters| ==> !s.waiters[i].Raised?)
  }

  /** What an action does to the book alone. */
  function NextBook(b: Book, a: Action): Book {
    match a
    case Creates(request) => Create(b, request).0
    case Decides(id, verdict) => if verdict == Pending then b else Resolve(b, id, verdict).0
    case _ => b
  }

  /** Requests are never dropped, and a resolution is final. */
  predicate Extends(b: Book, c: Book) {
    forall id :: id in b.requests ==>
      && id in c.requests
      && (b.requests[id].status != Pending ==> c.requests[id] == b.requests[id])
      && c.requests[id] == b.requests[id].(status := c.requests[id].status)
  }

  /** Creating and deciding keep the book's invariant and only extend it. */
  lemma BookStep(b: Book, a: Action)
    requires BookInv(b)
    ensures BookInv(NextBook(b, a)) && Extends(b, NextBook(b, a))
  {
  }

  lemma WaiterKept(b: Book, c: Book, id: string, w: Waiter)
    requires Extends(b, c) && WaiterInv(b, id, w)
    ensures WaiterInv(c, id, w)
  {
  }

  lemma WaiterResumed(b: Book, id: string, w: Waiter)
    requires BookInv(b) && WaiterInv(b, id, w)
    ensures WaiterInv(b, id, ResumeWaiter(b, id, w))
    ensures w.Granted? ==> ResumeWaiter(b, id, w) == w
  {
  }

  lemma ResumeKeepsInv(s: Batch, i: nat)
    requires Inv(s)
    ensures Inv(Step(s, Resumes(i)))
  {
    if i < |s.required| && s.gate.Waiting? {
      var t := Step(s, Resumes(i));
      WaiterResumed(s.book, s.required[i], s.waiters[i]);
      forall j | 0 <= j < |s.required| ensures WaiterInv(t.book, t.required[j], t.waiters[j]) {
        assert WaiterInv(s.book, s.required[j], s.waiters[j]);
      }
      if t.gate.Shut? {
        assert t.waiters[i] == Raised(t.gate.cause);
      }
    }
  }

  lemma InterruptKeepsInv(s: Batch, i: nat)
    requires Inv(s)
    ensures Inv(Step(s, Interrupts(i)))
  {
    if i < |s.waiters| && s.gate.Waiting? && !s.waiters[i].Granted? {
      var t := Step(s, Interrupts(i));
      forall j | 0 <= j < |s.required| ensures WaiterInv(t.book, t.required[j], t.waiters[j]) {
        assert WaiterInv(s.book, s.required[j], s.waiters[j]);
      }
      assert t.waiters[i] == Raised(t.gate.cause);
    }
  }

  lemma StepKeepsInv(s: Batch, a: Action)
    requires Inv(s)
    ensures Inv(Step(s, a))
  {
    match a {
      case Resumes(i) => ResumeKeepsInv(s, i);
      case Interrupts(i) => InterruptKeepsInv(s, i);
      case _ =>
        BookStep(s.book, a);
        forall j | 0 <= j < |s.required| ensures WaiterInv(NextBook(s.book, a), s.required[j], s.waiters[j]) {
          WaiterKept(s.book, NextBook(s.book, a), s.required[j], s.waiters[j]);
        }
    }
  }

  lemma {:induction false} RunKeepsInv(s: Batch, actions: seq<Action>)
    requires Inv(s)
    ensures Inv(Run(s, actions))
    decreases |actions|
  {
    if actions != [] {
      StepKeepsInv(s, actions[0]);
      RunKeepsInv(Step(s, actions[0]), actions[1..]);
    }
  }

  lemma {:induction false} RunKeepsRequired(s: Batch, actions: seq<Action>)
    ensures Run(s, actions).required == s.required
    decreases |actions|
  {
    if actions != [] {
      RunKeepsRequired(Step(s, actions[0]), actions[1..]);
    }
  }

  /** No tool of a batch starts unless every approval the batch requires is APPROVED, and one
      rejection means that none ever starts. */
  lemma ToolsStartOnlyWhenApproved(s: Batch, actions: seq<Action>)
    requires Initial(s)
    ensures var t := Run(s, actions);
      && t.required == s.required
      && (forall i :: 0 <= i < |s.required| ==> s.required[i] in t.book.requests)
      && (t.started != {} ==>
            forall i :: 0 <= i < |s.required| ==> t.book.requests[s.required[i]].status == Approved)
      && ((exists i :: 0 <= i < |s.required| && t.book.requests[s.required[i]].status == Rejected) ==>
            t.started == {} && !t.gate.Open?)
  {
    RunKeepsInv(s, actions);
    RunKeepsRequired(s, actions);
    var t := Run(s, actions);
    forall i | 0 <= i < |s.required| ensures s.required[i] in t.book.requests {
      assert WaiterInv(t.book, t.required[i], t.waiters[i]);
    }
    if t.gate.Open? {
      forall i | 0 <= i < |s.required| ensures t.book.requests[s.required[i]].status == Approved {
        assert WaiterInv(t.book, t.required[i], t.waiters[i]);
      }
    }
  }

  /** A rejected batch stays rejected whatever happens later. */
  lemma {:induction false} RejectionIsFinal(s: Batch, actions: seq<Action>, i: nat)
    requires Inv(s)
    requires i < |s.required| && s.book.requests[s.required[i]].status == Rejected
    ensures Run(s, actions).started == {} && !Run(s, actions).gate.Open?
    decreases |actions|
  {
    assert WaiterInv(s.book, s.required[i], s.waiters[i]);
    if actions != [] {
      StepKeepsInv(s, actions[0]);
      BookStep(s.book, actions[0]);
      RejectionIsFinal(Step(s, actions[0]), actions[1..], i);
    }
  }

  /** No waiter is left sleeping: one that sleeps on a resolved request has its event set, and
      resuming it delivers the verdict. */
  lemma NoSleeperForgotten(s: Batch, actions: seq<Action>, i: nat)
    requires Initial(s) && i < |s.required|
    ensures var t := Run(s, actions); var id := s.required[i];
      && |t.waiters| == |t.required| == |s.required| && id in t.book.requests
      && (t.waiters[i] == Asleep ==>
            (id in t.book.signalled <==> t.book.requests[id].status != Pending)
            && (t.gate.Waiting? && t.book.requests[id].status != Pending ==>
                  Step(t, Resumes(i)).waiters[i] == Outcome(t.book.requests[id])))
  {
    RunKeepsInv(s, actions);
    RunKeepsRequired(s, actions);
    var t := Run(s, actions);
    assert WaiterInv(t.book, t.required[i], t.waiters[i]);
  }

  /** Once every required approval is APPROVED and nothing has interrupted the wait, resuming the
      waiters opens the gate. */
  lemma {:induction false} ApprovedBatchProceeds(s: Batch, k: nat)
    requires Inv(s) && s.gate.Waiting? && k <= |s.waiters|
    requires forall i :: 0 <= i < |s.required| ==> s.book.requests[s.required[i]].status == Approved
    requires forall i :: 0 <= i < k ==> s.waiters[i].Granted?
    ensures exists actions :: Run(s, actions).gate.Open?
    decreases |s.waiters| - k
  {
    if k == |s.waiters| {
      assert Run(s, [Collects]) == Run(Step(s, Collects), []) == Step(s, Collects);
      assert Run(s, [Collects]).gate.Open?;
    } else {
      var t := Step(s, Resumes(k));
      StepKeepsInv(s, Resumes(k));
      assert WaiterInv(s.book, s.required[k], s.waiters[k]);
      ApprovedBatchProceeds(t, k + 1);
      var rest :| Run(t, rest).gate.Open?;
      var actions := [Resumes(k)] + rest;
      assert actions[1..] == rest;
      assert Run(s, actions).gate.Open?;
    }
  }
}
