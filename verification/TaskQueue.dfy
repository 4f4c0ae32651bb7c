/**
 The task queue: a stream with one consumer group, a hash of state per execution, a dead-letter
 stream, and any number of workers. Every store command is one step, and workers may crash, lose
 replies and reclaim each other's messages between any two steps.
 */
module TaskQueue {
  import opened Prelude

  datatype Config = Config(maxAttempts: nat, retryBase: int, retryMax: int, pendingIdle: int, batchSize: nat) {
    predicate Valid() {
      1 <= maxAttempts && 0 < retryBase <= retryMax && 0 < pendingIdle && 1 <= batchSize
    }
  }

  datatype Message = Message(executionId: string, intent: string)

  datatype Status = Queued | Running | Retrying | Completed | Failed

  /** The fields of an execution's hash that the protocol reads or proves things about. */
  datatype Hash = Hash(
    status: Status,
    attempt: nat,
    retryAt: Option<int>,
    completedAt: Option<int>,
    failedAt: Option<int>,
    deadLetter: Option<nat>)

  const NoHash := Hash(Queued, 0, None, None, None, None)

  /** What a worker does next. Stages from `Reading` on belong to the processing of one message. */
  datatype Stage =
    | Starting
    | Recovering
    | Polling
    | Reading(id: nat)
    | Marking(id: nat, attempt: nat)
    | Calling(id: nat, attempt: nat)
    | Saving(id: nat, attempt: nat)
    | Delaying(id: nat, attempt: nat, retryAt: int)
    | Burying(id: nat, attempt: nat)
    | Failing(id: nat, attempt: nat, deadLetter: nat)
    | Acking(id: nat, success: bool)

  predicate Busy(stage: Stage) {
    !stage.Starting? && !stage.Recovering? && !stage.Polling?
  }

  predicate Processing(stage: Stage, id: nat) {
    Busy(stage) && stage.id == id
  }

  /** `batch` holds the reclaimed messages still to be looked at; `polled` tells a message that
      came from the stream from a reclaimed one; `since` is when the worker was handed what it has. */
  datatype Worker = Worker(stage: Stage, batch: seq<nat>, polled: bool, since: int)

  const NewWorker := Worker(Starting, [], false, 0)

  predicate Holds(w: Worker, id: nat) {
    Processing(w.stage, id) || id in w.batch
  }

  /** What has happened to one message. `starts` counts the times it was marked running, `calls` the
      agent calls made for it, `failures` those that failed, `interruptions` the crashes and lost
      or failed commands while a worker processed it. `lastFailure` is when the last failed call
      returned, `recorded` the time of the last failure saved with a retry time, if nothing has been
      started since; `early` is set by a start before that failure's delay is over. `owner` is the
      worker that has the message in hand and `open` tells that its last start is unresolved. */
  datatype History = History(
    starts: nat,
    calls: nat,
    failures: nat,
    interruptions: nat,
    lastFailure: int,
    recorded: Option<int>,
    early: bool,
    open: bool,
    owner: Option<nat>)

  const NoHistory := History(0, 0, 0, 0, 0, None, false, false, None)

  /** Message ids are positions in the stream; those from `delivered` on have never been read. */
  datatype System = System(
    now: int,
    messages: seq<Message>,
    delivered: nat,
    pending: map<nat, int>,
    acked: set<nat>,
    hashes: map<string, Hash>,
    deadLetters: seq<nat>,
    workers: seq<Worker>,
    history: seq<History>)

  function HashOf(s: System, executionId: string): Hash {
    if executionId in s.hashes then s.hashes[executionId] else NoHash
  }

  function ExecutionOf(s: System, id: nat): string {
    if id < |s.messages| then s.messages[id].executionId else ""
  }

  function PastOf(s: System, id: nat): History {
    if id < |s.history| then s.history[id] else NoHistory
  }

  // ---------------------------------------------------------------------------
  // The retry delay
  // ---------------------------------------------------------------------------

  function Power(n: nat): nat {
    if n == 0 then 1 else 2 * Power(n - 1)
  }

  function RetryDelay(c: Config, attempt: nat): int {
    var delay := c.retryBase * Power(if attempt == 0 then 0 else attempt - 1);
    if delay > c.retryMax then c.retryMax else delay
  }

  /** The first delay is the base, each further one doubles, and none is above the maximum. */
  lemma DelayDoubles(c: Config, attempt: nat)
    requires c.Valid() && 1 <= attempt
    ensures RetryDelay(c, 1) == c.retryBase
    ensures RetryDelay(c, attempt + 1) == Min(2 * RetryDelay(c, attempt), c.retryMax)
    ensures c.retryBase <= RetryDelay(c, attempt) <= c.retryMax
  {
    assert Power(0) == 1;
    var p := Power(attempt - 1);
    assert p >= 1 by { PowerPositive(attempt - 1); }
    assert Power(attempt) == 2 * p;
    assert c.retryBase * (2 * p) == 2 * (c.retryBase * p);
    assert c.retryBase * p >= c.retryBase;
  }

  lemma PowerPositive(n: nat)
    ensures Power(n) >= 1
  {
  }

  // ---------------------------------------------------------------------------
  // Steps
  // ---------------------------------------------------------------------------

  /** `Works` lets the worker's next command succeed (`ok` is the agent's answer, if that is what
      comes next); `Faults` lets it fail, possibly after taking effect in the store. */
  datatype Action =
    | Submits(message: Message)
    | Waits(until: int)
    | Claims(worker: nat, batch: seq<nat>)
    | Works(worker: nat, ok: bool)
    | Faults(worker: nat, applied: bool)
    | Crashes(worker: nat)
    | Joins

  function Submit(s: System, m: Message): System {
    s.(hashes := s.hashes[m.executionId := HashOf(s, m.executionId).(status := Queued, attempt := 0)],
       messages := s.messages + [m],
       history := s.history + [NoHistory])
  }

  predicate Claimable(c: Config, s: System, batch: seq<nat>) {
    && |batch| <= c.batchSize
    && (forall i, j :: 0 <= i < j < |batch| ==> batch[i] != batch[j])
    && forall i :: 0 <= i < |batch| ==> batch[i] in s.pending && s.now - s.pending[batch[i]] >= c.pendingIdle
  }

  /** XAUTOCLAIM: the claimed messages count as delivered now. */
  function Claim(s: System, w: nat, batch: seq<nat>): System
    requires w < |s.workers|
  {
    s.(pending := map id | id in s.pending :: if id in batch then s.now else s.pending[id],
       workers := s.workers[w := Worker(Recovering, batch, false, s.now)],
       history := seq(|s.history|, i requires 0 <= i < |s.history| =>
                    if i in batch then s.history[i].(owner := Some(w)) else s.history[i]))
  }

  function SetHash(s: System, id: nat, h: Hash): System {
    s.(hashes := s.hashes[ExecutionOf(s, id) := h])
  }

  function SetPast(s: System, id: nat, t: History): System {
    if id < |s.history| then s.(history := s.history[id := t]) else s
  }

  function SetWorker(s: System, w: nat, worker: Worker): System
    requires w < |s.workers|
  {
    s.(workers := s.workers[w := worker])
  }

  /** Where a worker goes on when it is done with a message. */
  function Onward(worker: Worker): Worker {
    worker.(stage := if worker.polled then Starting else Recovering)
  }

  /** The next reclaimed message: skipped if it has no execution id or its retry time is ahead. */
  function Recover(s: System, w: nat): System
    requires w < |s.workers|
  {
    var worker := s.workers[w];
    if worker.batch == [] then SetWorker(s, w, worker.(stage := Polling)) else
    var id, rest := worker.batch[0], worker.batch[1..];
    var h := HashOf(s, ExecutionOf(s, id));
    if ExecutionOf(s, id) == "" || (h.retryAt.Some? && s.now < h.retryAt.value) then
      SetPast(SetWorker(s, w, worker.(batch := rest)), id, PastOf(s, id).(owner := None))
    else
      SetWorker(s, w, worker.(stage := Reading(id), batch := rest))
  }

  /** XREADGROUP with the ">" cursor moves the next message to the pending list. */
  function Read(s: System): System {
    s.(delivered := s.delivered + 1, pending := s.pending[s.delivered := s.now])
  }

  function Poll(s: System, w: nat): System
    requires w < |s.workers|
  {
    if s.delivered >= |s.messages| || ExecutionOf(s, s.delivered) == "" then
      SetWorker(if s.delivered < |s.messages| then Read(s) else s, w, NewWorker)
    else
      SetPast(SetWorker(Read(s), w, Worker(Reading(s.delivered), [], true, s.now)),
              s.delivered, PastOf(s, s.delivered).(owner := Some(w)))
  }

  /** What the command of a processing stage does to the store. */
  function Effect(c: Config, s: System, stage: Stage): System {
    match stage
    case Marking(id, attempt) =>
      var t, h := PastOf(s, id), HashOf(s, ExecutionOf(s, id));
      SetPast(SetHash(s, id, h.(status := Running, attempt := attempt, retryAt := None, failedAt := None)),
              id, t.(starts := t.starts + 1, recorded := None, open := true,
                     early := t.early || (t.recorded.Some? && s.now < t.recorded.value + RetryDelay(c, t.starts))))
    case Saving(id, attempt) =>
      var h := HashOf(s, ExecutionOf(s, id));
      SetHash(s, id, h.(status := Completed, attempt := attempt, completedAt := Some(s.now), retryAt := None, failedAt := None))
    case Delaying(id, attempt, retryAt) =>
      var t, h := PastOf(s, id), HashOf(s, ExecutionOf(s, id));
      SetPast(SetHash(s, id, h.(status := Retrying, attempt := attempt, failedAt := Some(s.now), retryAt := Some(retryAt))),
              id, t.(recorded := Some(t.lastFailure)))
    case Burying(id, attempt) => s.(deadLetters := s.deadLetters + [id])
    case Failing(id, attempt, deadLetter) =>
      var h := HashOf(s, ExecutionOf(s, id));
      SetHash(s, id, h.(status := Failed, attempt := attempt, failedAt := Some(s.now), deadLetter := Some(deadLetter), retryAt := None))
    case Acking(id, _) =>
      if id in s.pending then s.(pending := s.pending - {id}, acked := s.acked + {id}) else s
    case _ => s
  }

  /** The stage after a command that succeeded; none when the message is done with. */
  function After(c: Config, s: System, stage: Stage, ok: bool): Option<Stage> {
    match stage
    case Reading(id) => Some(Marking(id, HashOf(s, ExecutionOf(s, id)).attempt + 1))
    case Marking(id, attempt) => Some(Calling(id, attempt))
    case Calling(id, attempt) =>
      if ok then Some(Saving(id, attempt))
      else if attempt >= c.maxAttempts then Some(Burying(id, attempt))
      else Some(Delaying(id, attempt, s.now + RetryDelay(c, attempt)))
    case Saving(id, _) => Some(Acking(id, true))
    case Burying(id, attempt) => Some(Failing(id, attempt, |s.deadLetters|))
    case Failing(id, _, _) => Some(Acking(id, false))
    case _ => None
  }

  /** What a worker that sees its command succeed adds to the history of the message. */
  function Noted(t: History, stage: Stage, ok: bool, now: int): History {
    match stage
    case Marking(_, _) => t.(calls := t.calls + 1)
    case Calling(_, _) => if ok then t else t.(failures := t.failures + 1, lastFailure := now)
    case Delaying(_, _, _) => t.(open := false, owner := None)
    case Acking(_, _) => t.(open := false, owner := None)
    case _ => t
  }

  /** One command of `process` or `deadLetter`. */
  function Process(c: Config, s: System, w: nat, ok: bool): System
    requires w < |s.workers| && Busy(s.workers[w].stage)
  {
    var worker := s.workers[w];
    var next := After(c, s, worker.stage, ok);
    var t := Effect(c, s, worker.stage);
    SetPast(SetWorker(t, w, if next.Some? then worker.(stage := next.value) else Onward(worker)),
            worker.stage.id, Noted(PastOf(t, worker.stage.id), worker.stage, ok, s.now))
  }

  function Work(c: Config, s: System, w: nat, ok: bool): System
    requires w < |s.workers|
  {
    match s.workers[w].stage
    case Starting => s
    case Recovering => Recover(s, w)
    case Polling => Poll(s, w)
    case _ => Process(c, s, w, ok)
  }

  /** Worker `w` lets go of what it holds beyond `next`; what it was processing is interrupted. */
  function Drop(s: System, w: nat, next: Worker): System
    requires w < |s.workers|
  {
    SetWorker(s, w, next).(history := seq(|s.history|, i requires 0 <= i < |s.history| =>
                             Dropped(s.history[i], s.workers[w], next, i)))
  }

  function Dropped(t: History, before: Worker, after: Worker, id: nat): History {
    if Processing(before.stage, id) then t.(interruptions := t.interruptions + 1, open := false, owner := None)
    else if Holds(before, id) && !Holds(after, id) then t.(owner := None)
    else t
  }

  /** A command that fails, with or without having taken effect. Outside the processing of a message
      the worker starts over without its batch; otherwise it leaves the message and goes on. The
      agent call is no store command and does not fault. */
  function Fault(c: Config, s: System, w: nat, applied: bool): System
    requires w < |s.workers|
  {
    var worker := s.workers[w];
    match worker.stage
    case Starting => s
    case Calling(_, _) => s
    case Recovering => Drop(s, w, NewWorker)
    case Polling => Drop(if applied && s.delivered < |s.messages| then Read(s) else s, w, NewWorker)
    case _ => Drop(if applied then Effect(c, s, worker.stage) else s, w, if worker.polled then NewWorker else Onward(worker))
  }

  function Next(c: Config, s: System, a: Action): System {
    match a
    case Submits(m) => Submit(s, m)
    case Waits(until) => if s.now <= until then s.(now := until) else s
    case Claims(w, batch) =>
      if w < |s.workers| && s.workers[w].stage.Starting? && Claimable(c, s, batch) then Claim(s, w, batch) else s
    case Works(w, ok) => if w < |s.workers| then Work(c, s, w, ok) else s
    case Faults(w, applied) => if w < |s.workers| then Fault(c, s, w, applied) else s
    case Crashes(w) => if w < |s.workers| then Drop(s, w, NewWorker) else s
    case Joins => s.(workers := s.workers + [NewWorker])
  }

  function Run(c: Config, s: System, actions: seq<Action>): System
    decreases |actions|
  {
    if actions == [] then s else Run(c, Next(c, s, actions[0]), actions[1..])
  }

  function Initial(now: int): System {
    System(now, [], 0, map[], {}, map[], [], [], [])
  }

  // ---------------------------------------------------------------------------
  // Conservation and ack safety, with no assumption on who claims what
  // ---------------------------------------------------------------------------

  predicate Undelivered(s: System, id: nat) {
    s.delivered <= id < |s.messages|
  }

  /** Each submitted message is in exactly one of three places. */
  predicate InOnePlace(s: System, id: nat) {
    || (Undelivered(s, id) && id !in s.pending && id !in s.acked)
    || (!Undelivered(s, id) && id in s.pending && id !in s.acked)
    || (!Undelivered(s, id) && id !in s.pending && id in s.acked)
  }

  /** The message's execution has been completed, or a dead letter names the message. */
  predicate Evidence(s: System, id: nat) {
    HashOf(s, ExecutionOf(s, id)).completedAt.Some? || id in s.deadLetters
  }

  predicate Placed(s: System) {
    && |s.history| == |s.messages| && s.delivered <= |s.messages|
    && (forall id :: id in s.pending ==> id < s.delivered)
    && (forall id :: id in s.deadLetters ==> id < s.delivered)
    && (forall id :: id in s.acked ==> id < s.delivered && Evidence(s, id))
    && forall id: nat :: id < |s.messages| ==> InOnePlace(s, id)
  }

  /** A worker only handles delivered messages, and acknowledges none without evidence. */
  predicate Grounded(s: System, worker: Worker) {
    && (forall id :: id in worker.batch ==> id < s.delivered)
    && (Busy(worker.stage) ==> worker.stage.id < s.delivered)
    && (worker.stage.Failing? ==> worker.stage.id in s.deadLetters)
    && (worker.stage.Acking? ==> Evidence(s, worker.stage.id))
  }

  predicate Safe(s: System) {
    Placed(s) && forall w :: 0 <= w < |s.workers| ==> Grounded(s, s.workers[w])
  }

  /** Messages, deliveries, acknowledgements, dead letters and completions are never taken back. */
  ghost predicate Grows(s: System, t: System) {
    && s.now <= t.now && s.messages <= t.messages && s.delivered <= t.delivered
    && s.acked <= t.acked && s.deadLetters <= t.deadLetters
    && forall e :: HashOf(s, e).completedAt.Some? ==> HashOf(t, e).completedAt.Some?
  }

  lemma EffectGrows(c: Config, s: System, stage: Stage)
    ensures Grows(s, Effect(c, s, stage))
    ensures Effect(c, s, stage).workers == s.workers && Effect(c, s, stage).delivered == s.delivered
    ensures Effect(c, s, stage).messages == s.messages && |Effect(c, s, stage).history| == |s.history|
  {
  }

  lemma WorkGrows(c: Config, s: System, w: nat, ok: bool)
    requires w < |s.workers|
    ensures Grows(s, Work(c, s, w, ok))
  {
    if Busy(s.workers[w].stage) {
      EffectGrows(c, s, s.workers[w].stage);
    }
  }

  lemma FaultGrows(c: Config, s: System, w: nat, applied: bool)
    requires w < |s.workers|
    ensures Grows(s, Fault(c, s, w, applied))
  {
    if Busy(s.workers[w].stage) {
      EffectGrows(c, s, s.workers[w].stage);
    }
  }

  lemma StepGrows(c: Config, s: System, a: Action)
    ensures Grows(s, Next(c, s, a))
  {
    match a {
      case Works(w, ok) =>
        if w < |s.workers| {
          WorkGrows(c, s, w, ok);
        }
      case Faults(w, applied) =>
        if w < |s.workers| {
          FaultGrows(c, s, w, applied);
        }
      case _ =>
    }
  }

  lemma StaysGrounded(s: System, t: System, worker: Worker)
    requires Grows(s, t) && Grounded(s, worker) && s.delivered <= |s.messages|
    ensures Grounded(t, worker)
  {
    if worker.stage.Acking? {
      EvidenceStays(s, t, worker.stage.id);
    }
  }

  lemma EvidenceStays(s: System, t: System, id: nat)
    requires Grows(s, t) && id < |s.messages| && Evidence(s, id)
    ensures Evidence(t, id)
  {
    assert ExecutionOf(t, id) == ExecutionOf(s, id);
  }

  /** The store's effect of a grounded worker's command keeps every message in one place. */
  lemma EffectKeepsPlaced(c: Config, s: System, worker: Worker)
    requires Placed(s) && Grounded(s, worker)
    ensures Placed(Effect(c, s, worker.stage))
  {
    var t := Effect(c, s, worker.stage);
    EffectGrows(c, s, worker.stage);
    forall id | id in t.acked ensures id < t.delivered && Evidence(t, id) {
      EvidenceStays(s, t, id);
    }
    forall id: nat | id < |t.messages| ensures InOnePlace(t, id) {
      assert InOnePlace(s, id);
    }
  }

  lemma ReadKeepsPlaced(s: System)
    requires Placed(s) && s.delivered < |s.messages|
    ensures Placed(Read(s)) && Grows(s, Read(s))
  {
    var t := Read(s);
    forall id | id in t.acked ensures id < t.delivered && Evidence(t, id) {
      EvidenceStays(s, t, id);
    }
    forall id: nat | id < |t.messages| ensures InOnePlace(t, id) {
      assert InOnePlace(s, id);
    }
  }

  /** What a step does besides its effect on the stream, the hashes and the dead letters. */
  lemma SamePlaces(s: System, t: System)
    requires Placed(s) && |t.history| == |t.messages|
    requires t.messages == s.messages && t.delivered == s.delivered && t.pending.Keys == s.pending.Keys
    requires t.acked == s.acked && t.hashes == s.hashes && t.deadLetters == s.deadLetters
    ensures Placed(t)
  {
    forall id: nat | id < |t.messages| ensures InOnePlace(t, id) {
      assert InOnePlace(s, id);
    }
  }

  lemma SubmitKeepsPlaced(s: System, m: Message)
    requires Placed(s)
    ensures Placed(Submit(s, m))
  {
    var t := Submit(s, m);
    forall id | id in t.acked ensures id < t.delivered && Evidence(t, id) {
      EvidenceStays(s, t, id);
    }
    forall id: nat | id < |t.messages| ensures InOnePlace(t, id) {
      if id < |s.messages| {
        assert InOnePlace(s, id);
      }
    }
  }

  lemma OnlyOneWorker(c: Config, s: System, w: nat, ok: bool)
    requires w < |s.workers|
    ensures |Work(c, s, w, ok).workers| == |s.workers|
    ensures forall v :: 0 <= v < |s.workers| && v != w ==> Work(c, s, w, ok).workers[v] == s.workers[v]
  {
    EffectGrows(c, s, s.workers[w].stage);
  }

  lemma WorkKeepsPlaced(c: Config, s: System, w: nat, ok: bool)
    requires Placed(s) && w < |s.workers| && Grounded(s, s.workers[w])
    ensures Placed(Work(c, s, w, ok))
  {
    var stage := s.workers[w].stage;
    if stage.Polling? && s.delivered < |s.messages| {
      ReadKeepsPlaced(s);
      SamePlaces(Read(s), Work(c, s, w, ok));
    } else if Busy(stage) {
      EffectKeepsPlaced(c, s, s.workers[w]);
      EffectGrows(c, s, stage);
      SamePlaces(Effect(c, s, stage), Work(c, s, w, ok));
    } else {
      SamePlaces(s, Work(c, s, w, ok));
    }
  }

  lemma WorkStaysGrounded(c: Config, s: System, w: nat, ok: bool)
    requires w < |s.workers| && Grounded(s, s.workers[w]) && s.delivered <= |s.messages|
    ensures |Work(c, s, w, ok).workers| == |s.workers|
    ensures Grounded(Work(c, s, w, ok), Work(c, s, w, ok).workers[w])
  {
    var worker := s.workers[w];
    OnlyOneWorker(c, s, w, ok);
    if Busy(worker.stage) {
      ProcessGrounded(c, s, w, ok);
    } else if worker.stage.Recovering? && worker.batch != [] {
      assert worker.batch[0] in worker.batch;
      assert forall id :: id in worker.batch[1..] ==> id in worker.batch;
    }
  }

  lemma ProcessGrounded(c: Config, s: System, w: nat, ok: bool)
    requires w < |s.workers| && Busy(s.workers[w].stage)
    requires Grounded(s, s.workers[w]) && s.delivered <= |s.messages|
    ensures |Process(c, s, w, ok).workers| == |s.workers|
    ensures Grounded(Process(c, s, w, ok), Process(c, s, w, ok).workers[w])
  {
    var stage := s.workers[w].stage;
    var t := Process(c, s, w, ok);
    EffectGrows(c, s, stage);
    if stage.Failing? {
      assert stage.id in t.deadLetters;
    }
  }

  lemma DropKeepsSafe(s: System, w: nat, next: Worker)
    requires w < |s.workers| && Placed(s)
    ensures Placed(Drop(s, w, next))
    ensures Drop(s, w, next).workers == s.workers[w := next]
  {
    SamePlaces(s, Drop(s, w, next));
  }

  lemma FaultKeepsSafe(c: Config, s: System, w: nat, applied: bool)
    requires Safe(s) && w < |s.workers|
    ensures Placed(Fault(c, s, w, applied)) && Grounded(Fault(c, s, w, applied), Fault(c, s, w, applied).workers[w])
    ensures forall v :: 0 <= v < |s.workers| && v != w ==> Fault(c, s, w, applied).workers[v] == s.workers[v]
    ensures |Fault(c, s, w, applied).workers| == |s.workers|
  {
    var worker := s.workers[w];
    assert Grounded(s, worker);
    if worker.stage.Polling? && s.delivered < |s.messages| {
      ReadKeepsPlaced(s);
      DropKeepsSafe(Read(s), w, NewWorker);
    } else if Busy(worker.stage) {
      EffectKeepsPlaced(c, s, worker);
      EffectGrows(c, s, worker.stage);
      DropKeepsSafe(Effect(c, s, worker.stage), w, if worker.polled then NewWorker else Onward(worker));
      DropKeepsSafe(s, w, if worker.polled then NewWorker else Onward(worker));
    }
    if !worker.stage.Calling? {
      DropKeepsSafe(s, w, NewWorker);
    }
  }

  lemma StepKeepsSafe(c: Config, s: System, a: Action)
    requires Safe(s)
    ensures Safe(Next(c, s, a))
  {
    var t := Next(c, s, a);
    StepGrows(c, s, a);
    forall v | 0 <= v < |s.workers| ensures Grounded(t, s.workers[v]) {
      StaysGrounded(s, t, s.workers[v]);
    }
    match a {
      case Submits(m) => SubmitKeepsPlaced(s, m);
      case Waits(_) => SamePlaces(s, t);
      case Claims(w, batch) => SamePlaces(s, t);
      case Works(w, ok) =>
        if w < |s.workers| {
          OnlyOneWorker(c, s, w, ok);
          assert Grounded(s, s.workers[w]);
          WorkKeepsPlaced(c, s, w, ok);
          WorkStaysGrounded(c, s, w, ok);
        }
      case Faults(w, applied) =>
        if w < |s.workers| {
          FaultKeepsSafe(c, s, w, applied);
        }
      case Crashes(w) =>
        if w < |s.workers| {
          DropKeepsSafe(s, w, NewWorker);
        }
      case Joins => SamePlaces(s, t);
    }
  }

  lemma {:induction false} RunKeepsSafe(c: Config, s: System, actions: seq<Action>)
    requires Safe(s)
    ensures Safe(Run(c, s, actions))
    decreases |actions|
  {
    if actions != [] {
      StepKeepsSafe(c, s, actions[0]);
      RunKeepsSafe(c, Next(c, s, actions[0]), actions[1..]);
    }
  }

  /** Whatever workers crash, whatever replies are lost and whoever reclaims whose messages: every
      submitted message is undelivered, pending or acknowledged, and only one of these, and an
      acknowledged one was completed or has a dead letter. */
  lemma MessagesAreConserved(c: Config, now: int, actions: seq<Action>, id: nat)
    requires id < |Run(c, Initial(now), actions).messages|
    ensures var s := Run(c, Initial(now), actions);
      InOnePlace(s, id) && (id in s.acked ==> Evidence(s, id))
  {
    RunKeepsSafe(c, Initial(now), actions);
  }
}
