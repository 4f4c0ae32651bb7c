/**
 How often a message is tried, when no message is reclaimed while a worker has it in hand: the
 account kept of every message, and what it comes to.
 */
module TaskAttempts {
  import opened Prelude
  import opened TaskQueue

  /** No reclaimed message is in another worker's hands, and execution ids are new. */
  predicate Exclusive(c: Config, s: System, a: Action) {
    match a
    case Submits(m) => m.executionId !in s.hashes
    case Claims(w, batch) => TakesClaim(c, s, w, batch) ==> NobodyHolds(s, batch)
    case _ => true
  }

  /** The claim is really made. */
  predicate TakesClaim(c: Config, s: System, w: nat, batch: seq<nat>) {
    w < |s.workers| && s.workers[w].stage.Starting? && Claimable(c, s, batch)
  }

  predicate NobodyHolds(s: System, batch: seq<nat>) {
    forall i, v :: 0 <= i < |batch| && 0 <= v < |s.workers| ==> !Holds(s.workers[v], batch[i])
  }

  predicate ExclusiveRun(c: Config, s: System, actions: seq<Action>)
    decreases |actions|
  {
    actions == [] || (Exclusive(c, s, actions[0]) && ExclusiveRun(c, Next(c, s, actions[0]), actions[1..]))
  }

  /** All there is to know about one message, apart from the workers. */
  datatype Ledger = Ledger(hash: Hash, past: History, dead: nat, acked: bool, unread: bool)

  function LedgerOf(s: System, id: nat): Ledger {
    Ledger(HashOf(s, ExecutionOf(s, id)), PastOf(s, id), multiset(s.deadLetters)[id], id in s.acked, id >= s.delivered)
  }

  predicate Clean(l: Ledger) {
    l.past.interruptions == 0
  }

  /** Every call so far has failed. */
  predicate AllFailed(l: Ledger) {
    l.past.failures == l.past.calls == l.past.starts
  }

  /** The last call has not failed, the earlier ones have. */
  predicate LastPending(l: Ledger) {
    l.past.failures + 1 == l.past.calls == l.past.starts
  }

  function Resting(l: Ledger): bool {
    !l.past.open && !l.acked
  }

  /** What holds of every message at every moment. */
  predicate MessageFits(c: Config, l: Ledger) {
    var t := l.past;
    && l.hash.attempt == t.starts && t.failures <= t.calls <= t.starts && !t.early
    && t.starts + 1 <= c.maxAttempts + t.interruptions + (if Resting(l) then 0 else 1)
    && l.hash.retryAt == (if t.recorded.Some? then Some(t.recorded.value + RetryDelay(c, t.starts)) else None)
    && (l.unread ==> t == NoHistory && !l.acked && l.dead == 0)
    && (l.acked ==> !t.open && t.owner.None? && (l.hash.status == Completed || l.hash.status == Failed))
    && (t.open ==> t.owner.Some? && t.recorded.None?)
    && (Clean(l) && Resting(l) ==> AllFailed(l) && l.dead == 0)
    && (Clean(l) && l.acked && l.hash.status == Completed ==> LastPending(l) && l.dead == 0)
    && (Clean(l) && l.acked && l.hash.status == Failed ==> AllFailed(l) && l.dead == 1 && t.starts == c.maxAttempts)
  }

  /** What holds of a message while a worker is at the given stage of processing it. */
  predicate StageFits(c: Config, now: int, stage: Stage, l: Ledger) {
    var t := l.past;
    && !l.acked && !l.unread
    && match stage
       case Reading(_) => Startable(c, now, l)
       case Marking(_, attempt) => Startable(c, now, l) && attempt == l.hash.attempt + 1
       case Calling(_, attempt) => Attempting(l, attempt) && t.failures < t.calls && (Clean(l) ==> LastPending(l) && l.dead == 0)
       case Saving(_, attempt) => Attempting(l, attempt) && (Clean(l) ==> LastPending(l) && l.dead == 0)
       case Delaying(_, attempt, retryAt) =>
         && Attempting(l, attempt) && (Clean(l) ==> AllFailed(l) && l.dead == 0)
         && attempt < c.maxAttempts && retryAt == t.lastFailure + RetryDelay(c, attempt)
       case Burying(_, attempt) =>
         Attempting(l, attempt) && attempt >= c.maxAttempts && (Clean(l) ==> AllFailed(l) && l.dead == 0)
       case Failing(_, attempt, _) =>
         Attempting(l, attempt) && attempt >= c.maxAttempts && (Clean(l) ==> AllFailed(l) && l.dead == 1)
       case Acking(_, success) =>
         && t.open && l.hash.status == (if success then Completed else Failed)
         && (Clean(l) ==> if success then LastPending(l) && l.dead == 0
                          else AllFailed(l) && l.dead == 1 && t.starts >= c.maxAttempts)
       case _ => true
  }

  predicate Startable(c: Config, now: int, l: Ledger) {
    && !l.past.open
    && (l.past.recorded.Some? ==> l.past.recorded.value + RetryDelay(c, l.past.starts) <= now)
  }

  predicate Attempting(l: Ledger, attempt: nat) {
    l.past.open && attempt == l.hash.attempt
  }

  predicate BatchFits(s: System, worker: Worker, id: nat) {
    !PastOf(s, id).open && id !in s.acked && id < s.delivered && !Processing(worker.stage, id)
  }

  predicate Tidy(worker: Worker) {
    (worker.polled || worker.stage.Starting? || worker.stage.Polling? ==> worker.batch == [])
  }

  predicate WorkerFits(c: Config, s: System, worker: Worker) {
    && Tidy(worker)
    && (forall i, j :: 0 <= i < j < |worker.batch| ==> worker.batch[i] != worker.batch[j])
    && (forall id :: id in worker.batch ==> BatchFits(s, worker, id))
    && (Busy(worker.stage) ==> StageFits(c, s.now, worker.stage, LedgerOf(s, worker.stage.id)))
  }

  predicate OwnerFits(s: System, id: nat) {
    var owner := PastOf(s, id).owner;
    && (owner.Some? ==> owner.value < |s.workers| && Holds(s.workers[owner.value], id))
    && forall w :: 0 <= w < |s.workers| && Holds(s.workers[w], id) ==> owner == Some(w)
  }

  predicate NewIds(s: System) {
    && (forall i :: 0 <= i < |s.messages| ==> s.messages[i].executionId in s.hashes)
    && forall i, j :: 0 <= i < j < |s.messages| ==> s.messages[i].executionId != s.messages[j].executionId
  }

  predicate Inv(c: Config, s: System) {
    && c.Valid() && Safe(s) && NewIds(s)
    && (forall id: nat :: id < |s.messages| ==> MessageFits(c, LedgerOf(s, id)) && OwnerFits(s, id))
    && forall w :: 0 <= w < |s.workers| ==> WorkerFits(c, s, s.workers[w])
  }

  // A step about one message -------------------------------------------------

  /** Nothing changes but worker `w` and message `id`, which no other worker holds. */
  ghost predicate Local(s: System, t: System, w: nat, id: nat) {
    && w < |s.workers| == |t.workers| && id < |s.messages|
    && t.now == s.now && t.messages == s.messages && s.delivered <= t.delivered && s.hashes.Keys <= t.hashes.Keys
    && (forall v :: 0 <= v < |s.workers| && v != w ==> t.workers[v] == s.workers[v])
    && (forall j: nat :: j < |s.messages| && j != id ==> LedgerOf(t, j) == LedgerOf(s, j))
    && (forall j: nat :: j != id ==> (Holds(t.workers[w], j) <==> Holds(s.workers[w], j)))
    && (PastOf(s, id).owner == None || PastOf(s, id).owner == Some(w))
    && PastOf(t, id).owner == if Holds(t.workers[w], id) then Some(w) else None
  }

  lemma LocalKeepsOwners(s: System, t: System, w: nat, id: nat, j: nat)
    requires Local(s, t, w, id) && j < |s.messages| && OwnerFits(s, j)
    ensures OwnerFits(t, j)
  {
    if j != id {
      assert PastOf(t, j) == LedgerOf(t, j).past == LedgerOf(s, j).past == PastOf(s, j);
      assert Holds(t.workers[w], j) <==> Holds(s.workers[w], j);
    }
  }

  lemma LocalKeepsWorkers(c: Config, s: System, t: System, w: nat, id: nat, v: nat)
    requires Local(s, t, w, id) && v < |s.workers| && v != w && OwnerFits(s, id)
    requires WorkerFits(c, s, s.workers[v]) && Grounded(s, s.workers[v]) && s.delivered <= |s.messages|
    ensures WorkerFits(c, t, t.workers[v])
  {
    assert !Holds(s.workers[v], id);
    forall j | j in s.workers[v].batch ensures BatchFits(t, t.workers[v], j) {
      assert BatchFits(s, s.workers[v], j);
      assert LedgerOf(t, j) == LedgerOf(s, j);
    }
    if Busy(s.workers[v].stage) {
      assert LedgerOf(t, s.workers[v].stage.id) == LedgerOf(s, s.workers[v].stage.id);
    }
  }

  lemma LocalStep(c: Config, s: System, t: System, w: nat, id: nat)
    requires Inv(c, s) && Safe(t) && Local(s, t, w, id)
    requires MessageFits(c, LedgerOf(t, id)) && WorkerFits(c, t, t.workers[w])
    ensures Inv(c, t)
  {
    forall j: nat | j < |t.messages| ensures MessageFits(c, LedgerOf(t, j)) && OwnerFits(t, j) {
      LocalKeepsOwners(s, t, w, id, j);
    }
    forall v | 0 <= v < |t.workers| ensures WorkerFits(c, t, t.workers[v]) {
      if v != w {
        LocalKeepsWorkers(c, s, t, w, id, v);
      }
    }
  }

  // What a command does to the ledger of its message --------------------------

  function EffectOn(c: Config, now: int, l: Ledger, stage: Stage): Ledger {
    var t, h := l.past, l.hash;
    match stage
    case Marking(_, attempt) =>
      l.(hash := h.(status := Running, attempt := attempt, retryAt := None, failedAt := None),
         past := t.(starts := t.starts + 1, recorded := None, open := true,
                    early := t.early || (t.recorded.Some? && now < t.recorded.value + RetryDelay(c, t.starts))))
    case Saving(_, attempt) =>
      l.(hash := h.(status := Completed, attempt := attempt, completedAt := Some(now), retryAt := None, failedAt := None))
    case Delaying(_, attempt, retryAt) =>
      l.(hash := h.(status := Retrying, attempt := attempt, failedAt := Some(now), retryAt := Some(retryAt)),
         past := t.(recorded := Some(t.lastFailure)))
    case Burying(_, _) => l.(dead := l.dead + 1)
    case Failing(_, attempt, deadLetter) =>
      l.(hash := h.(status := Failed, attempt := attempt, failedAt := Some(now), deadLetter := Some(deadLetter), retryAt := None))
    case Acking(_, _) => l.(acked := true)
    case _ => l
  }

  function Interrupted(l: Ledger): Ledger {
    l.(past := l.past.(interruptions := l.past.interruptions + 1, open := false, owner := None))
  }

  lemma EffectOnMessage(c: Config, s: System, stage: Stage)
    requires Placed(s) && Busy(stage) && stage.id < s.delivered && stage.id !in s.acked
    ensures LedgerOf(Effect(c, s, stage), stage.id) == EffectOn(c, s.now, LedgerOf(s, stage.id), stage)
  {
    assert InOnePlace(s, stage.id);
  }

  /** A command leaves all other messages alone. */
  lemma EffectElsewhere(c: Config, s: System, stage: Stage, j: nat)
    requires Placed(s) && NewIds(s) && Busy(stage) && stage.id < s.delivered && j < |s.messages| && j != stage.id
    ensures LedgerOf(Effect(c, s, stage), j) == LedgerOf(s, j)
  {
    assert ExecutionOf(s, j) != ExecutionOf(s, stage.id);
  }

  lemma EffectKeepsStream(c: Config, s: System, stage: Stage)
    ensures var t := Effect(c, s, stage);
      t.now == s.now && t.messages == s.messages && t.delivered == s.delivered && s.hashes.Keys <= t.hashes.Keys
  {
  }

  /** The stages in their order, in terms of the ledger. */
  predicate Follows(c: Config, now: int, l: Ledger, stage: Stage, ok: bool, next: Stage) {
    match stage
    case Reading(id) => next == Marking(id, l.hash.attempt + 1)
    case Marking(id, attempt) => next == Calling(id, attempt)
    case Calling(id, attempt) =>
      next == if ok then Saving(id, attempt)
              else if attempt >= c.maxAttempts then Burying(id, attempt)
              else Delaying(id, attempt, now + RetryDelay(c, attempt))
    case Saving(id, _) => next == Acking(id, true)
    case Burying(id, attempt) => next.Failing? && next.id == id && next.attempt == attempt
    case Failing(id, _, _) => next == Acking(id, false)
    case _ => !Busy(next)
  }

  /** The heart of the attempt count: a command that succeeds keeps what holds of its message, and
      the next stage starts from what it needs. */
  lemma CommandFits(c: Config, now: int, l: Ledger, stage: Stage, ok: bool, w: nat, next: Stage)
    requires c.Valid() && Busy(stage) && MessageFits(c, l) && StageFits(c, now, stage, l) && l.past.owner == Some(w)
    requires Follows(c, now, l, stage, ok, next)
    ensures var e := EffectOn(c, now, l, stage); var m := e.(past := Noted(e.past, stage, ok, now));
      MessageFits(c, m) && (Busy(next) ==> StageFits(c, now, next, m))
  {
  }

  /** A command that fails, applied or not, leaves a message that fits once the interruption counts. */
  lemma FaultFits(c: Config, now: int, l: Ledger, stage: Stage)
    requires c.Valid() && Busy(stage) && MessageFits(c, l) && StageFits(c, now, stage, l)
    ensures MessageFits(c, Interrupted(l)) && MessageFits(c, Interrupted(EffectOn(c, now, l, stage)))
  {
  }

  // Every action keeps the invariant ------------------------------------------

  /** The batch of a worker is untouched by what the worker does with another message. */
  lemma BatchStays(s: System, t: System, worker: Worker, next: Worker, id: nat)
    requires next.batch == worker.batch && s.delivered <= t.delivered
    requires forall j :: j in worker.batch ==> BatchFits(s, worker, j) && j != id && LedgerOf(t, j) == LedgerOf(s, j)
    requires Busy(next.stage) ==> next.stage.id == id
    ensures forall j :: j in next.batch ==> BatchFits(t, next, j)
  {
    forall j | j in next.batch ensures BatchFits(t, next, j) {
      assert LedgerOf(t, j) == LedgerOf(s, j);
    }
  }

  /** `Process` is the command's effect, then a note in the history and a new stage. */
  lemma ProcessLedgers(c: Config, s: System, w: nat, ok: bool, j: nat)
    requires w < |s.workers| && Busy(s.workers[w].stage) && j < |s.history|
    ensures var t, stage := Effect(c, s, s.workers[w].stage), s.workers[w].stage;
      LedgerOf(Process(c, s, w, ok), j) ==
        if j == stage.id then LedgerOf(t, j).(past := Noted(LedgerOf(t, j).past, stage, ok, s.now)) else LedgerOf(t, j)
  {
    EffectGrows(c, s, s.workers[w].stage);
  }

  lemma ProcessWorker(c: Config, s: System, w: nat, ok: bool)
    requires w < |s.workers| && Busy(s.workers[w].stage)
    ensures var t, worker := Process(c, s, w, ok), s.workers[w];
      && |t.workers| == |s.workers| && t.workers[w].batch == worker.batch
      && (forall v :: 0 <= v < |s.workers| && v != w ==> t.workers[v] == s.workers[v])
      && (Busy(t.workers[w].stage) ==> t.workers[w].stage.id == worker.stage.id)
      && (Busy(t.workers[w].stage) <==> !worker.stage.Delaying? && !worker.stage.Acking?)
      && t.now == s.now && t.messages == s.messages && t.delivered == s.delivered && s.hashes.Keys <= t.hashes.Keys
  {
    EffectGrows(c, s, s.workers[w].stage);
    EffectKeepsStream(c, s, s.workers[w].stage);
  }

  lemma EffectKeepsOwner(c: Config, now: int, l: Ledger, stage: Stage, ok: bool)
    ensures var e := EffectOn(c, now, l, stage);
      Noted(e.past, stage, ok, now).owner == if stage.Delaying? || stage.Acking? then None else l.past.owner
  {
  }

  lemma ProcessLocal(c: Config, s: System, w: nat, ok: bool)
    requires Placed(s) && NewIds(s) && w < |s.workers| && Busy(s.workers[w].stage)
    requires s.workers[w].stage.id < s.delivered && s.workers[w].stage.id !in s.acked
    requires PastOf(s, s.workers[w].stage.id).owner == Some(w)
    requires s.workers[w].stage.id !in s.workers[w].batch
    ensures var t, id, stage := Process(c, s, w, ok), s.workers[w].stage.id, s.workers[w].stage;
      && Local(s, t, w, id)
      && var e := EffectOn(c, s.now, LedgerOf(s, id), stage);
         LedgerOf(t, id) == e.(past := Noted(e.past, stage, ok, s.now))
  {
    var stage, t := s.workers[w].stage, Process(c, s, w, ok);
    var id := stage.id;
    ProcessWorker(c, s, w, ok);
    ProcessLedgers(c, s, w, ok, id);
    EffectOnMessage(c, s, stage);
    EffectKeepsOwner(c, s.now, LedgerOf(s, id), stage, ok);
    assert PastOf(t, id) == LedgerOf(t, id).past && PastOf(s, id) == LedgerOf(s, id).past;
    forall j: nat | j < |s.messages| && j != id ensures LedgerOf(t, j) == LedgerOf(s, j) {
      ProcessLedgers(c, s, w, ok, j);
      EffectElsewhere(c, s, stage, j);
    }
  }

  lemma ProcessFollows(c: Config, s: System, w: nat, ok: bool)
    requires w < |s.workers| && Busy(s.workers[w].stage)
    ensures |Process(c, s, w, ok).workers| == |s.workers|
    ensures Follows(c, s.now, LedgerOf(s, s.workers[w].stage.id), s.workers[w].stage, ok, Process(c, s, w, ok).workers[w].stage)
  {
    ProcessWorker(c, s, w, ok);
  }

  lemma ProcessFits(c: Config, s: System, w: nat, ok: bool, l: Ledger)
    requires c.Valid() && w < |s.workers| && Busy(s.workers[w].stage)
    requires var id := s.workers[w].stage.id; l == LedgerOf(s, id) && MessageFits(c, l) && l.past.owner == Some(w)
    requires StageFits(c, s.now, s.workers[w].stage, l)
    requires var t, id, stage := Process(c, s, w, ok), s.workers[w].stage.id, s.workers[w].stage;
      var e := EffectOn(c, s.now, l, stage); LedgerOf(t, id) == e.(past := Noted(e.past, stage, ok, s.now))
    ensures var t, id := Process(c, s, w, ok), s.workers[w].stage.id;
      && |t.workers| == |s.workers| && MessageFits(c, LedgerOf(t, id))
      && (Busy(t.workers[w].stage) ==> t.workers[w].stage.id == id && StageFits(c, t.now, t.workers[w].stage, LedgerOf(t, id)))
  {
    ProcessWorker(c, s, w, ok);
    ProcessFollows(c, s, w, ok);
    CommandFits(c, s.now, l, s.workers[w].stage, ok, w, Process(c, s, w, ok).workers[w].stage);
  }

  lemma ProcessKeepsBatch(c: Config, s: System, t: System, w: nat, id: nat)
    requires Local(s, t, w, id) && WorkerFits(c, s, s.workers[w]) && Processing(s.workers[w].stage, id)
    requires s.delivered <= |s.messages| && t.workers[w].batch == s.workers[w].batch
    requires Busy(t.workers[w].stage) ==> t.workers[w].stage.id == id
    ensures forall j :: j in t.workers[w].batch ==> BatchFits(t, t.workers[w], j)
  {
    var worker := s.workers[w];
    forall j | j in worker.batch ensures BatchFits(s, worker, j) && j != id && LedgerOf(t, j) == LedgerOf(s, j) {
      assert BatchFits(s, worker, j);
    }
    BatchStays(s, t, worker, t.workers[w], id);
  }

  lemma ProcessKeepsInv(c: Config, s: System, w: nat, ok: bool)
    requires Inv(c, s) && w < |s.workers| && Busy(s.workers[w].stage) && Safe(Process(c, s, w, ok))
    ensures Inv(c, Process(c, s, w, ok))
  {
    var worker, t := s.workers[w], Process(c, s, w, ok);
    var id := worker.stage.id;
    assert Grounded(s, worker) && WorkerFits(c, s, worker) && OwnerFits(s, id) && Holds(s.workers[w], id);
    assert id in worker.batch ==> BatchFits(s, worker, id);
    ProcessLocal(c, s, w, ok);
    ProcessFits(c, s, w, ok, LedgerOf(s, id));
    ProcessWorker(c, s, w, ok);
    ProcessKeepsBatch(c, s, t, w, id);
    LocalStep(c, s, t, w, id);
  }

  /** A store state from which worker `w` can drop what it holds: everything fits once the message it
      processes counts as interrupted. */
  predicate Droppable(c: Config, u: System, w: nat) {
    && c.Valid() && NewIds(u) && w < |u.workers| && |u.history| == |u.messages| && u.delivered <= |u.messages|
    && (forall j: nat :: j < |u.messages| ==>
          MessageFits(c, if Processing(u.workers[w].stage, j) then Interrupted(LedgerOf(u, j)) else LedgerOf(u, j)))
    && Tidy(u.workers[w])
    && (forall j: nat :: j < |u.messages| ==> OwnerFits(u, j))
    && (forall v :: 0 <= v < |u.workers| && v != w ==> WorkerFits(c, u, u.workers[v]) && Placeable(u, u.workers[v]))
    && (forall i, j :: 0 <= i < j < |u.workers[w].batch| ==> u.workers[w].batch[i] != u.workers[w].batch[j])
    && forall id :: id in u.workers[w].batch ==> BatchFits(u, u.workers[w], id)
  }

  predicate Placeable(u: System, worker: Worker) {
    && (forall id :: id in worker.batch ==> id < |u.messages|)
    && (Busy(worker.stage) ==> worker.stage.id < |u.messages|)
  }

  lemma DroppedFits(c: Config, u: System, w: nat, next: Worker, j: nat)
    requires Droppable(c, u, w) && j < |u.messages|
    requires next == NewWorker || next == Onward(u.workers[w])
    ensures MessageFits(c, LedgerOf(Drop(u, w, next), j)) && OwnerFits(Drop(u, w, next), j)
  {
    var t := Drop(u, w, next);
    var worker := u.workers[w];
    assert LedgerOf(t, j) == LedgerOf(u, j).(past := Dropped(LedgerOf(u, j).past, worker, next, j));
    assert OwnerFits(u, j);
    if !Processing(worker.stage, j) && j in worker.batch {
      assert BatchFits(u, worker, j);
    }
    assert Holds(next, j) ==> j in worker.batch;
  }

  lemma OthersKeepWhenDropped(c: Config, u: System, w: nat, next: Worker, v: nat)
    requires Droppable(c, u, w) && v < |u.workers| && v != w
    ensures WorkerFits(c, Drop(u, w, next), u.workers[v])
  {
    var t, other := Drop(u, w, next), u.workers[v];
    assert WorkerFits(c, u, other) && Placeable(u, other);
    forall id | id in other.batch ensures BatchFits(t, other, id) {
      assert BatchFits(u, other, id) && OwnerFits(u, id) && Holds(other, id);
      assert !Holds(u.workers[w], id);
    }
    if Busy(other.stage) {
      assert OwnerFits(u, other.stage.id) && Holds(other, other.stage.id);
      assert !Holds(u.workers[w], other.stage.id);
      assert LedgerOf(t, other.stage.id) == LedgerOf(u, other.stage.id);
    }
  }

  lemma DropFits(c: Config, u: System, w: nat, next: Worker)
    requires Droppable(c, u, w) && Safe(Drop(u, w, next))
    requires next == NewWorker || next == Onward(u.workers[w])
    ensures Inv(c, Drop(u, w, next))
  {
    var t := Drop(u, w, next);
    forall j: nat | j < |t.messages| ensures MessageFits(c, LedgerOf(t, j)) && OwnerFits(t, j) {
      DroppedFits(c, u, w, next, j);
    }
    forall v | 0 <= v < |t.workers| ensures WorkerFits(c, t, t.workers[v]) {
      if v != w {
        OthersKeepWhenDropped(c, u, w, next, v);
      } else {
        forall id | id in next.batch ensures BatchFits(t, next, id) {
          assert BatchFits(u, u.workers[w], id);
        }
      }
    }
  }

  /** Between commands. */
  lemma InvDroppable(c: Config, s: System, w: nat)
    requires Inv(c, s) && w < |s.workers|
    ensures Droppable(c, s, w)
  {
    var worker := s.workers[w];
    assert WorkerFits(c, s, worker);
    forall j: nat | j < |s.messages| && Processing(worker.stage, j) ensures MessageFits(c, Interrupted(LedgerOf(s, j))) {
      FaultFits(c, s.now, LedgerOf(s, j), worker.stage);
    }
    forall v | 0 <= v < |s.workers| ensures Placeable(s, s.workers[v]) {
      assert Grounded(s, s.workers[v]);
    }
  }

  /** After a command took effect that the worker saw fail. */
  lemma EffectDroppable(c: Config, s: System, w: nat)
    requires Inv(c, s) && w < |s.workers| && Busy(s.workers[w].stage)
    ensures Droppable(c, Effect(c, s, s.workers[w].stage), w)
  {
    var worker := s.workers[w];
    var id, u := worker.stage.id, Effect(c, s, worker.stage);
    assert WorkerFits(c, s, worker) && Grounded(s, worker);
    InvDroppable(c, s, w);
    EffectGrows(c, s, worker.stage);
    EffectKeepsStream(c, s, worker.stage);
    EffectOnMessage(c, s, worker.stage);
    FaultFits(c, s.now, LedgerOf(s, id), worker.stage);
    EffectKeepsOwner(c, s.now, LedgerOf(s, id), worker.stage, true);
    forall j: nat | j < |s.messages| && j != id ensures LedgerOf(u, j) == LedgerOf(s, j) {
      EffectElsewhere(c, s, worker.stage, j);
    }
    ElsewhereDroppable(c, s, u, w, id);
  }

  /** A change to the ledger of the one message the worker processes, with its owner kept. */
  lemma ElsewhereDroppable(c: Config, s: System, u: System, w: nat, id: nat)
    requires Droppable(c, s, w) && Processing(s.workers[w].stage, id) && id < |s.messages|
    requires u.workers == s.workers && u.now == s.now && u.messages == s.messages && |u.history| == |u.messages|
    requires s.delivered <= u.delivered <= |s.messages| && s.hashes.Keys <= u.hashes.Keys
    requires forall j: nat :: j < |s.messages| && j != id ==> LedgerOf(u, j) == LedgerOf(s, j)
    requires MessageFits(c, Interrupted(LedgerOf(u, id))) && PastOf(u, id).owner == PastOf(s, id).owner
    ensures Droppable(c, u, w)
  {
    var worker := s.workers[w];
    forall j: nat | j < |u.messages| ensures OwnerFits(u, j) {
      assert OwnerFits(s, j) && PastOf(u, j) == LedgerOf(u, j).past && PastOf(s, j) == LedgerOf(s, j).past;
    }
    forall v | 0 <= v < |u.workers| && v != w ensures WorkerFits(c, u, u.workers[v]) && Placeable(u, u.workers[v]) {
      var other := u.workers[v];
      assert WorkerFits(c, s, other) && Placeable(s, other) && OwnerFits(s, id) && Holds(worker, id);
      assert !Holds(other, id);
      forall j | j in other.batch ensures BatchFits(u, other, j) {
        assert BatchFits(s, other, j) && LedgerOf(u, j) == LedgerOf(s, j);
      }
    }
    forall j | j in worker.batch ensures BatchFits(u, worker, j) {
      assert BatchFits(s, worker, j);
      assert LedgerOf(u, j) == LedgerOf(s, j);
    }
  }

  lemma LedgerRead(s: System, j: nat)
    requires s.delivered < |s.messages|
    ensures LedgerOf(Read(s), j) == LedgerOf(s, j).(unread := j >= s.delivered + 1)
  {
  }

  /** A message that is read but never handed over changes nothing else. */
  lemma ReadDroppable(c: Config, s: System, w: nat)
    requires Inv(c, s) && w < |s.workers| && s.workers[w].stage.Polling? && s.delivered < |s.messages|
    ensures Droppable(c, Read(s), w)
  {
    var u := Read(s);
    InvDroppable(c, s, w);
    forall j: nat | j < |u.messages| ensures MessageFits(c, LedgerOf(u, j)) && OwnerFits(u, j) {
      LedgerRead(s, j);
      assert OwnerFits(s, j);
    }
    forall v | 0 <= v < |u.workers| ensures WorkerFits(c, u, u.workers[v]) && Placeable(u, u.workers[v]) {
      var other := u.workers[v];
      assert WorkerFits(c, s, other) && Grounded(s, other);
      forall j | j in other.batch ensures BatchFits(u, other, j) {
        assert BatchFits(s, other, j);
      }
      if Busy(other.stage) {
        LedgerRead(s, other.stage.id);
      }
    }
  }

  lemma FaultKeepsInv(c: Config, s: System, w: nat, applied: bool)
    requires Inv(c, s) && w < |s.workers| && Safe(Fault(c, s, w, applied))
    ensures Inv(c, Fault(c, s, w, applied))
  {
    var worker := s.workers[w];
    InvDroppable(c, s, w);
    match worker.stage {
      case Starting =>
      case Calling(_, _) =>
      case Recovering => DropFits(c, s, w, NewWorker);
      case Polling =>
        if applied && s.delivered < |s.messages| {
          ReadDroppable(c, s, w);
          DropFits(c, Read(s), w, NewWorker);
        } else {
          DropFits(c, s, w, NewWorker);
        }
      case _ =>
        var u := if applied then Effect(c, s, worker.stage) else s;
        EffectGrows(c, s, worker.stage);
        EffectDroppable(c, s, w);
        DropFits(c, u, w, if worker.polled then NewWorker else Onward(worker));
    }
  }

  lemma RecoverKeepsBatch(c: Config, s: System, w: nat)
    requires w < |s.workers| && s.workers[w].stage.Recovering? && s.workers[w].batch != []
    requires WorkerFits(c, s, s.workers[w]) && MessageFits(c, LedgerOf(s, s.workers[w].batch[0]))
    ensures WorkerFits(c, Recover(s, w), Recover(s, w).workers[w])
  {
    var worker, t := s.workers[w], Recover(s, w);
    var id, rest := worker.batch[0], worker.batch[1..];
    assert BatchFits(s, worker, id);
    forall j | j in rest ensures BatchFits(t, t.workers[w], j) && j != id {
      assert j in worker.batch && BatchFits(s, worker, j);
    }
  }

  /** Looking at the next reclaimed message. One that is taken on has waited out its delay. */
  lemma RecoverKeepsInv(c: Config, s: System, w: nat)
    requires Inv(c, s) && w < |s.workers| && s.workers[w].stage.Recovering? && s.workers[w].batch != []
    requires Safe(Recover(s, w))
    ensures Inv(c, Recover(s, w))
  {
    var worker, t := s.workers[w], Recover(s, w);
    var id, rest := worker.batch[0], worker.batch[1..];
    assert Grounded(s, worker) && WorkerFits(c, s, worker) && BatchFits(s, worker, id) && OwnerFits(s, id) && Holds(worker, id);
    RecoverKeepsBatch(c, s, w);
    forall j ensures j in worker.batch <==> j == id || j in rest {
      assert worker.batch == [id] + rest;
    }
    forall j: nat | j < |s.messages| && j != id ensures LedgerOf(t, j) == LedgerOf(s, j) {
    }
    LocalStep(c, s, t, w, id);
  }

  lemma IdleKeepsInv(c: Config, s: System, w: nat, next: Worker)
    requires Inv(c, s) && w < |s.workers| && !Busy(s.workers[w].stage) && s.workers[w].batch == next.batch && !Busy(next.stage)
    requires Tidy(next)
    requires Safe(SetWorker(s, w, next))
    ensures Inv(c, SetWorker(s, w, next))
  {
    var t := SetWorker(s, w, next);
    assert WorkerFits(c, s, s.workers[w]);
    forall v | 0 <= v < |t.workers| ensures WorkerFits(c, t, t.workers[v]) {
      assert WorkerFits(c, s, s.workers[v]);
      forall id | id in t.workers[v].batch ensures BatchFits(t, t.workers[v], id) {
        assert BatchFits(s, s.workers[v], id);
      }
      if Busy(t.workers[v].stage) {
        assert LedgerOf(t, t.workers[v].stage.id) == LedgerOf(s, t.workers[v].stage.id);
      }
    }
    forall j: nat | j < |t.messages| ensures MessageFits(c, LedgerOf(t, j)) && OwnerFits(t, j) {
      assert LedgerOf(t, j) == LedgerOf(s, j) && OwnerFits(s, j);
    }
  }

  lemma PollKeepsInv(c: Config, s: System, w: nat)
    requires Inv(c, s) && w < |s.workers| && s.workers[w].stage.Polling? && Safe(Poll(s, w))
    ensures Inv(c, Poll(s, w))
  {
    var t, id := Poll(s, w), s.delivered;
    assert WorkerFits(c, s, s.workers[w]);
    if id >= |s.messages| {
      IdleKeepsInv(c, s, w, NewWorker);
    } else {
      assert OwnerFits(s, id) && LedgerOf(s, id).unread;
      assert PastOf(s, id) == LedgerOf(s, id).past;
      forall j: nat | j < |s.messages| && j != id ensures LedgerOf(t, j) == LedgerOf(s, j) {
        LedgerRead(s, j);
      }
      LocalStep(c, s, t, w, id);
    }
  }

  lemma ClaimKeepsInv(c: Config, s: System, w: nat, batch: seq<nat>)
    requires Inv(c, s) && w < |s.workers| && s.workers[w].stage.Starting? && Claimable(c, s, batch)
    requires NobodyHolds(s, batch) && Safe(Claim(s, w, batch))
    ensures Inv(c, Claim(s, w, batch))
  {
    var t := Claim(s, w, batch);
    assert WorkerFits(c, s, s.workers[w]);
    forall id | id in batch ensures id < s.delivered && !LedgerOf(s, id).past.open && id !in s.acked && PastOf(s, id).owner == None {
      ClaimedIsFree(c, s, w, batch, id);
    }
    forall j: nat | j < |t.messages| ensures MessageFits(c, LedgerOf(t, j)) && OwnerFits(t, j) {
      assert OwnerFits(s, j);
      assert LedgerOf(t, j) == LedgerOf(s, j).(past := LedgerOf(t, j).past);
      assert PastOf(t, j) == if j in batch then PastOf(s, j).(owner := Some(w)) else PastOf(s, j);
      assert Holds(t.workers[w], j) <==> j in batch;
    }
    forall v | 0 <= v < |t.workers| ensures WorkerFits(c, t, t.workers[v]) {
      if v != w {
        OthersKeepWhenClaimed(c, s, w, batch, v);
      }
    }
  }

  /** A pending message in nobody's hands has no unresolved start. */
  lemma ClaimedIsFree(c: Config, s: System, w: nat, batch: seq<nat>, id: nat)
    requires Inv(c, s) && Claimable(c, s, batch) && NobodyHolds(s, batch) && id in batch
    ensures id < s.delivered && !LedgerOf(s, id).past.open && id !in s.acked && PastOf(s, id).owner == None
  {
    assert InOnePlace(s, id) && OwnerFits(s, id) && MessageFits(c, LedgerOf(s, id));
    assert LedgerOf(s, id).past == PastOf(s, id);
  }

  lemma OthersKeepWhenClaimed(c: Config, s: System, w: nat, batch: seq<nat>, v: nat)
    requires Inv(c, s) && w < |s.workers| && v < |s.workers| && NobodyHolds(s, batch)
    ensures WorkerFits(c, Claim(s, w, batch), s.workers[v])
  {
    var t, other := Claim(s, w, batch), s.workers[v];
    assert WorkerFits(c, s, other) && Grounded(s, other);
    forall id | id in other.batch ensures BatchFits(t, other, id) {
      assert BatchFits(s, other, id) && Holds(other, id);
    }
    if Busy(other.stage) {
      assert Holds(other, other.stage.id);
      assert LedgerOf(t, other.stage.id) == LedgerOf(s, other.stage.id);
    }
  }

  /** A submission makes the message and its execution's hash together: the message is the last of
      the stream, unread, and its hash is queued with no attempt made. */
  lemma NewMessageFits(c: Config, s: System, m: Message)
    requires c.Valid() && Safe(s) && m.executionId !in s.hashes
    ensures var t, id := Submit(s, m), |s.messages|;
      && t.messages == s.messages + [m] && Undelivered(t, id) && InOnePlace(t, id) && t.pending == s.pending
      && t.hashes.Keys == s.hashes.Keys + {m.executionId}
      && t.hashes[m.executionId] == Hash(Queued, 0, None, None, None, None)
      && MessageFits(c, LedgerOf(t, id))
  {
    var id := |s.messages|;
    assert id !in s.acked && id !in s.deadLetters && id !in s.pending;
  }

  lemma SubmitKeepsInv(c: Config, s: System, m: Message)
    requires Inv(c, s) && m.executionId !in s.hashes && Safe(Submit(s, m))
    ensures Inv(c, Submit(s, m))
  {
    var t := Submit(s, m);
    forall j: nat | j < |s.messages| ensures LedgerOf(t, j) == LedgerOf(s, j) {
      assert ExecutionOf(s, j) in s.hashes;
    }
    forall v | 0 <= v < |t.workers| ensures WorkerFits(c, t, t.workers[v]) {
      var other := s.workers[v];
      assert WorkerFits(c, s, other) && Grounded(s, other);
      forall id | id in other.batch ensures BatchFits(t, other, id) {
        assert BatchFits(s, other, id) && LedgerOf(t, id) == LedgerOf(s, id);
      }
    }
    forall j: nat | j < |t.messages| ensures MessageFits(c, LedgerOf(t, j)) && OwnerFits(t, j) {
      if j < |s.messages| {
        assert OwnerFits(s, j) && LedgerOf(t, j) == LedgerOf(s, j);
      } else {
        NewMessageFits(c, s, m);
        NewMessageFree(s, m);
      }
    }
  }

  lemma NewMessageFree(s: System, m: Message)
    requires Safe(s)
    ensures OwnerFits(Submit(s, m), |s.messages|)
  {
    forall w | 0 <= w < |s.workers| ensures !Holds(s.workers[w], |s.messages|) {
      assert Grounded(s, s.workers[w]);
    }
  }

  lemma WaitKeepsInv(c: Config, s: System, until: int)
    requires Inv(c, s) && s.now <= until && Safe(s.(now := until))
    ensures Inv(c, s.(now := until))
  {
    var t := s.(now := until);
    forall v | 0 <= v < |t.workers| ensures WorkerFits(c, t, t.workers[v]) {
      var other := s.workers[v];
      assert WorkerFits(c, s, other);
      forall id | id in other.batch ensures BatchFits(t, other, id) {
        assert BatchFits(s, other, id);
      }
      if Busy(other.stage) {
        assert LedgerOf(t, other.stage.id) == LedgerOf(s, other.stage.id);
      }
    }
    forall j: nat | j < |t.messages| ensures MessageFits(c, LedgerOf(t, j)) && OwnerFits(t, j) {
      assert OwnerFits(s, j) && LedgerOf(t, j) == LedgerOf(s, j);
    }
  }

  lemma JoinKeepsInv(c: Config, s: System)
    requires Inv(c, s) && Safe(Next(c, s, Joins))
    ensures Inv(c, Next(c, s, Joins))
  {
    var t := Next(c, s, Joins);
    forall v | 0 <= v < |t.workers| ensures WorkerFits(c, t, t.workers[v]) {
      if v < |s.workers| {
        var other := s.workers[v];
        assert WorkerFits(c, s, other);
        forall id | id in other.batch ensures BatchFits(t, other, id) {
          assert BatchFits(s, other, id);
        }
        if Busy(other.stage) {
          assert LedgerOf(t, other.stage.id) == LedgerOf(s, other.stage.id);
        }
      }
    }
    forall j: nat | j < |t.messages| ensures MessageFits(c, LedgerOf(t, j)) && OwnerFits(t, j) {
      assert OwnerFits(s, j) && LedgerOf(t, j) == LedgerOf(s, j);
    }
  }

  lemma WorkKeepsInv(c: Config, s: System, w: nat, ok: bool)
    requires Inv(c, s) && w < |s.workers| && Safe(Work(c, s, w, ok))
    ensures Inv(c, Work(c, s, w, ok))
  {
    var worker := s.workers[w];
    match worker.stage {
      case Starting =>
      case Recovering =>
        if worker.batch == [] {
          IdleKeepsInv(c, s, w, worker.(stage := Polling));
        } else {
          RecoverKeepsInv(c, s, w);
        }
      case Polling => PollKeepsInv(c, s, w);
      case _ => ProcessKeepsInv(c, s, w, ok);
    }
  }

  lemma StepKeepsInv(c: Config, s: System, a: Action)
    requires Inv(c, s) && Exclusive(c, s, a)
    ensures Inv(c, Next(c, s, a))
  {
    StepKeepsSafe(c, s, a);
    match a {
      case Submits(m) => SubmitKeepsInv(c, s, m);
      case Waits(until) =>
        if s.now <= until {
          WaitKeepsInv(c, s, until);
        }
      case Claims(w, batch) =>
        if w < |s.workers| && s.workers[w].stage.Starting? && Claimable(c, s, batch) {
          ClaimKeepsInv(c, s, w, batch);
        }
      case Works(w, ok) =>
        if w < |s.workers| {
          WorkKeepsInv(c, s, w, ok);
        }
      case Faults(w, applied) =>
        if w < |s.workers| {
          FaultKeepsInv(c, s, w, applied);
        }
      case Crashes(w) =>
        if w < |s.workers| {
          InvDroppable(c, s, w);
          DropFits(c, s, w, NewWorker);
        }
      case Joins => JoinKeepsInv(c, s);
    }
  }

  lemma {:induction false} RunKeepsInv(c: Config, s: System, actions: seq<Action>)
    requires Inv(c, s) && ExclusiveRun(c, s, actions)
    ensures Inv(c, Run(c, s, actions))
    decreases |actions|
  {
    if actions != [] {
      StepKeepsInv(c, s, actions[0]);
      RunKeepsInv(c, Next(c, s, actions[0]), actions[1..]);
    }
  }

  // ---------------------------------------------------------------------------
  // What it comes to
  // ---------------------------------------------------------------------------

  /** A message is never given more calls than the limit and one more for every interruption. */
  lemma AttemptsAreBounded(c: Config, now: int, actions: seq<Action>, id: nat)
    requires c.Valid() && ExclusiveRun(c, Initial(now), actions)
    requires id < |Run(c, Initial(now), actions).messages|
    ensures var t := PastOf(Run(c, Initial(now), actions), id);
      t.failures <= t.calls <= t.starts <= c.maxAttempts + t.interruptions
  {
    RunKeepsInv(c, Initial(now), actions);
    var s := Run(c, Initial(now), actions);
    assert MessageFits(c, LedgerOf(s, id)) && PastOf(s, id) == LedgerOf(s, id).past;
  }

  /** After the n-th failure was recorded, the message is not started again before the time of that
      failure plus the n-th delay. */
  lemma RetriesWait(c: Config, now: int, actions: seq<Action>, id: nat)
    requires c.Valid() && ExclusiveRun(c, Initial(now), actions)
    requires id < |Run(c, Initial(now), actions).messages|
    ensures !PastOf(Run(c, Initial(now), actions), id).early
  {
    RunKeepsInv(c, Initial(now), actions);
    var s := Run(c, Initial(now), actions);
    assert MessageFits(c, LedgerOf(s, id)) && PastOf(s, id) == LedgerOf(s, id).past;
  }

  /** A message that was never interrupted: a dead letter names it at most once, and only after all
      `maxAttempts` calls failed; once acknowledged, it has one if all those calls failed and none if
      the last call succeeded; and in nobody's hands but unfinished, it has had fewer failures. */
  lemma DeadLettersAreExact(c: Config, now: int, actions: seq<Action>, id: nat)
    requires c.Valid() && ExclusiveRun(c, Initial(now), actions)
    requires id < |Run(c, Initial(now), actions).messages|
    requires PastOf(Run(c, Initial(now), actions), id).interruptions == 0
    ensures var s := Run(c, Initial(now), actions); var l := LedgerOf(s, id);
      && (l.dead > 0 ==> l.dead == 1 && l.past.failures == l.past.calls == c.maxAttempts)
      && (l.acked ==> (l.dead == 1 <==> l.past.failures == c.maxAttempts))
      && (l.acked ==> l.hash.status == if l.past.failures == c.maxAttempts then Failed else Completed)
      && (!l.acked && l.past.owner.None? ==> l.past.failures == l.past.calls < c.maxAttempts && l.dead == 0)
  {
    RunKeepsInv(c, Initial(now), actions);
    var s := Run(c, Initial(now), actions);
    var l := LedgerOf(s, id);
    assert MessageFits(c, l) && OwnerFits(s, id) && PastOf(s, id) == l.past;
    if l.past.open {
      var worker := s.workers[l.past.owner.value];
      assert WorkerFits(c, s, worker);
      assert id in worker.batch ==> BatchFits(s, worker, id);
    }
  }

  /** Once acknowledged, a message's execution keeps its hash, completed or failed, for good. */
  lemma {:induction false} AckedIsFinal(c: Config, s: System, actions: seq<Action>, id: nat)
    requires Inv(c, s) && ExclusiveRun(c, s, actions) && id in s.acked
    ensures id in Run(c, s, actions).acked
    ensures HashOf(Run(c, s, actions), ExecutionOf(s, id)) == HashOf(s, ExecutionOf(s, id))
    ensures HashOf(s, ExecutionOf(s, id)).status in {Completed, Failed}
    decreases |actions|
  {
    assert MessageFits(c, LedgerOf(s, id));
    if actions != [] {
      var t := Next(c, s, actions[0]);
      StepKeepsInv(c, s, actions[0]);
      StepGrows(c, s, actions[0]);
      AckedStaysPut(c, s, actions[0], id);
      assert ExecutionOf(t, id) == ExecutionOf(s, id);
      AckedIsFinal(c, t, actions[1..], id);
    }
  }

  /** A command about another message leaves the execution of this one alone. */
  lemma EffectSparesHash(c: Config, s: System, stage: Stage, id: nat)
    requires NewIds(s) && id < |s.messages| && (Busy(stage) ==> stage.id < |s.messages| && stage.id != id)
    ensures HashOf(Effect(c, s, stage), ExecutionOf(s, id)) == HashOf(s, ExecutionOf(s, id))
  {
    assert Busy(stage) ==> ExecutionOf(s, stage.id) != ExecutionOf(s, id);
  }

  lemma WorkHashes(c: Config, s: System, w: nat, ok: bool)
    requires w < |s.workers|
    ensures Work(c, s, w, ok).hashes == Effect(c, s, s.workers[w].stage).hashes
  {
  }

  lemma FaultHashes(c: Config, s: System, w: nat, applied: bool)
    requires w < |s.workers|
    ensures Fault(c, s, w, applied).hashes in {s.hashes, Effect(c, s, s.workers[w].stage).hashes}
  {
  }

  lemma AckedStaysPut(c: Config, s: System, a: Action, id: nat)
    requires Inv(c, s) && Exclusive(c, s, a) && id in s.acked
    ensures HashOf(Next(c, s, a), ExecutionOf(s, id)) == HashOf(s, ExecutionOf(s, id))
  {
    assert ExecutionOf(s, id) in s.hashes;
    var w := match a case Works(w, _) => w case Faults(w, _) => w case _ => |s.workers|;
    if w < |s.workers| {
      assert WorkerFits(c, s, s.workers[w]) && Grounded(s, s.workers[w]);
      EffectSparesHash(c, s, s.workers[w].stage, id);
      WorkHashes(c, s, w, a.Works? && a.ok);
      FaultHashes(c, s, w, a.Faults? && a.applied);
    }
  }

  /** No hash is ever dropped. */
  lemma StepKeepsHashes(c: Config, s: System, a: Action)
    ensures s.hashes.Keys <= Next(c, s, a).hashes.Keys
  {
    var w := match a case Works(w, _) => w case Faults(w, _) => w case _ => |s.workers|;
    if w < |s.workers| {
      WorkHashes(c, s, w, a.Works? && a.ok);
      FaultHashes(c, s, w, a.Faults? && a.applied);
      EffectKeepsStream(c, s, s.workers[w].stage);
    }
  }

  predicate Hashed(s: System) {
    forall id :: 0 <= id < |s.messages| ==> s.messages[id].executionId in s.hashes
  }

  lemma StepKeepsHashed(c: Config, s: System, a: Action)
    requires Hashed(s)
    ensures Hashed(Next(c, s, a))
  {
    StepKeepsHashes(c, s, a);
    MessagesAfter(c, s, a);
  }

  lemma MessagesAfter(c: Config, s: System, a: Action)
    ensures Next(c, s, a).messages == if a.Submits? then s.messages + [a.message] else s.messages
  {
    var w := match a case Works(w, _) => w case Faults(w, _) => w case _ => |s.workers|;
    if w < |s.workers| {
      EffectKeepsStream(c, s, s.workers[w].stage);
    }
  }

  /** In every run, whoever claims what: a worker never sees a message before its execution's hash. */
  lemma {:induction false} HashComesWithMessage(c: Config, s: System, actions: seq<Action>)
    requires Hashed(s)
    ensures Hashed(Run(c, s, actions))
    decreases |actions|
  {
    if actions != [] {
      StepKeepsHashed(c, s, actions[0]);
      HashComesWithMessage(c, Next(c, s, actions[0]), actions[1..]);
    }
  }
}
