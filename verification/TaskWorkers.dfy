/**
 One worker on its own: `process`, `deadLetter` and `recoverPending` as they are written, and their
 agreement with the worker that takes one command at a time.
 */
module TaskWorkers {
  import opened Prelude
  import opened TaskQueue
  import opened TaskAttempts

  /** The part of the system that lives in the store. */
  datatype Store = Store(
    pending: map<nat, int>,
    acked: set<nat>,
    hashes: map<string, Hash>,
    deadLetters: seq<nat>)

  function StoreOf(s: System): Store {
    Store(s.pending, s.acked, s.hashes, s.deadLetters)
  }

  function HashIn(st: Store, executionId: string): Hash {
    if executionId in st.hashes then st.hashes[executionId] else NoHash
  }

  function Write(st: Store, executionId: string, h: Hash): Store {
    st.(hashes := st.hashes[executionId := h])
  }

  function Acknowledge(st: Store, id: nat): Store {
    if id in st.pending then st.(pending := st.pending - {id}, acked := st.acked + {id}) else st
  }

  /** The times at which an attempt reads the clock: when the agent has answered, and when the worker
      saves what became of it. */
  datatype Times = Times(answered: int, saved: int)

  /** What processing one message comes to when nothing interrupts it. */
  function Settle(c: Config, st: Store, id: nat, executionId: string, ok: bool, at: Times): Store {
    if executionId == "" then st else
    var h := HashIn(st, executionId);
    var attempt := h.attempt + 1;
    var started := h.(attempt := attempt, retryAt := None, failedAt := None);
    if ok then
      Acknowledge(Write(st, executionId, started.(status := Completed, completedAt := Some(at.saved))), id)
    else if attempt >= c.maxAttempts then
      Acknowledge(
        Write(st.(deadLetters := st.deadLetters + [id]), executionId,
              started.(status := Failed, failedAt := Some(at.saved), deadLetter := Some(|st.deadLetters|))),
        id)
    else
      Write(st, executionId,
            started.(status := Retrying, failedAt := Some(at.saved), retryAt := Some(at.answered + RetryDelay(c, attempt))))
  }

  // ---------------------------------------------------------------------------
  // Command by command
  // ---------------------------------------------------------------------------

  /** How many commands a stage is from the end, at most. */
  function Rank(stage: Stage): nat {
    match stage
    case Reading(_) => 6
    case Marking(_, _) => 5
    case Calling(_, _) => 4
    case Burying(_, _) => 3
    case Saving(_, _) => 2
    case Delaying(_, _, _) => 2
    case Failing(_, _, _) => 2
    case Acking(_, _) => 1
    case _ => 0
  }

  /** A command, told on the store alone: what it leaves there and what the worker does next. */
  function Command(c: Config, st: Store, executionId: string, stage: Stage, ok: bool, now: int): (Store, Option<Stage>) {
    var h := HashIn(st, executionId);
    match stage
    case Reading(id) => (st, Some(Marking(id, h.attempt + 1)))
    case Marking(id, attempt) =>
      (Write(st, executionId, h.(status := Running, attempt := attempt, retryAt := None, failedAt := None)),
       Some(Calling(id, attempt)))
    case Calling(id, attempt) =>
      (st, Some(if ok then Saving(id, attempt)
                else if attempt >= c.maxAttempts then Burying(id, attempt)
                else Delaying(id, attempt, now + RetryDelay(c, attempt))))
    case Saving(id, attempt) =>
      (Write(st, executionId, h.(status := Completed, attempt := attempt, completedAt := Some(now), retryAt := None, failedAt := None)),
       Some(Acking(id, true)))
    case Delaying(_, attempt, retryAt) =>
      (Write(st, executionId, h.(status := Retrying, attempt := attempt, failedAt := Some(now), retryAt := Some(retryAt))), None)
    case Burying(id, attempt) => (st.(deadLetters := st.deadLetters + [id]), Some(Failing(id, attempt, |st.deadLetters|)))
    case Failing(id, attempt, deadLetter) =>
      (Write(st, executionId,
             h.(status := Failed, attempt := attempt, failedAt := Some(now), deadLetter := Some(deadLetter), retryAt := None)),
       Some(Acking(id, false)))
    case Acking(id, _) => (Acknowledge(st, id), None)
    case _ => (st, None)
  }

  lemma WorkCommands(c: Config, s: System, w: nat, ok: bool)
    requires w < |s.workers| && Busy(s.workers[w].stage)
    ensures var t, stage := Work(c, s, w, ok), s.workers[w].stage;
      var (store, next) := Command(c, StoreOf(s), ExecutionOf(s, stage.id), stage, ok, s.now);
      && |t.workers| == |s.workers| && t.now == s.now && t.messages == s.messages && StoreOf(t) == store
      && (if next.Some? then t.workers[w].stage == next.value && next.value.id == stage.id else !Busy(t.workers[w].stage))
  {
    ProcessWorker(c, s, w, ok);
  }

  lemma CommandRank(c: Config, st: Store, executionId: string, stage: Stage, ok: bool, now: int)
    ensures var next := Command(c, st, executionId, stage, ok, now).1;
      next.Some? ==> Rank(next.value) < Rank(stage)
  {
  }

  /** A clock that shows `clock(r)` at a command of rank r, and never runs backwards. */
  ghost predicate Runs(clock: nat -> int) {
    forall q: nat, r: nat :: q <= r ==> clock(r) <= clock(q)
  }

  /** Time passes, and the worker takes its next command. */
  function Tick(c: Config, s: System, w: nat, ok: bool, clock: nat -> int): System
    requires w < |s.workers|
  {
    Work(c, Next(c, s, Waits(clock(Rank(s.workers[w].stage)))), w, ok)
  }

  lemma RankFalls(c: Config, s: System, w: nat, ok: bool, clock: nat -> int)
    requires w < |s.workers| && Busy(s.workers[w].stage)
    ensures var t := Tick(c, s, w, ok, clock);
      |t.workers| == |s.workers| && Rank(t.workers[w].stage) < Rank(s.workers[w].stage)
  {
    var waited := Next(c, s, Waits(clock(Rank(s.workers[w].stage))));
    WorkCommands(c, waited, w, ok);
    var stage := s.workers[w].stage;
    CommandRank(c, StoreOf(waited), ExecutionOf(waited, stage.id), stage, ok, waited.now);
  }

  /** The worker finishes its message and nobody interferes. */
  ghost function Alone(c: Config, s: System, w: nat, ok: bool, clock: nat -> int): System
    requires w < |s.workers|
    decreases Rank(s.workers[w].stage)
  {
    if !Busy(s.workers[w].stage) then s else
    RankFalls(c, s, w, ok, clock);
    Alone(c, Tick(c, s, w, ok, clock), w, ok, clock)
  }

  function Finish(c: Config, st: Store, executionId: string, stage: Stage, ok: bool, clock: nat -> int): Store
    decreases Rank(stage)
  {
    var (after, next) := Command(c, st, executionId, stage, ok, clock(Rank(stage)));
    if next.None? then after else Finish(c, after, executionId, next.value, ok, clock)
  }

  lemma {:induction false} AloneFinishes(c: Config, s: System, w: nat, ok: bool, clock: nat -> int)
    requires w < |s.workers| && Busy(s.workers[w].stage)
    requires Runs(clock) && s.now <= clock(Rank(s.workers[w].stage))
    ensures StoreOf(Alone(c, s, w, ok, clock)) ==
      Finish(c, StoreOf(s), ExecutionOf(s, s.workers[w].stage.id), s.workers[w].stage, ok, clock)
    decreases Rank(s.workers[w].stage)
  {
    var waited := Next(c, s, Waits(clock(Rank(s.workers[w].stage))));
    var t := Tick(c, s, w, ok, clock);
    WorkCommands(c, waited, w, ok);
    RankFalls(c, s, w, ok, clock);
    if Busy(t.workers[w].stage) {
      AloneFinishes(c, t, w, ok, clock);
    }
  }

  lemma SavingSettles(c: Config, st: Store, executionId: string, id: nat, attempt: nat, clock: nat -> int)
    ensures Finish(c, st, executionId, Saving(id, attempt), true, clock) ==
      Acknowledge(Write(st, executionId,
                        HashIn(st, executionId).(status := Completed, attempt := attempt, completedAt := Some(clock(2)),
                                                 retryAt := None, failedAt := None)), id)
  {
  }

  lemma BuryingSettles(c: Config, st: Store, executionId: string, id: nat, attempt: nat, clock: nat -> int)
    ensures Finish(c, st, executionId, Burying(id, attempt), false, clock) ==
      Acknowledge(Write(st.(deadLetters := st.deadLetters + [id]), executionId,
                        HashIn(st, executionId).(status := Failed, attempt := attempt, failedAt := Some(clock(2)),
                                                 deadLetter := Some(|st.deadLetters|), retryAt := None)), id)
  {
    var buried := st.(deadLetters := st.deadLetters + [id]);
    var failing := Failing(id, attempt, |st.deadLetters|);
    assert Finish(c, st, executionId, Burying(id, attempt), false, clock) == Finish(c, buried, executionId, failing, false, clock);
    var failed := Command(c, buried, executionId, failing, false, clock(2)).0;
    assert Finish(c, buried, executionId, failing, false, clock) ==
           Finish(c, failed, executionId, Acking(id, false), false, clock);
  }

  lemma DelayingSettles(c: Config, st: Store, executionId: string, id: nat, attempt: nat, retryAt: int, clock: nat -> int)
    ensures Finish(c, st, executionId, Delaying(id, attempt, retryAt), false, clock) ==
      Write(st, executionId, HashIn(st, executionId).(status := Retrying, attempt := attempt, failedAt := Some(clock(2)),
                                                      retryAt := Some(retryAt)))
  {
  }

  /** The first three commands: read the attempt, mark the execution running, call the agent. */
  lemma CallMade(c: Config, st: Store, executionId: string, id: nat, ok: bool, clock: nat -> int)
    ensures var h := HashIn(st, executionId); var attempt := h.attempt + 1;
      Finish(c, st, executionId, Reading(id), ok, clock) ==
        Finish(c, Write(st, executionId, h.(status := Running, attempt := attempt, retryAt := None, failedAt := None)), executionId,
               if ok then Saving(id, attempt)
               else if attempt >= c.maxAttempts then Burying(id, attempt)
               else Delaying(id, attempt, clock(4) + RetryDelay(c, attempt)),
               ok, clock)
  {
    var h := HashIn(st, executionId);
    var attempt := h.attempt + 1;
    var marked := Write(st, executionId, h.(status := Running, attempt := attempt, retryAt := None, failedAt := None));
    assert Finish(c, st, executionId, Reading(id), ok, clock) == Finish(c, st, executionId, Marking(id, attempt), ok, clock);
    assert Finish(c, st, executionId, Marking(id, attempt), ok, clock) == Finish(c, marked, executionId, Calling(id, attempt), ok, clock);
  }

  lemma WriteTwice(st: Store, executionId: string, g: Hash, h: Hash)
    ensures Write(Write(st, executionId, g), executionId, h) == Write(st, executionId, h)
    ensures HashIn(Write(st, executionId, g), executionId) == g
  {
  }

  lemma FinishSettles(c: Config, st: Store, executionId: string, id: nat, ok: bool, clock: nat -> int)
    requires executionId != ""
    ensures Finish(c, st, executionId, Reading(id), ok, clock) == Settle(c, st, id, executionId, ok, Times(clock(4), clock(2)))
  {
    var h := HashIn(st, executionId);
    var attempt := h.attempt + 1;
    var running := h.(status := Running, attempt := attempt, retryAt := None, failedAt := None);
    var marked := Write(st, executionId, running);
    CallMade(c, st, executionId, id, ok, clock);
    if ok {
      SavingSettles(c, marked, executionId, id, attempt, clock);
      WriteTwice(st, executionId, running, running.(status := Completed, completedAt := Some(clock(2))));
    } else if attempt >= c.maxAttempts {
      BuryingSettles(c, marked, executionId, id, attempt, clock);
      WriteTwice(st.(deadLetters := st.deadLetters + [id]), executionId, running,
                 running.(status := Failed, failedAt := Some(clock(2)), deadLetter := Some(|st.deadLetters|)));
    } else {
      var retryAt := clock(4) + RetryDelay(c, attempt);
      DelayingSettles(c, marked, executionId, id, attempt, retryAt, clock);
      WriteTwice(st, executionId, running, running.(status := Retrying, failedAt := Some(clock(2)), retryAt := Some(retryAt)));
    }
  }

  /** A worker left alone with a message, however long its commands and its call take, brings the store
      exactly where `Settle` says. */
  lemma StepsSettle(c: Config, s: System, w: nat, ok: bool, id: nat, clock: nat -> int)
    requires w < |s.workers| && s.workers[w].stage == Reading(id) && ExecutionOf(s, id) != ""
    requires Runs(clock) && s.now <= clock(6)
    ensures StoreOf(Alone(c, s, w, ok, clock)) ==
      Settle(c, StoreOf(s), id, ExecutionOf(s, id), ok, Times(clock(4), clock(2)))
  {
    AloneFinishes(c, s, w, ok, clock);
    FinishSettles(c, StoreOf(s), ExecutionOf(s, id), id, ok, clock);
  }

  // ---------------------------------------------------------------------------
  // The worker's own code
  // ---------------------------------------------------------------------------

  /** A reclaimed message: what the agent answers if it is called, when its retry time is checked, and
      the times of the attempt. */
  datatype Visit = Visit(id: nat, executionId: string, ok: bool, checkedAt: int, at: Times)

  /** What XAUTOCLAIM may hand over at `now`. */
  predicate Handed(c: Config, st: Store, visits: seq<Visit>, now: int) {
    && |visits| <= c.batchSize
    && (forall i, j :: 0 <= i < j < |visits| ==> visits[i].id != visits[j].id)
    && forall i :: 0 <= i < |visits| ==> visits[i].id in st.pending && now - st.pending[visits[i].id] >= c.pendingIdle
  }

  function Ids(visits: seq<Visit>): set<nat> {
    set i | 0 <= i < |visits| :: visits[i].id
  }

  function Claimed(st: Store, visits: seq<Visit>, now: int): Store {
    st.(pending := map id | id in st.pending :: if id in Ids(visits) then now else st.pending[id])
  }

  /** The reclaimed messages in order, each processed unless its retry time is still ahead. */
  function Recovered(c: Config, st: Store, visits: seq<Visit>): Store
    decreases |visits|
  {
    if visits == [] then st else
    var k := |visits| - 1;
    var before, v := Recovered(c, st, visits[..k]), visits[k];
    var retryAt := HashIn(before, v.executionId).retryAt;
    if retryAt.Some? && v.checkedAt < retryAt.value then before
    else Settle(c, before, v.id, v.executionId, v.ok, v.at)
  }

  class TaskWorker {
    const config: Config
    var pending: map<nat, int>
    var acked: set<nat>
    var hashes: map<string, Hash>
    var deadLetters: seq<nat>

    constructor (config: Config, st: Store)
      ensures this.config == config && View() == st
    {
      this.config := config;
      pending, acked, hashes, deadLetters := st.pending, st.acked, st.hashes, st.deadLetters;
    }

    function View(): Store
      reads this
    {
      Store(pending, acked, hashes, deadLetters)
    }

    function Current(executionId: string): Hash
      reads this`hashes
    {
      if executionId in hashes then hashes[executionId] else NoHash
    }

    method Save(executionId: string, h: Hash)
      modifies this`hashes
      ensures View() == Write(old(View()), executionId, h)
    {
      hashes := hashes[executionId := h];
    }

    method Ack(id: nat)
      modifies this`pending, this`acked
      ensures View() == Acknowledge(old(View()), id)
    {
      if id in pending {
        pending := pending - {id};
        acked := acked + {id};
      }
    }

    /** `process`, with `ok` for the agent's answer. */
    method Process(id: nat, executionId: string, ok: bool, at: Times)
      modifies this`pending, this`acked, this`hashes, this`deadLetters
      ensures View() == Settle(config, old(View()), id, executionId, ok, at)
    {
      if executionId == "" {
        return;
      }
      var attempt := Current(executionId).attempt + 1;
      ghost var running := Current(executionId).(status := Running, attempt := attempt, retryAt := None, failedAt := None);
      Save(executionId, Current(executionId).(status := Running, attempt := attempt, retryAt := None, failedAt := None));
      assert View() == Write(old(View()), executionId, running);
      if ok {
        SaveSuccess(id, executionId, attempt, at.saved);
        WriteTwice(old(View()), executionId, running, running.(status := Completed, completedAt := Some(at.saved)));
        return;
      }
      if attempt >= config.maxAttempts {
        DeadLetter(id, executionId, attempt, at.saved);
        WriteTwice(old(View()).(deadLetters := old(deadLetters) + [id]), executionId, running,
                   running.(status := Failed, failedAt := Some(at.saved), deadLetter := Some(|old(deadLetters)|)));
        return;
      }
      var retryAt := at.answered + RetryDelay(config, attempt);
      Save(executionId, Current(executionId).(status := Retrying, attempt := attempt, failedAt := Some(at.saved), retryAt := Some(retryAt)));
      WriteTwice(old(View()), executionId, running,
                 running.(status := Retrying, failedAt := Some(at.saved), retryAt := Some(retryAt)));
    }

    method SaveSuccess(id: nat, executionId: string, attempt: nat, now: int)
      modifies this`pending, this`acked, this`hashes
      ensures View() ==
        Acknowledge(
          Write(old(View()), executionId,
                old(Current(executionId)).(status := Completed, attempt := attempt, completedAt := Some(now),
                                           retryAt := None, failedAt := None)),
          id)
    {
      Save(executionId, Current(executionId).(status := Completed, attempt := attempt, completedAt := Some(now),
                                              retryAt := None, failedAt := None));
      Ack(id);
    }

    method DeadLetter(id: nat, executionId: string, attempt: nat, now: int)
      modifies this`pending, this`acked, this`hashes, this`deadLetters
      ensures View() ==
        Acknowledge(
          Write(old(View()).(deadLetters := old(deadLetters) + [id]), executionId,
                old(Current(executionId)).(status := Failed, attempt := attempt, failedAt := Some(now),
                                           deadLetter := Some(|old(deadLetters)|), retryAt := None)),
          id)
    {
      var deadLetterId := |deadLetters|;
      deadLetters := deadLetters + [id];
      Save(executionId, Current(executionId).(status := Failed, attempt := attempt, failedAt := Some(now),
                                              deadLetter := Some(deadLetterId), retryAt := None));
      Ack(id);
    }

    /** `recoverPending`: the claim, and then one reclaimed message after another. */
    method RecoverPending(visits: seq<Visit>, now: int)
      requires Handed(config, View(), visits, now)
      modifies this`pending, this`acked, this`hashes, this`deadLetters
      ensures View() == Recovered(config, Claimed(old(View()), visits, now), visits)
    {
      pending := map id | id in pending :: if id in Ids(visits) then now else pending[id];
      for k := 0 to |visits|
        invariant View() == Recovered(config, Claimed(old(View()), visits, now), visits[..k])
      {
        assert visits[..k + 1][..k] == visits[..k];
        var v := visits[k];
        if v.executionId == "" {
          continue;
        }
        var retryAt := Current(v.executionId).retryAt;
        if retryAt.Some? && v.checkedAt < retryAt.value {
          continue;
        }
        Process(v.id, v.executionId, v.ok, v.at);
      }
      assert visits[..|visits|] == visits;
    }
  }
}
