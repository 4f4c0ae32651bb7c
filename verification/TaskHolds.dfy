/**
 How long workers hold their messages, and what that means for the attempt count. A message counts
 as abandoned once it has been pending for `pendingIdle`; nothing in the code keeps a worker from
 holding it longer.
 */
module TaskHolds {
  import opened Prelude
  import opened TaskQueue
  import opened TaskAttempts

  predicate HoldsAny(worker: Worker) {
    Busy(worker.stage) || worker.batch != []
  }

  /** No worker has had in hand what it holds for longer than `limit`. */
  predicate HeldAtMost(s: System, limit: int) {
    forall v :: 0 <= v < |s.workers| && HoldsAny(s.workers[v]) ==> s.now - s.workers[v].since <= limit
  }

  predicate NewIdOnly(s: System, a: Action) {
    a.Submits? ==> a.message.executionId !in s.hashes
  }

  /** A run with new execution ids, in all of whose states holds are that short. */
  predicate HoldRun(c: Config, s: System, actions: seq<Action>, limit: int)
    decreases |actions|
  {
    && HeldAtMost(s, limit)
    && (actions == [] || (NewIdOnly(s, actions[0]) && HoldRun(c, Next(c, s, actions[0]), actions[1..], limit)))
  }

  // ---------------------------------------------------------------------------
  // Short holds are exclusive
  // ---------------------------------------------------------------------------

  /** What a worker holds was handed to it in the past, and has not been pending for longer. */
  predicate DatedFor(s: System, worker: Worker, id: nat) {
    worker.since <= s.now && (id in s.pending ==> s.pending[id] >= worker.since)
  }

  ghost predicate Dated(s: System) {
    forall v, id :: 0 <= v < |s.workers| && Holds(s.workers[v], id) ==> DatedFor(s, s.workers[v], id)
  }

  /** From s to t no delivery time gets earlier, and w holds no more than it did before. */
  ghost predicate LaterFor(s: System, t: System, before: Worker, after: Worker) {
    && s.now <= t.now && after.since == before.since
    && (forall id :: Holds(after, id) ==> Holds(before, id))
    && forall id :: id in t.pending && Holds(after, id) ==> id in s.pending && t.pending[id] >= s.pending[id]
  }

  lemma LaterStaysDated(s: System, t: System, before: Worker, after: Worker, id: nat)
    requires LaterFor(s, t, before, after) && Holds(after, id) && (Holds(before, id) ==> DatedFor(s, before, id))
    ensures DatedFor(t, after, id)
  {
  }

  lemma EffectKeepsTimes(c: Config, s: System, stage: Stage)
    ensures var t := Effect(c, s, stage);
      t.now == s.now && t.workers == s.workers && forall id :: id in t.pending ==> id in s.pending && t.pending[id] == s.pending[id]
  {
  }

  lemma RecoverLater(s: System, w: nat, v: nat)
    requires w < |s.workers| && v < |s.workers|
    ensures |Recover(s, w).workers| == |s.workers|
    ensures s.workers[w].stage.Recovering? ==> LaterFor(s, Recover(s, w), s.workers[v], Recover(s, w).workers[v])
  {
    var worker := s.workers[w];
    if worker.batch != [] {
      assert worker.batch[0] in worker.batch;
      assert forall id :: id in worker.batch[1..] ==> id in worker.batch;
    }
  }

  lemma ProcessTimes(c: Config, s: System, w: nat, ok: bool)
    requires w < |s.workers| && Busy(s.workers[w].stage)
    ensures |Process(c, s, w, ok).workers| == |s.workers|
    ensures Process(c, s, w, ok).workers[w].since == s.workers[w].since
    ensures Process(c, s, w, ok).pending == Effect(c, s, s.workers[w].stage).pending
  {
  }

  lemma ProcessLater(c: Config, s: System, w: nat, ok: bool, v: nat)
    requires w < |s.workers| && v < |s.workers| && Busy(s.workers[w].stage)
    ensures |Process(c, s, w, ok).workers| == |s.workers|
    ensures LaterFor(s, Process(c, s, w, ok), s.workers[v], Process(c, s, w, ok).workers[v])
  {
    EffectKeepsTimes(c, s, s.workers[w].stage);
    ProcessTimes(c, s, w, ok);
    ProcessWorker(c, s, w, ok);
  }

  /** A command of a worker that is handed nothing new. */
  lemma WorkLater(c: Config, s: System, w: nat, ok: bool, v: nat)
    requires w < |s.workers| && v < |s.workers| && !s.workers[w].stage.Polling?
    ensures |Work(c, s, w, ok).workers| == |s.workers|
    ensures LaterFor(s, Work(c, s, w, ok), s.workers[v], Work(c, s, w, ok).workers[v])
  {
    match s.workers[w].stage {
      case Starting =>
      case Recovering => RecoverLater(s, w, v);
      case _ => ProcessLater(c, s, w, ok, v);
    }
  }

  lemma PollDated(c: Config, s: System, w: nat)
    requires w < |s.workers| && s.workers[w].stage.Polling? && Dated(s) && Safe(s)
    ensures Dated(Poll(s, w))
  {
    var t := Poll(s, w);
    forall v, id | 0 <= v < |t.workers| && Holds(t.workers[v], id) ensures DatedFor(t, t.workers[v], id) {
      if v != w {
        assert Grounded(s, s.workers[v]) && DatedFor(s, s.workers[v], id);
      }
    }
  }

  lemma DropLater(s: System, u: System, w: nat, next: Worker, v: nat)
    requires u.workers == s.workers && u.now == s.now && w < |s.workers| && v < |s.workers|
    requires forall id :: id in u.pending && Holds(s.workers[v], id) ==> id in s.pending && u.pending[id] >= s.pending[id]
    requires next == NewWorker || next == Onward(s.workers[w])
    ensures var after := Drop(u, w, next).workers[v];
      HoldsAny(after) ==> LaterFor(s, Drop(u, w, next), s.workers[v], after)
  {
  }

  lemma ClaimDated(s: System, w: nat, batch: seq<nat>)
    requires w < |s.workers| && Dated(s) && forall i :: 0 <= i < |batch| ==> batch[i] in s.pending
    ensures Dated(Claim(s, w, batch))
  {
    var t := Claim(s, w, batch);
    forall v, id | 0 <= v < |t.workers| && Holds(t.workers[v], id) ensures DatedFor(t, t.workers[v], id) {
      if v != w {
        assert DatedFor(s, s.workers[v], id);
      }
    }
  }

  lemma WorkDated(c: Config, s: System, w: nat, ok: bool)
    requires Dated(s) && Safe(s) && w < |s.workers|
    ensures Dated(Work(c, s, w, ok))
  {
    var t := Work(c, s, w, ok);
    if s.workers[w].stage.Polling? {
      PollDated(c, s, w);
    } else {
      OnlyOneWorker(c, s, w, ok);
      forall v, id | 0 <= v < |t.workers| && Holds(t.workers[v], id) ensures DatedFor(t, t.workers[v], id) {
        WorkLater(c, s, w, ok, v);
        LaterStaysDated(s, t, s.workers[v], t.workers[v], id);
      }
    }
  }

  lemma DropDated(s: System, u: System, w: nat, next: Worker)
    requires Dated(s) && u.workers == s.workers && u.now == s.now && w < |s.workers|
    requires forall v, id :: 0 <= v < |s.workers| && id in u.pending && Holds(s.workers[v], id) ==>
      id in s.pending && u.pending[id] >= s.pending[id]
    requires next == NewWorker || next == Onward(s.workers[w])
    ensures Dated(Drop(u, w, next))
  {
    var t := Drop(u, w, next);
    forall v, id | 0 <= v < |t.workers| && Holds(t.workers[v], id) ensures DatedFor(t, t.workers[v], id) {
      DropLater(s, u, w, next, v);
      LaterStaysDated(s, t, s.workers[v], t.workers[v], id);
    }
  }

  lemma FaultDated(c: Config, s: System, w: nat, applied: bool)
    requires Dated(s) && Safe(s) && w < |s.workers|
    ensures Dated(Fault(c, s, w, applied))
  {
    var worker := s.workers[w];
    match worker.stage {
      case Starting =>
      case Calling(_, _) =>
      case Recovering => DropDated(s, s, w, NewWorker);
      case Polling =>
        forall v, id: nat | 0 <= v < |s.workers| && Holds(s.workers[v], id) ensures id < s.delivered {
          assert Grounded(s, s.workers[v]);
        }
        DropDated(s, if applied && s.delivered < |s.messages| then Read(s) else s, w, NewWorker);
      case _ =>
        EffectKeepsTimes(c, s, worker.stage);
        DropDated(s, if applied then Effect(c, s, worker.stage) else s, w, if worker.polled then NewWorker else Onward(worker));
    }
  }

  lemma StepKeepsDated(c: Config, s: System, a: Action)
    requires Dated(s) && Safe(s)
    ensures Dated(Next(c, s, a))
  {
    match a {
      case Works(w, ok) =>
        if w < |s.workers| {
          WorkDated(c, s, w, ok);
        }
      case Claims(w, batch) =>
        if TakesClaim(c, s, w, batch) {
          ClaimDated(s, w, batch);
        }
      case Faults(w, applied) =>
        if w < |s.workers| {
          FaultDated(c, s, w, applied);
        }
      case Crashes(w) =>
        if w < |s.workers| {
          DropDated(s, s, w, NewWorker);
        }
      case _ =>
        var t := Next(c, s, a);
        forall v, id | 0 <= v < |t.workers| && Holds(t.workers[v], id) ensures DatedFor(t, t.workers[v], id) {
          assert v < |s.workers| && DatedFor(s, s.workers[v], id);
        }
    }
  }

  lemma HeldIsRecent(s: System, limit: int, v: nat, id: nat)
    requires Dated(s) && HeldAtMost(s, limit) && v < |s.workers|
    ensures Holds(s.workers[v], id) && id in s.pending ==> s.now - s.pending[id] <= limit
  {
    assert Holds(s.workers[v], id) ==> DatedFor(s, s.workers[v], id);
  }

  /** A claim takes only what nobody holds, when holds are shorter than the idle time. */
  lemma ShortHoldExcludes(c: Config, s: System, a: Action, limit: int)
    requires Dated(s) && HeldAtMost(s, limit) && limit < c.pendingIdle && NewIdOnly(s, a)
    ensures Exclusive(c, s, a)
  {
    if a.Claims? && TakesClaim(c, s, a.worker, a.batch) {
      forall i, v | 0 <= i < |a.batch| && 0 <= v < |s.workers| ensures !Holds(s.workers[v], a.batch[i]) {
        HeldIsRecent(s, limit, v, a.batch[i]);
      }
    }
  }

  /** When no worker holds a message for as long as the idle time, every claim is exclusive, so all
      that is proved of exclusive runs holds. */
  lemma {:induction false} ShortHoldsAreExclusive(c: Config, s: System, actions: seq<Action>, limit: int)
    requires Safe(s) && Dated(s) && HoldRun(c, s, actions, limit) && limit < c.pendingIdle
    ensures ExclusiveRun(c, s, actions)
    decreases |actions|
  {
    if actions != [] {
      ShortHoldExcludes(c, s, actions[0], limit);
      StepKeepsSafe(c, s, actions[0]);
      StepKeepsDated(c, s, actions[0]);
      ShortHoldsAreExclusive(c, Next(c, s, actions[0]), actions[1..], limit);
    }
  }

  // ---------------------------------------------------------------------------
  // Long holds break the bound
  // ---------------------------------------------------------------------------

  const Job := Message("job", "")

  /** The one message of the relay, delivered at `at`, with an attempt number in its hash and the
      calls made for it; nothing has interrupted it. */
  predicate JobState(s: System, at: int, attempt: nat, calls: nat) {
    && s.messages == [Job] && s.delivered == 1 && s.pending == map[0 := at]
    && "job" in s.hashes && s.hashes["job"].attempt == attempt
    && |s.history| == 1 && s.history[0].calls == calls && s.history[0].interruptions == 0
  }

  /** Nobody but worker k holds anything. */
  predicate OthersIdle(s: System, k: nat) {
    forall v :: 0 <= v < |s.workers| && v != k ==> !HoldsAny(s.workers[v])
  }

  predicate HasStage(s: System, w: nat, stage: Stage, since: int) {
    w < |s.workers| && s.workers[w].stage == stage && s.workers[w].batch == [] && s.workers[w].since == since
  }

  /** Worker k waits for the agent's answer to call k + 1, which it made `k` idle times after the start. */
  predicate Relayed(c: Config, s: System, k: nat) {
    && s.now == k * c.pendingIdle && |s.workers| == k + 1 && OthersIdle(s, k)
    && HasStage(s, k, Calling(0, k + 1), s.now)
    && JobState(s, s.now, k + 1, k + 1) && s.hashes["job"].retryAt == None
  }

  /** A run from s to t, with holds up to `limit`. */
  ghost predicate Reaches(c: Config, s: System, t: System, limit: int) {
    exists actions :: HoldRun(c, s, actions, limit) && Run(c, s, actions) == t
  }

  lemma ReachesItself(c: Config, s: System, limit: int)
    requires HeldAtMost(s, limit)
    ensures Reaches(c, s, s, limit)
  {
    assert HoldRun(c, s, [], limit) && Run(c, s, []) == s;
  }

  lemma {:induction false} RunsConcat(c: Config, s: System, xs: seq<Action>, a: Action, limit: int)
    requires HoldRun(c, s, xs, limit) && NewIdOnly(Run(c, s, xs), a) && HeldAtMost(Next(c, Run(c, s, xs), a), limit)
    ensures HoldRun(c, s, xs + [a], limit) && Run(c, s, xs + [a]) == Next(c, Run(c, s, xs), a)
    decreases |xs|
  {
    if xs == [] {
      assert xs + [a] == [a] && [a][1..] == [];
    } else {
      assert (xs + [a])[1..] == xs[1..] + [a];
      RunsConcat(c, Next(c, s, xs[0]), xs[1..], a, limit);
    }
  }

  lemma ReachesNext(c: Config, s: System, t: System, a: Action, limit: int)
    requires Reaches(c, s, t, limit) && NewIdOnly(t, a) && HeldAtMost(Next(c, t, a), limit)
    ensures Reaches(c, s, Next(c, t, a), limit)
  {
    var actions :| HoldRun(c, s, actions, limit) && Run(c, s, actions) == t;
    RunsConcat(c, s, actions, a, limit);
    assert Run(c, s, actions + [a]) == Next(c, t, a);
  }

  // The first call ------------------------------------------------------------

  lemma Submitted(c: Config, start: System) returns (s: System)
    requires c.Valid() && start == Initial(0)
    ensures Reaches(c, start, s, c.pendingIdle)
    ensures s == System(0, [Job], 0, map[], {}, map["job" := NoHash], [], [NewWorker], [NoHistory])
  {
    ReachesItself(c, start, c.pendingIdle);
    ReachesNext(c, start, start, Joins, c.pendingIdle);
    var s1 := Next(c, start, Joins);
    ReachesNext(c, start, s1, Submits(Job), c.pendingIdle);
    s := Next(c, s1, Submits(Job));
  }

  lemma Polled(c: Config, start: System) returns (s: System)
    requires c.Valid() && start == Initial(0)
    ensures Reaches(c, start, s, c.pendingIdle)
    ensures s == System(0, [Job], 0, map[], {}, map["job" := NoHash], [], [Worker(Polling, [], false, 0)], [NoHistory])
  {
    var s2 := Submitted(c, start);
    var s3 := Next(c, s2, Claims(0, []));
    assert s3.workers == [Worker(Recovering, [], false, 0)] && s3.pending == map[] && s3.history == [NoHistory];
    ReachesNext(c, start, s2, Claims(0, []), c.pendingIdle);
    s := Next(c, s3, Works(0, true));
    assert s.workers == [Worker(Polling, [], false, 0)];
    ReachesNext(c, start, s3, Works(0, true), c.pendingIdle);
  }

  lemma FirstDelivery(c: Config, start: System) returns (s: System)
    requires c.Valid() && start == Initial(0)
    ensures Reaches(c, start, s, c.pendingIdle)
    ensures s.now == 0 && |s.workers| == 1 && HasStage(s, 0, Reading(0), 0)
    ensures JobState(s, 0, 0, 0) && s.hashes["job"].retryAt == None
  {
    var s4 := Polled(c, start);
    s := Next(c, s4, Works(0, true));
    ReachesNext(c, start, s4, Works(0, true), c.pendingIdle);
  }

  lemma FirstCall(c: Config) returns (s: System)
    requires c.Valid()
    ensures Reaches(c, Initial(0), s, c.pendingIdle) && Relayed(c, s, 0)
  {
    var start := Initial(0);
    var s1 := FirstDelivery(c, start);
    ReachesNext(c, start, s1, Works(0, true), c.pendingIdle);
    var s2 := Next(c, s1, Works(0, true));
    assert s2.workers[0].stage == Marking(0, 1);
    ReachesNext(c, start, s2, Works(0, true), c.pendingIdle);
    s := Next(c, s2, Works(0, true));
  }

  // One worker after another --------------------------------------------------

  /** Worker k still waits for its answer; worker k + 1 has claimed the job and read its attempt. */
  predicate Overlapping(c: Config, s: System, k: nat) {
    && s.now == (k + 1) * c.pendingIdle && |s.workers| == k + 2
    && (forall v :: 0 <= v < k ==> !HoldsAny(s.workers[v]))
    && HasStage(s, k, Calling(0, k + 1), k * c.pendingIdle)
    && HasStage(s, k + 1, Marking(0, k + 2), s.now)
    && JobState(s, s.now, k + 1, k + 1)
  }

  lemma OneIdleTimeLater(c: Config, k: nat)
    ensures (k + 1) * c.pendingIdle == k * c.pendingIdle + c.pendingIdle
  {
  }

  lemma Waited(c: Config, start: System, s: System, k: nat) returns (t: System)
    requires c.Valid() && Reaches(c, start, s, c.pendingIdle) && Relayed(c, s, k)
    ensures Reaches(c, start, t, c.pendingIdle)
    ensures t == s.(now := (k + 1) * c.pendingIdle, workers := s.workers + [NewWorker])
  {
    OneIdleTimeLater(c, k);
    ReachesNext(c, start, s, Joins, c.pendingIdle);
    var s1 := Next(c, s, Joins);
    var later := (k + 1) * c.pendingIdle;
    ReachesNext(c, start, s1, Waits(later), c.pendingIdle);
    t := Next(c, s1, Waits(later));
  }

  /** A new worker joins, the idle time passes, and the worker claims the job. */
  lemma Reclaimed(c: Config, start: System, s: System, k: nat) returns (t: System)
    requires c.Valid() && Reaches(c, start, s, c.pendingIdle) && Relayed(c, s, k)
    ensures Reaches(c, start, t, c.pendingIdle)
    ensures t.now == (k + 1) * c.pendingIdle && |t.workers| == k + 2 && JobState(t, t.now, k + 1, k + 1)
    ensures t.hashes["job"].retryAt == None && (forall v :: 0 <= v < k ==> !HoldsAny(t.workers[v]))
    ensures HasStage(t, k, Calling(0, k + 1), k * c.pendingIdle)
    ensures t.workers[k + 1] == Worker(Recovering, [0], false, t.now)
  {
    OneIdleTimeLater(c, k);
    var s2 := Waited(c, start, s, k);
    t := Next(c, s2, Claims(k + 1, [0]));
    assert t.pending == map[0 := s2.now];
    ReachesNext(c, start, s2, Claims(k + 1, [0]), c.pendingIdle);
  }

  lemma ReadAgain(c: Config, start: System, s: System, k: nat) returns (t: System)
    requires c.Valid() && Reaches(c, start, s, c.pendingIdle) && Relayed(c, s, k)
    ensures Reaches(c, start, t, c.pendingIdle) && Overlapping(c, t, k)
    ensures t.hashes["job"].retryAt == None
  {
    OneIdleTimeLater(c, k);
    var s3 := Reclaimed(c, start, s, k);
    var s4 := Next(c, s3, Works(k + 1, true));
    assert s4.workers[k + 1] == Worker(Reading(0), [], false, s3.now);
    ReachesNext(c, start, s3, Works(k + 1, true), c.pendingIdle);
    t := Next(c, s4, Works(k + 1, true));
    assert t.workers[k + 1] == Worker(Marking(0, k + 2), [], false, s3.now);
    ReachesNext(c, start, s4, Works(k + 1, true), c.pendingIdle);
  }

  /** Worker k's call fails, and it saves the failure and lets go. */
  lemma LetGo(c: Config, start: System, s: System, k: nat) returns (t: System)
    requires c.Valid() && Reaches(c, start, s, c.pendingIdle) && Overlapping(c, s, k) && k + 1 < c.maxAttempts
    ensures Reaches(c, start, t, c.pendingIdle)
    ensures t.now == (k + 1) * c.pendingIdle && |t.workers| == k + 2 && OthersIdle(t, k + 1)
    ensures HasStage(t, k + 1, Marking(0, k + 2), t.now) && JobState(t, t.now, k + 1, k + 1)
  {
    OneIdleTimeLater(c, k);
    var s6 := Next(c, s, Works(k, false));
    assert s6.workers[k].stage == Delaying(0, k + 1, s.now + RetryDelay(c, k + 1));
    ReachesNext(c, start, s, Works(k, false), c.pendingIdle);
    t := Next(c, s6, Works(k, false));
    assert !HoldsAny(t.workers[k]);
    ReachesNext(c, start, s6, Works(k, false), c.pendingIdle);
  }

  /** Worker k + 1 marks the job running, which clears the retry time, and calls the agent. */
  lemma HandOver(c: Config, start: System, s: System, k: nat) returns (t: System)
    requires c.Valid() && Reaches(c, start, s, c.pendingIdle) && Relayed(c, s, k) && k + 1 < c.maxAttempts
    ensures Reaches(c, start, t, c.pendingIdle) && Relayed(c, t, k + 1)
  {
    var s5 := ReadAgain(c, start, s, k);
    var s7 := LetGo(c, start, s5, k);
    t := Next(c, s7, Works(k + 1, true));
    ReachesNext(c, start, s7, Works(k + 1, true), c.pendingIdle);
  }

  lemma {:induction false} Relay(c: Config, k: nat) returns (s: System)
    requires c.Valid() && k < c.maxAttempts
    ensures Reaches(c, Initial(0), s, c.pendingIdle) && Relayed(c, s, k)
    decreases k
  {
    if k == 0 {
      s := FirstCall(c);
    } else {
      var before := Relay(c, k - 1);
      s := HandOver(c, Initial(0), before, k - 1);
    }
  }

  /** The bound needs exclusive claims: whatever the configuration, `maxAttempts + 1` workers can each
      take the job over from a busy one after the idle time, and make `maxAttempts + 1` calls for it
      with no interruption. */
  lemma ReclaimRepeatsCall(c: Config) returns (s: System)
    requires c.Valid()
    ensures Reaches(c, Initial(0), s, c.pendingIdle) && |s.messages| == 1
    ensures PastOf(s, 0).calls == c.maxAttempts + 1 && PastOf(s, 0).interruptions == 0
  {
    var k := c.maxAttempts - 1;
    var before := Relay(c, k);
    var s5 := ReadAgain(c, Initial(0), before, k);
    OneIdleTimeLater(c, k);
    s := Next(c, s5, Works(k + 1, true));
    assert s.workers[k + 1].since == s.now;
    ReachesNext(c, Initial(0), s5, Works(k + 1, true), c.pendingIdle);
  }

  ghost predicate BoundHolds(c: Config, s: System) {
    forall id: nat :: id < |s.messages| ==> PastOf(s, id).calls <= c.maxAttempts + PastOf(s, id).interruptions
  }

  /** Exactly when the attempt limit means something: in all runs with new execution ids in which no
      worker has a message in hand for longer than `limit`, a message gets no more calls than the
      attempts allowed and its interruptions, if and only if that limit is below the idle time. */
  lemma AttemptBoundExactly(c: Config, limit: int)
    requires c.Valid()
    ensures limit < c.pendingIdle <==>
      forall now, actions :: HoldRun(c, Initial(now), actions, limit) ==> BoundHolds(c, Run(c, Initial(now), actions))
  {
    if limit < c.pendingIdle {
      forall now, actions | HoldRun(c, Initial(now), actions, limit) ensures BoundHolds(c, Run(c, Initial(now), actions)) {
        ShortHoldsAreExclusive(c, Initial(now), actions, limit);
        forall id: nat | id < |Run(c, Initial(now), actions).messages|
          ensures var t := PastOf(Run(c, Initial(now), actions), id); t.calls <= c.maxAttempts + t.interruptions
        {
          AttemptsAreBounded(c, now, actions, id);
        }
      }
    } else {
      var s := ReclaimRepeatsCall(c);
      var actions :| HoldRun(c, Initial(0), actions, c.pendingIdle) && Run(c, Initial(0), actions) == s;
      LongerHolds(c, Initial(0), actions, c.pendingIdle, limit);
      assert !BoundHolds(c, Run(c, Initial(0), actions));
    }
  }

  lemma {:induction false} LongerHolds(c: Config, s: System, actions: seq<Action>, short: int, long: int)
    requires short <= long && HoldRun(c, s, actions, short)
    ensures HoldRun(c, s, actions, long)
    decreases |actions|
  {
    if actions != [] {
      LongerHolds(c, Next(c, s, actions[0]), actions[1..], short, long);
    }
  }
}
