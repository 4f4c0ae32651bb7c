/**
 The in-memory idempotency store and the claim/wait/put/release protocol that
 `ToolExecutor.execute` runs against it.

 Any number of `execute` calls share one store. Every store operation holds the store's lock,
 so a call is a sequence of atomic steps; the calls interleave in any order. An
 `asyncio.Event` is named by the ordinal of its creation: a call that sleeps keeps the name of
 the event it fetched even when a later claim installs a new event for the same key.
 */
module Idempotency {
  import opened Prelude

  type Key = string
  type EventId = nat

  datatype ToolResult = ToolResult(success: bool, output: Option<string>, error: Option<string>)

  function Succeeded(output: string): ToolResult {
    ToolResult(true, Some(output), None)
  }

  function Failed(error: string): ToolResult {
    ToolResult(false, None, Some(error))
  }

  // ---------------------------------------------------------------------------
  // The store
  // ---------------------------------------------------------------------------

  /** `events` maps a key to its current event, `signalled` holds the events already set and
      `created` counts the events made so far. */
  datatype Store = Store(
    records: map<Key, ToolResult>,
    claimed: set<Key>,
    events: map<Key, EventId>,
    signalled: set<EventId>,
    created: nat)

  const EmptyStore := Store(map[], {}, map[], {}, 0)

  function Find(s: Store, key: Key): Option<ToolResult> {
    if key in s.records then Some(s.records[key]) else None
  }

  predicate Claimable(s: Store, key: Key) {
    key !in s.claimed && key !in s.records
  }

  function Claim(s: Store, key: Key): Store {
    if Claimable(s, key) then
      s.(claimed := s.claimed + {key}, events := s.events[key := s.created], created := s.created + 1)
    else
      s
  }

  function Signal(s: Store, key: Key): Store {
    if key in s.events then s.(signalled := s.signalled + {s.events[key]}) else s
  }

  function Put(s: Store, key: Key, result: ToolResult): Store {
    Signal(s.(records := s.records[key := result], claimed := s.claimed - {key}), key)
  }

  function Release(s: Store, key: Key): Store {
    Signal(s.(claimed := s.claimed - {key}), key)
  }

  /** What the first locked section of `wait` finds. */
  datatype WaitEntry = Recorded(result: ToolResult) | NotInFlight | Sleep(event: EventId)

  function BeginWait(s: Store, key: Key): WaitEntry {
    if key in s.records then Recorded(s.records[key])
    else if key in s.events then Sleep(s.events[key])
    else NotInFlight
  }

  /** `InMemoryIdempotencyStore`. `wait` is cut at its one suspension point, `event.wait()`. */
  class InMemoryIdempotencyStore {
    var records: map<Key, ToolResult>
    var claimed: set<Key>
    var events: map<Key, EventId>
    var signalled: set<EventId>
    var created: nat

    function View(): (s: Store)
      reads this
    {
      Store(records, claimed, events, signalled, created)
    }

    constructor ()
      ensures View() == EmptyStore
    {
      records, claimed, events, signalled, created := map[], {}, map[], {}, 0;
    }

    method Get(key: Key) returns (found: Option<ToolResult>)
      ensures found == Find(View(), key)
    {
      if key in records {
        found := Some(records[key]);
      } else {
        found := None;
      }
    }

    method TryClaim(key: Key) returns (owns: bool)
      modifies this
      ensures owns == Claimable(old(View()), key)
      ensures View() == Claim(old(View()), key)
    {
      if key in claimed {
        return false;
      }
      if key in records {
        return false;
      }
      claimed := claimed + {key};
      events := events[key := created];
      created := created + 1;
      owns := true;
    }

    method Save(key: Key, result: ToolResult)
      modifies this
      ensures View() == Put(old(View()), key, result)
    {
      records := records[key := result];
      claimed := claimed - {key};
      if key in events {
        signalled := signalled + {events[key]};
      }
    }

    method Discard(key: Key)
      modifies this
      ensures View() == Release(old(View()), key)
    {
      claimed := claimed - {key};
      if key in events {
        signalled := signalled + {events[key]};
      }
    }

    method EnterWait(key: Key) returns (entry: WaitEntry)
      ensures entry == BeginWait(View(), key)
    {
      if key in records {
        entry := Recorded(records[key]);
      } else if key !in events {
        entry := NotInFlight;
      } else {
        entry := Sleep(events[key]);
      }
    }
  }

  // ---------------------------------------------------------------------------
  // One `execute` call
  // ---------------------------------------------------------------------------

  /** Where a call is suspended. `Sandboxed` records whether the call entered the sandbox with
      the claim: `claimed == false` is the fall-through after a `wait` that returned nothing. */
  datatype Point =
    | Entered
    | Claiming
    | Waiting
    | Asleep(event: EventId)
    | Woken
    | Sandboxed(claimed: bool)
    | Saving(result: ToolResult)
    | Releasing(result: ToolResult)
    | Returned(result: ToolResult)
    | Raised(error: WaitError)

  datatype WaitError = NoInFlightOperation | NoResultProduced

  /** `refusal` is the error of tool discovery or authorization, when either rejects the call. */
  datatype Call = Call(refusal: Option<string>, key: Option<Key>, at: Point)

  /** What the sandbox does with a run. */
  datatype SandboxOutcome = Output(value: string) | Exception(message: string)

  predicate Finished(c: Call) {
    c.at.Returned? || c.at.Raised?
  }

  predicate CanAdvance(s: Store, c: Call) {
    !Finished(c) && (c.at.Asleep? ==> c.at.event in s.signalled)
  }

  /** The executor's branch on what `wait` gave it. */
  function AfterWait(existing: Option<ToolResult>): Point {
    if existing.Some? then Returned(existing.value) else Sandboxed(false)
  }

  /** The next suspension point of a call that may advance. */
  function NextPoint(s: Store, c: Call, outcome: SandboxOutcome): Point
    requires CanAdvance(s, c)
  {
    match c.at
    case Entered =>
      if c.refusal.Some? then Returned(Failed(c.refusal.value))
      else if c.key.None? then Sandboxed(false)
      else if Find(s, c.key.value).Some? then Returned(Find(s, c.key.value).value)
      else Claiming
    case Sandboxed(_) =>
      (match outcome
       case Output(value) =>
         if c.key.Some? then Saving(Succeeded(value)) else Returned(Succeeded(value))
       case Exception(message) =>
         if c.key.Some? then Releasing(Failed(message)) else Returned(Failed(message)))
    case Claiming =>
      if c.key.None? then c.at
      else if Claimable(s, c.key.value) then Sandboxed(true) else Waiting
    case Waiting =>
      if c.key.None? then c.at else
      (match BeginWait(s, c.key.value)
       case Recorded(result) => AfterWait(Some(result))
       case NotInFlight => Raised(NoInFlightOperation)
       case Sleep(event) => Asleep(event))
    case Asleep(_) => Woken
    case Woken =>
      if c.key.None? then c.at
      else if Find(s, c.key.value).Some? then AfterWait(Find(s, c.key.value))
      else Raised(NoResultProduced)
    case Saving(result) => Returned(result)
    case Releasing(result) => Returned(result)
  }

  /** What the same step does to the store. */
  function NextStore(s: Store, c: Call): Store
    requires CanAdvance(s, c)
  {
    if c.key.None? then s else
    match c.at
    case Claiming => Claim(s, c.key.value)
    case Saving(result) => Put(s, c.key.value, result)
    case Releasing(_) => Release(s, c.key.value)
    case _ => s
  }

  // ---------------------------------------------------------------------------
  // The protocol
  // ---------------------------------------------------------------------------

  /** `wins` counts, per key, the sandbox runs that succeeded. */
  datatype System = System(store: Store, calls: seq<Call>, wins: multiset<Key>)

  /** One scheduling choice: which call resumes, and what the sandbox answers if it is there. */
  datatype Choice = Choice(call: nat, outcome: SandboxOutcome)

  predicate Enabled(s: System, i: nat) {
    i < |s.calls| && CanAdvance(s.store, s.calls[i])
  }

  predicate Wins(c: Call, outcome: SandboxOutcome) {
    c.at.Sandboxed? && c.key.Some? && outcome.Output?
  }

  /** A choice that is not enabled changes nothing. */
  function Step(s: System, choice: Choice): System {
    if !Enabled(s, choice.call) then s else
    var c := s.calls[choice.call];
    System(
      NextStore(s.store, c),
      s.calls[choice.call := c.(at := NextPoint(s.store, c, choice.outcome))],
      if Wins(c, choice.outcome) then s.wins + multiset{c.key.value} else s.wins)
  }

  function Run(s: System, choices: seq<Choice>): System
    decreases |choices|
  {
    if choices == [] then s else Run(Step(s, choices[0]), choices[1..])
  }

  predicate Initial(s: System) {
    && s.store == EmptyStore
    && s.wins == multiset{}
    && forall i :: 0 <= i < |s.calls| ==> s.calls[i].at == Entered
  }

  /** Call i holds the claim on `key`: its sandbox run is under way or just over. */
  predicate Owns(s: System, i: nat, key: Key) {
    && i < |s.calls|
    && s.calls[i].key == Some(key)
    && (s.calls[i].at.Sandboxed? || s.calls[i].at.Saving? || s.calls[i].at.Releasing?)
  }

  ghost predicate HasOwner(s: System, key: Key) {
    exists i: nat :: Owns(s, i, key)
  }

  predicate SavesFor(s: System, i: nat, key: Key) {
    Owns(s, i, key) && s.calls[i].at.Saving?
  }

  predicate KeyedPoint(p: Point) {
    p.Claiming? || p.Waiting? || p.Asleep? || p.Woken? || p.Saving? || p.Releasing? || p == Sandboxed(true)
  }

  /** What every call satisfies, at its own suspension point. */
  predicate CallInv(s: Store, c: Call) {
    && (KeyedPoint(c.at) ==> c.key.Some?)
    && (c.key.Some? && c.at.Waiting? ==> c.key.value in s.events)
    && (c.key.Some? && c.at.Asleep? ==>
          && c.at.event < s.created
          && (c.at.event in s.signalled ||
              (c.key.value in s.claimed && c.key.value in s.events && s.events[c.key.value] == c.at.event)))
    && (c.key.Some? && (c.at.Sandboxed? || c.at.Saving? || c.at.Releasing?) ==> c.key.value in s.claimed)
    && (c.at == Sandboxed(false) ==> c.key.None?)
    && (c.at.Saving? ==> c.at.result.success)
    && (c.at.Releasing? ==> !c.at.result.success)
    && (c.key.Some? && c.at.Returned? && c.at.result.success ==>
          c.key.value in s.records && s.records[c.key.value] == c.at.result)
    && (c.at.Raised? ==> c.at.error == NoResultProduced)
  }

  predicate StoreInv(s: Store) {
    && s.claimed !! s.records.Keys
    && s.claimed + s.records.Keys <= s.events.Keys
    && (forall k :: k in s.events ==> s.events[k] < s.created)
    && (forall j, k :: j in s.events && k in s.events && s.events[j] == s.events[k] ==> j == k)
    && (forall e :: e in s.signalled ==> e < s.created)
    && (forall k :: k in s.events ==> (k in s.claimed <==> s.events[k] !in s.signalled))
    && (forall k :: k in s.records ==> s.records[k].success)
  }

  ghost predicate WinsInv(s: System) {
    && (forall k :: k in s.store.records ==> s.wins[k] == 1)
    && (forall i: nat, k :: SavesFor(s, i, k) ==> s.wins[k] == 1)
    && (forall k :: k !in s.store.records && (forall i: nat :: !SavesFor(s, i, k)) ==> s.wins[k] == 0)
  }

  ghost predicate Inv(s: System) {
    && StoreInv(s.store)
    && (forall i :: 0 <= i < |s.calls| ==> CallInv(s.store, s.calls[i]))
    && (forall k :: k in s.store.claimed ==> HasOwner(s, k))
    && (forall i: nat, j: nat, k :: Owns(s, i, k) && Owns(s, j, k) ==> i == j)
    && WinsInv(s)
  }

  lemma InitialInv(s: System)
    requires Initial(s)
    ensures Inv(s)
  {
  }

  lemma ClaimKeepsStore(s: Store, key: Key)
    requires StoreInv(s)
    ensures StoreInv(Claim(s, key))
  {
  }

  /** Recording, and ending a claim, set the event of the key, which is nobody else's. */
  lemma PutKeepsStore(s: Store, key: Key, result: ToolResult)
    requires StoreInv(s) && key in s.claimed && result.success
    ensures StoreInv(Put(s, key, result))
  {
    assert key in s.events;
  }

  lemma ReleaseKeepsStore(s: Store, key: Key)
    requires StoreInv(s) && key in s.claimed
    ensures StoreInv(Release(s, key))
  {
    assert key in s.events;
  }

  /** A store operation issued by a call that satisfies its own invariant keeps the store's. */
  lemma StoreStep(s: Store, c: Call)
    requires StoreInv(s) && CallInv(s, c) && CanAdvance(s, c)
    ensures StoreInv(NextStore(s, c))
  {
    if c.key.Some? {
      match c.at
      case Claiming => ClaimKeepsStore(s, c.key.value);
      case Saving(result) => PutKeepsStore(s, c.key.value, result);
      case Releasing(_) => ReleaseKeepsStore(s, c.key.value);
      case _ =>
    }
  }

  /** The call that moves satisfies its invariant where it stops next. */
  lemma MoverStep(s: Store, c: Call, outcome: SandboxOutcome)
    requires StoreInv(s) && CallInv(s, c) && CanAdvance(s, c)
    ensures CallInv(NextStore(s, c), c.(at := NextPoint(s, c, outcome)))
  {
  }

  /** Every other call keeps its invariant, provided the two do not own one key together. */
  lemma BystanderStep(s: Store, c: Call, other: Call)
    requires StoreInv(s) && CallInv(s, c) && CanAdvance(s, c) && CallInv(s, other)
    requires c.key.Some? && c.key == other.key && (c.at.Saving? || c.at.Releasing?) ==>
               !(other.at.Sandboxed? || other.at.Saving? || other.at.Releasing?)
    ensures CallInv(NextStore(s, c), other)
  {
  }

  /** One step keeps what the store promises and what every call relies on. */
  lemma StepKeepsCalls(s: System, choice: Choice)
    requires Inv(s)
    ensures var t := Step(s, choice);
      && StoreInv(t.store)
      && (forall i :: 0 <= i < |t.calls| ==> CallInv(t.store, t.calls[i]))
  {
    if Enabled(s, choice.call) {
      var c := s.calls[choice.call];
      StoreStep(s.store, c);
      MoverStep(s.store, c, choice.outcome);
      forall i | 0 <= i < |s.calls| && i != choice.call
        ensures CallInv(NextStore(s.store, c), s.calls[i])
      {
        if c.key.Some? && (c.at.Saving? || c.at.Releasing?) {
          assert Owns(s, choice.call, c.key.value);
          assert !Owns(s, i, c.key.value);
        }
        BystanderStep(s.store, c, s.calls[i]);
      }
    }
  }

  /** A call that owns a key after a step owned it before, or claimed the free key just now. */
  lemma MoverOwns(s: System, choice: Choice, i: nat, key: Key)
    requires Inv(s) && Owns(Step(s, choice), i, key)
    ensures Owns(s, i, key) || (i == choice.call && forall j: nat :: !Owns(s, j, key))
  {
    if Enabled(s, choice.call) && i == choice.call && !Owns(s, i, key) {
      var c := s.calls[i];
      assert CallInv(s.store, c);
      assert c.at.Claiming? && Claimable(s.store, key);
      forall j: nat
        ensures !Owns(s, j, key)
      {
        assert j < |s.calls| ==> CallInv(s.store, s.calls[j]);
      }
    }
  }

  lemma StepKeepsOwners(s: System, choice: Choice)
    requires Inv(s)
    ensures var t := Step(s, choice);
      && (forall k :: k in t.store.claimed ==> HasOwner(t, k))
      && (forall i: nat, j: nat, k :: Owns(t, i, k) && Owns(t, j, k) ==> i == j)
  {
    if Enabled(s, choice.call) {
      var t := Step(s, choice);
      var c := s.calls[choice.call];
      assert CallInv(s.store, c);
      forall k | k in t.store.claimed
        ensures HasOwner(t, k)
      {
        if k in s.store.claimed {
          assert HasOwner(s, k);
          var i: nat :| Owns(s, i, k);
          assert Owns(t, i, k);
        } else {
          assert Owns(t, choice.call, k);
        }
      }
      forall i: nat, j: nat, k | Owns(t, i, k) && Owns(t, j, k)
        ensures i == j
      {
        MoverOwns(s, choice, i, k);
        MoverOwns(s, choice, j, k);
      }
    }
  }

  /** A call that saves after a step saved before it, or has just won. */
  lemma SaverWon(s: System, choice: Choice, j: nat, k: Key)
    requires Inv(s) && SavesFor(Step(s, choice), j, k)
    ensures Step(s, choice).wins[k] == 1
  {
    if Enabled(s, choice.call) {
      var c := s.calls[choice.call];
      if j == choice.call {
        assert Owns(s, j, k);
        assert forall m: nat :: SavesFor(s, m, k) ==> Owns(s, m, k) && m == j;
      } else {
        assert SavesFor(s, j, k) && Owns(s, j, k);
        assert Wins(c, choice.outcome) ==> Owns(s, choice.call, c.key.value);
      }
    }
  }

  lemma RecordWon(s: System, choice: Choice, k: Key)
    requires Inv(s) && k in Step(s, choice).store.records
    ensures Step(s, choice).wins[k] == 1
  {
    if Enabled(s, choice.call) {
      assert CallInv(s.store, s.calls[choice.call]);
      if k !in s.store.records {
        assert SavesFor(s, choice.call, k);
      }
    }
  }

  /** Who saves goes on saving until the record is there. */
  lemma SaverStays(s: System, choice: Choice, m: nat, k: Key)
    requires SavesFor(s, m, k)
    ensures k in Step(s, choice).store.records || SavesFor(Step(s, choice), m, k)
  {
  }

  lemma NobodyWon(s: System, choice: Choice, k: Key)
    requires Inv(s) && k !in Step(s, choice).store.records && forall m: nat :: !SavesFor(Step(s, choice), m, k)
    ensures Step(s, choice).wins[k] == 0
  {
    forall m: nat ensures !SavesFor(s, m, k) {
      if SavesFor(s, m, k) {
        SaverStays(s, choice, m, k);
      }
    }
    assert k !in s.store.records;
    assert s.wins[k] == 0;
    assert !SavesFor(Step(s, choice), choice.call, k);
  }

  lemma StepKeepsWins(s: System, choice: Choice)
    requires Inv(s)
    ensures WinsInv(Step(s, choice))
  {
    var t := Step(s, choice);
    forall j: nat, k | SavesFor(t, j, k) ensures t.wins[k] == 1 {
      SaverWon(s, choice, j, k);
    }
    forall k | k !in t.store.records && forall m: nat :: !SavesFor(t, m, k) ensures t.wins[k] == 0 {
      NobodyWon(s, choice, k);
    }
    forall k | k in t.store.records ensures t.wins[k] == 1 {
      RecordWon(s, choice, k);
    }
  }

  lemma {:induction false} RunKeepsInv(s: System, choices: seq<Choice>)
    requires Inv(s)
    ensures Inv(Run(s, choices))
    decreases |choices|
  {
    if choices != [] {
      StepKeepsCalls(s, choices[0]);
      StepKeepsOwners(s, choices[0]);
      StepKeepsWins(s, choices[0]);
      RunKeepsInv(Step(s, choices[0]), choices[1..]);
    }
  }

  // ---------------------------------------------------------------------------
  // What every run guarantees
  // ---------------------------------------------------------------------------

  /** Sandbox runs for one key never overlap, and at most one of them ever succeeds. */
  lemma SandboxRunsExclude(s: System, choices: seq<Choice>, key: Key, i: nat, j: nat)
    requires Initial(s)
    requires i < |s.calls| && j < |s.calls|
    ensures var t := Run(s, choices);
      && |t.calls| == |s.calls|
      && t.wins[key] <= 1
      && (t.calls[i].key == t.calls[j].key == Some(key) && t.calls[i].at.Sandboxed? && t.calls[j].at.Sandboxed? ==>
            i == j)
  {
    InitialInv(s);
    RunKeepsInv(s, choices);
    RunKeepsShape(s, choices);
    var t := Run(s, choices);
    assert t.calls[i].at.Sandboxed? && t.calls[i].key == Some(key) ==> Owns(t, i, key);
    assert t.calls[j].at.Sandboxed? && t.calls[j].key == Some(key) ==> Owns(t, j, key);
  }

  lemma {:induction false} RunKeepsShape(s: System, choices: seq<Choice>)
    ensures |Run(s, choices).calls| == |s.calls|
    ensures forall i :: 0 <= i < |s.calls| ==> Run(s, choices).calls[i].key == s.calls[i].key
    decreases |choices|
  {
    if choices != [] {
      RunKeepsShape(Step(s, choices[0]), choices[1..]);
    }
  }

  /** Once a result is recorded it stays, whatever happens next, and no call enters the sandbox
      for its key again. */
  lemma {:induction false} RecordsAreFinal(s: System, choices: seq<Choice>, key: Key)
    requires Inv(s) && key in s.store.records
    ensures var t := Run(s, choices);
      && key in t.store.records && t.store.records[key] == s.store.records[key]
      && forall i: nat :: !Owns(t, i, key)
    decreases |choices|
  {
    forall i: nat ensures !Owns(s, i, key) {
      assert i < |s.calls| ==> CallInv(s.store, s.calls[i]);
    }
    if choices != [] {
      var t := Step(s, choices[0]);
      StepKeepsCalls(s, choices[0]);
      StepKeepsOwners(s, choices[0]);
      StepKeepsWins(s, choices[0]);
      assert Enabled(s, choices[0].call) ==> CallInv(s.store, s.calls[choices[0].call]);
      RecordsAreFinal(t, choices[1..], key);
    }
  }

  /** Every call that returns success for a key returns the recorded result, so all agree. */
  lemma SuccessesAgree(s: System, choices: seq<Choice>, i: nat, j: nat)
    requires Initial(s)
    requires i < |s.calls| && j < |s.calls| && s.calls[i].key == s.calls[j].key && s.calls[i].key.Some?
    ensures var t := Run(s, choices);
      && |t.calls| == |s.calls|
      && (t.calls[i].at.Returned? && t.calls[i].at.result.success ==>
            Find(t.store, s.calls[i].key.value) == Some(t.calls[i].at.result))
      && (t.calls[i].at.Returned? && t.calls[i].at.result.success &&
          t.calls[j].at.Returned? && t.calls[j].at.result.success ==>
            t.calls[i].at.result == t.calls[j].at.result)
  {
    InitialInv(s);
    RunKeepsInv(s, choices);
    RunKeepsShape(s, choices);
    var t := Run(s, choices);
    assert CallInv(t.store, t.calls[i]) && CallInv(t.store, t.calls[j]);
  }

  /** A call asleep on an unset event sleeps on its key's current event, the key is claimed and
      an owner that can still move will set the event: no wakeup is lost. */
  lemma NoLostWakeup(s: System, choices: seq<Choice>, i: nat, key: Key)
    requires Initial(s)
    requires i < |s.calls| && s.calls[i].key == Some(key)
    ensures var t := Run(s, choices);
      && |t.calls| == |s.calls|
      && (t.calls[i].at.Asleep? && t.calls[i].at.event !in t.store.signalled ==>
            && key in t.store.claimed
            && key in t.store.events && t.store.events[key] == t.calls[i].at.event
            && exists j: nat :: Owns(t, j, key) && Enabled(t, j))
  {
    InitialInv(s);
    RunKeepsInv(s, choices);
    RunKeepsShape(s, choices);
    var t := Run(s, choices);
    assert CallInv(t.store, t.calls[i]);
    if t.calls[i].at.Asleep? && t.calls[i].at.event !in t.store.signalled {
      assert HasOwner(t, key);
      var j: nat :| Owns(t, j, key);
      assert Enabled(t, j);
    }
  }

  /** A keyed call never reaches the sandbox without the claim, and `wait` never finds its key
      without an operation in flight. */
  lemma FallThroughUnreachable(s: System, choices: seq<Choice>, i: nat)
    requires Initial(s)
    requires i < |s.calls| && s.calls[i].key.Some?
    ensures var t := Run(s, choices);
      && |t.calls| == |s.calls|
      && t.calls[i].at != Sandboxed(false)
      && t.calls[i].at != Raised(NoInFlightOperation)
  {
    InitialInv(s);
    RunKeepsInv(s, choices);
    RunKeepsShape(s, choices);
    assert CallInv(Run(s, choices).store, Run(s, choices).calls[i]);
  }

  /** How many steps a call can still take. */
  function Remaining(c: Call): nat {
    match c.at
    case Entered => 5
    case Claiming => 4
    case Waiting => 3
    case Asleep(_) => 2
    case Woken => 1
    case Sandboxed(_) => 2
    case Saving(_) => 1
    case Releasing(_) => 1
    case Returned(_) => 0
    case Raised(_) => 0
  }

  function Work(calls: seq<Call>): nat {
    if calls == [] then 0 else Remaining(calls[0]) + Work(calls[1..])
  }

  lemma {:induction false} WorkUpdate(calls: seq<Call>, i: nat, c: Call)
    requires i < |calls|
    ensures Work(calls[i := c]) == Work(calls) - Remaining(calls[i]) + Remaining(c)
  {
    if i == 0 {
      assert calls[i := c][1..] == calls[1..];
    } else {
      assert calls[i := c][1..] == calls[1..][i - 1 := c];
      WorkUpdate(calls[1..], i - 1, c);
    }
  }

  /** The protocol cannot stall: while some call is unfinished, some call can move. */
  lemma NeverStalls(s: System, choices: seq<Choice>, i: nat)
    requires Initial(s)
    requires i < |s.calls|
    ensures var t := Run(s, choices);
      |t.calls| == |s.calls| && (!Finished(t.calls[i]) ==> exists j: nat :: Enabled(t, j))
  {
    InitialInv(s);
    RunKeepsInv(s, choices);
    RunKeepsShape(s, choices);
    var t := Run(s, choices);
    assert CallInv(t.store, t.calls[i]);
    if !Finished(t.calls[i]) && !Enabled(t, i) {
      NoLostWakeup(s, choices, i, t.calls[i].key.value);
    }
  }

  lemma AdvanceUsesWork(s: Store, c: Call, outcome: SandboxOutcome)
    requires StoreInv(s) && CallInv(s, c) && CanAdvance(s, c)
    ensures Remaining(c.(at := NextPoint(s, c, outcome))) < Remaining(c)
  {
  }

  /** Nor can it spin: every step taken uses up some of the finite work left. */
  lemma NeverSpins(s: System, choices: seq<Choice>, next: Choice)
    requires Initial(s)
    requires Enabled(Run(s, choices), next.call)
    ensures Work(Step(Run(s, choices), next).calls) < Work(Run(s, choices).calls)
  {
    InitialInv(s);
    RunKeepsInv(s, choices);
    var t := Run(s, choices);
    var c := t.calls[next.call];
    AdvanceUsesWork(t.store, c, next.outcome);
    WorkUpdate(t.calls, next.call, c.(at := NextPoint(t.store, c, next.outcome)));
  }

  // ---------------------------------------------------------------------------
  // The executor's side, on the store object
  // ---------------------------------------------------------------------------

  /** The `ToolExecutor.execute` calls in flight over one store. */
  class ToolExecutor {
    const store: InMemoryIdempotencyStore
    var calls: seq<Call>
    ghost var wins: multiset<Key>

    ghost function View(): System
      reads this, store
    {
      System(store.View(), calls, wins)
    }

    constructor (calls: seq<Call>)
      requires forall c :: c in calls ==> c.at == Entered
      ensures fresh(store) && this.calls == calls
      ensures Initial(View())
    {
      store := new InMemoryIdempotencyStore();
      this.calls := calls;
      wins := multiset{};
    }

    /** Resume call `i` until its next suspension point. */
    method Resume(i: nat, outcome: SandboxOutcome)
      requires Enabled(View(), i)
      modifies this, store
      ensures View() == Step(old(View()), Choice(i, outcome))
    {
      var c := calls[i];
      var next := c.at;
      match c.at {
        case Entered =>
          if c.refusal.Some? {
            next := Returned(Failed(c.refusal.value));
          } else if c.key.None? {
            next := Sandboxed(false);
          } else {
            var existing := store.Get(c.key.value);
            next := if existing.Some? then Returned(existing.value) else Claiming;
          }
        case Claiming =>
          if c.key.Some? {
            var claimed := store.TryClaim(c.key.value);
            next := if claimed then Sandboxed(true) else Waiting;
          }
        case Waiting =>
          if c.key.Some? {
            var entry := store.EnterWait(c.key.value);
            next := match entry
              case Recorded(result) => AfterWait(Some(result))
              case NotInFlight => Raised(NoInFlightOperation)
              case Sleep(event) => Asleep(event);
          }
        case Asleep(_) =>
          next := Woken;
        case Woken =>
          if c.key.Some? {
            var existing := store.Get(c.key.value);
            next := if existing.Some? then AfterWait(existing) else Raised(NoResultProduced);
          }
        case Sandboxed(_) =>
          match outcome {
            case Output(value) =>
              if c.key.Some? {
                wins := wins + multiset{c.key.value};
                next := Saving(Succeeded(value));
              } else {
                next := Returned(Succeeded(value));
              }
            case Exception(message) =>
              next := if c.key.Some? then Releasing(Failed(message)) else Returned(Failed(message));
          }
        case Saving(result) =>
          if c.key.Some? {
            store.Save(c.key.value, result);
          }
          next := Returned(result);
        case Releasing(result) =>
          if c.key.Some? {
            store.Discard(c.key.value);
          }
          next := Returned(result);
        case Returned(_) =>
        case Raised(_) =>
      }
      calls := calls[i := c.(at := next)];
    }
  }
}
