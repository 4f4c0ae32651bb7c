/**
 Admission of a batch of tool calls against three budgets: calls in all, calls of one tool, and
 repetitions of one call. A batch is admitted as a whole or not at all.
 */
module ToolBudget {
  import opened Prelude
  import opened Tables

  /** `ExecutionLimits`, without the timeout. */
  datatype Limits = Limits(
    maxSteps: int,
    maxToolCalls: int,
    maxRepeatedToolCalls: int,
    perToolLimits: map<string, int>,
    maxParallelToolCalls: int)
  {
    predicate Valid() {
      && 0 < maxSteps && 0 < maxToolCalls && 0 < maxRepeatedToolCalls && 0 < maxParallelToolCalls
      && forall name :: name in perToolLimits ==> name != "" && 0 <= perToolLimits[name]
    }
  }

  /** `arguments` is the canonical text of the call's arguments. */
  datatype ToolCall = ToolCall(name: string, arguments: string, callId: string)

  type Key = (string, string)

  function KeyOf(call: ToolCall): Key {
    (call.name, call.arguments)
  }

  datatype Counters = Counters(perTool: map<string, nat>, repeated: map<Key, nat>)

  const NoCalls := Counters(map[], map[])

  datatype Refusal =
    | MissingName
    | MissingCallId
    | UnknownTool(name: string)
    | TooManyCalls
    | TooManyOfTool(name: string)
    | TooManyRepetitions

  // ---------------------------------------------------------------------------
  // One call, and a batch
  // ---------------------------------------------------------------------------

  /** Why the next call may not be admitted after `total` calls counted in `c`, if so. */
  function Refuses(limits: Limits, tools: set<string>, total: nat, c: Counters, call: ToolCall): Option<Refusal> {
    if call.name == "" then Some(MissingName)
    else if call.callId == "" then Some(MissingCallId)
    else if call.name !in tools then Some(UnknownTool(call.name))
    else if total >= limits.maxToolCalls then Some(TooManyCalls)
    else if call.name in limits.perToolLimits && At(c.perTool, call.name) >= limits.perToolLimits[call.name] then
      Some(TooManyOfTool(call.name))
    else if At(c.repeated, KeyOf(call)) >= limits.maxRepeatedToolCalls then Some(TooManyRepetitions)
    else None
  }

  function Count(c: Counters, call: ToolCall): Counters {
    Counters(c.perTool[call.name := At(c.perTool, call.name) + 1],
             c.repeated[KeyOf(call) := At(c.repeated, KeyOf(call)) + 1])
  }

  function Tally(c: Counters, calls: seq<ToolCall>): Counters
    decreases |calls|
  {
    if calls == [] then c else Tally(Count(c, calls[0]), calls[1..])
  }

  /** The first refusal met when the calls are taken one at a time. */
  function Admit(limits: Limits, tools: set<string>, total: nat, c: Counters, calls: seq<ToolCall>): Option<Refusal>
    decreases |calls|
  {
    if calls == [] then None else
    var refusal := Refuses(limits, tools, total, c, calls[0]);
    if refusal.Some? then refusal
    else Admit(limits, tools, total + 1, Count(c, calls[0]), calls[1..])
  }

  // ---------------------------------------------------------------------------
  // What admission means
  // ---------------------------------------------------------------------------

  /** How many calls of the batch use the tool, and how many are the same call. */
  function UsesOf(calls: seq<ToolCall>, name: string): nat
    decreases |calls|
  {
    if calls == [] then 0 else (if calls[0].name == name then 1 else 0) + UsesOf(calls[1..], name)
  }

  function RepeatsOf(calls: seq<ToolCall>, key: Key): nat
    decreases |calls|
  {
    if calls == [] then 0 else (if KeyOf(calls[0]) == key then 1 else 0) + RepeatsOf(calls[1..], key)
  }

  predicate WellFormed(tools: set<string>, call: ToolCall) {
    call.name != "" && call.callId != "" && call.name in tools
  }

  /** The call's tool and the call itself stay within their limits once the whole batch counts. */
  predicate FinalCountsFit(limits: Limits, c: Counters, calls: seq<ToolCall>, call: ToolCall) {
    && (call.name in limits.perToolLimits ==>
          At(c.perTool, call.name) + UsesOf(calls, call.name) <= limits.perToolLimits[call.name])
    && At(c.repeated, KeyOf(call)) + RepeatsOf(calls, KeyOf(call)) <= limits.maxRepeatedToolCalls
  }

  predicate Fits(limits: Limits, tools: set<string>, total: nat, c: Counters, calls: seq<ToolCall>) {
    && (calls != [] ==> total + |calls| <= limits.maxToolCalls)
    && forall i :: 0 <= i < |calls| ==> WellFormed(tools, calls[i]) && FinalCountsFit(limits, c, calls, calls[i])
  }

  lemma {:induction false} Occurs(calls: seq<ToolCall>, i: nat)
    requires i < |calls|
    ensures UsesOf(calls, calls[i].name) > 0 && RepeatsOf(calls, KeyOf(calls[i])) > 0
    decreases |calls|
  {
    if i > 0 {
      Occurs(calls[1..], i - 1);
    }
  }

  /** Counting the first call moves its share from the batch to the counters. */
  lemma FirstCounted(limits: Limits, c: Counters, calls: seq<ToolCall>, call: ToolCall)
    requires calls != []
    ensures FinalCountsFit(limits, c, calls, call) <==> FinalCountsFit(limits, Count(c, calls[0]), calls[1..], call)
  {
  }

  /** A batch is admitted exactly when every call is well formed and the totals at its end meet
      every limit, although each call was checked only against the calls before it. */
  lemma {:induction false} AdmitMeaning(limits: Limits, tools: set<string>, total: nat, c: Counters, calls: seq<ToolCall>)
    ensures Admit(limits, tools, total, c, calls).None? <==> Fits(limits, tools, total, c, calls)
    decreases |calls|
  {
    if calls != [] {
      var first, rest := calls[0], calls[1..];
      AdmitMeaning(limits, tools, total + 1, Count(c, first), rest);
      FirstAdmitted(limits, tools, total, c, calls);
      if Fits(limits, tools, total, c, calls) {
        forall i | 0 <= i < |rest|
          ensures WellFormed(tools, rest[i]) && FinalCountsFit(limits, Count(c, first), rest, rest[i])
        {
          assert rest[i] == calls[i + 1];
          FirstCounted(limits, c, calls, rest[i]);
        }
      } else if Admit(limits, tools, total, c, calls).None? {
        forall i | 0 <= i < |calls|
          ensures WellFormed(tools, calls[i]) && FinalCountsFit(limits, c, calls, calls[i])
        {
          FirstCounted(limits, c, calls, calls[i]);
          if i > 0 {
            assert calls[i] == rest[i - 1];
          } else {
            FirstFits(limits, tools, total, c, calls);
          }
        }
      }
    }
  }

  /** A fitting batch has a first call that is not refused. */
  lemma FirstAdmitted(limits: Limits, tools: set<string>, total: nat, c: Counters, calls: seq<ToolCall>)
    requires calls != []
    ensures Fits(limits, tools, total, c, calls) ==> Refuses(limits, tools, total, c, calls[0]).None?
  {
    Occurs(calls, 0);
    if Fits(limits, tools, total, c, calls) {
      assert WellFormed(tools, calls[0]) && FinalCountsFit(limits, c, calls, calls[0]);
    }
  }

  /** If the rest of an admitted batch fits after its first call, the first call fits too: either
      it is the last of its kind, or a later one of its kind vouches for it. */
  lemma FirstFits(limits: Limits, tools: set<string>, total: nat, c: Counters, calls: seq<ToolCall>)
    requires calls != [] && Refuses(limits, tools, total, c, calls[0]).None?
    requires Fits(limits, tools, total + 1, Count(c, calls[0]), calls[1..])
    ensures FinalCountsFit(limits, c, calls, calls[0])
  {
    var first, rest := calls[0], calls[1..];
    if UsesOf(rest, first.name) > 0 {
      var j := SomeUse(rest, first.name);
      assert FinalCountsFit(limits, Count(c, first), rest, rest[j]);
    }
    if RepeatsOf(rest, KeyOf(first)) > 0 {
      var j := SomeRepeat(rest, KeyOf(first));
      assert FinalCountsFit(limits, Count(c, first), rest, rest[j]);
    }
  }

  lemma {:induction false} SomeUse(calls: seq<ToolCall>, name: string) returns (i: nat)
    requires UsesOf(calls, name) > 0
    ensures i < |calls| && calls[i].name == name
    decreases |calls|
  {
    if calls[0].name == name {
      i := 0;
    } else {
      var j := SomeUse(calls[1..], name);
      i := j + 1;
    }
  }

  lemma {:induction false} SomeRepeat(calls: seq<ToolCall>, key: Key) returns (i: nat)
    requires RepeatsOf(calls, key) > 0
    ensures i < |calls| && KeyOf(calls[i]) == key
    decreases |calls|
  {
    if KeyOf(calls[0]) == key {
      i := 0;
    } else {
      var j := SomeRepeat(calls[1..], key);
      i := j + 1;
    }
  }

  // ---------------------------------------------------------------------------
  // The order of the calls does not matter
  // ---------------------------------------------------------------------------

  lemma {:induction false} CountsConcat(a: seq<ToolCall>, b: seq<ToolCall>, name: string, key: Key)
    ensures UsesOf(a + b, name) == UsesOf(a, name) + UsesOf(b, name)
    ensures RepeatsOf(a + b, key) == RepeatsOf(a, key) + RepeatsOf(b, key)
    decreases |a|
  {
    if a == [] {
      assert a + b == b;
    } else {
      assert (a + b)[1..] == a[1..] + b;
      CountsConcat(a[1..], b, name, key);
    }
  }

  lemma CancelOne(one: multiset<ToolCall>, p: multiset<ToolCall>, q: multiset<ToolCall>)
    requires one + p == one + q
    ensures p == q
  {
    forall x ensures p[x] == q[x] {
      assert (one + p)[x] == (one + q)[x];
    }
  }

  function Without(calls: seq<ToolCall>, i: nat): (rest: seq<ToolCall>)
    requires i < |calls|
    ensures |rest| == |calls| - 1
  {
    calls[..i] + calls[i + 1..]
  }

  /** Taking one call out of a batch takes out its share of every count. */
  lemma TakeOut(calls: seq<ToolCall>, i: nat, name: string, key: Key)
    requires i < |calls|
    ensures multiset(calls) == multiset([calls[i]]) + multiset(Without(calls, i))
    ensures UsesOf(calls, name) == UsesOf([calls[i]], name) + UsesOf(Without(calls, i), name)
    ensures RepeatsOf(calls, key) == RepeatsOf([calls[i]], key) + RepeatsOf(Without(calls, i), key)
  {
    assert calls == calls[..i] + ([calls[i]] + calls[i + 1..]);
    CountsConcat(calls[..i], [calls[i]] + calls[i + 1..], name, key);
    CountsConcat([calls[i]], calls[i + 1..], name, key);
    CountsConcat(calls[..i], calls[i + 1..], name, key);
  }

  lemma TakeOutSame(a: seq<ToolCall>, b: seq<ToolCall>, i: nat)
    requires multiset(a) == multiset(b) && a != [] && i < |b| && b[i] == a[0]
    ensures multiset(Without(a, 0)) == multiset(Without(b, i))
  {
    TakeOut(a, 0, "", ("", ""));
    TakeOut(b, i, "", ("", ""));
    CancelOne(multiset([a[0]]), multiset(Without(a, 0)), multiset(Without(b, i)));
  }

  lemma {:induction false} CountsIgnoreOrder(a: seq<ToolCall>, b: seq<ToolCall>, name: string, key: Key)
    requires multiset(a) == multiset(b)
    ensures UsesOf(a, name) == UsesOf(b, name) && RepeatsOf(a, key) == RepeatsOf(b, key)
    decreases |a|
  {
    if a == [] {
      assert |multiset(b)| == 0;
    } else {
      assert a[0] in multiset(b);
      var i :| 0 <= i < |b| && b[i] == a[0];
      TakeOutSame(a, b, i);
      CountsIgnoreOrder(Without(a, 0), Without(b, i), name, key);
      TakeOut(a, 0, name, key);
      TakeOut(b, i, name, key);
    }
  }

  /** Two batches with the same calls in different orders are admitted or refused together. */
  lemma AdmissionIgnoresOrder(limits: Limits, tools: set<string>, total: nat, c: Counters, a: seq<ToolCall>, b: seq<ToolCall>)
    requires multiset(a) == multiset(b)
    ensures Admit(limits, tools, total, c, a).None? <==> Admit(limits, tools, total, c, b).None?
  {
    AdmitMeaning(limits, tools, total, c, a);
    AdmitMeaning(limits, tools, total, c, b);
    FitsIgnoresOrder(limits, tools, total, c, a, b);
    FitsIgnoresOrder(limits, tools, total, c, b, a);
  }

  lemma FitsIgnoresOrder(limits: Limits, tools: set<string>, total: nat, c: Counters, a: seq<ToolCall>, b: seq<ToolCall>)
    requires multiset(a) == multiset(b)
    ensures Fits(limits, tools, total, c, a) ==> Fits(limits, tools, total, c, b)
  {
    assert |multiset(a)| == |a| && |multiset(b)| == |b|;
    if Fits(limits, tools, total, c, a) {
      forall i | 0 <= i < |b| ensures WellFormed(tools, b[i]) && FinalCountsFit(limits, c, b, b[i]) {
        assert b[i] in multiset(b);
        assert b[i] in a;
        CountsIgnoreOrder(a, b, b[i].name, KeyOf(b[i]));
      }
    }
  }

  // ---------------------------------------------------------------------------
  // The counters over a whole run
  // ---------------------------------------------------------------------------

  /** The counters say of every tool and every call how often it was admitted. */
  lemma {:induction false} TallyCounts(c: Counters, calls: seq<ToolCall>, name: string, key: Key)
    ensures At(Tally(c, calls).perTool, name) == At(c.perTool, name) + UsesOf(calls, name)
    ensures At(Tally(c, calls).repeated, key) == At(c.repeated, key) + RepeatsOf(calls, key)
    decreases |calls|
  {
    if calls != [] {
      TallyCounts(Count(c, calls[0]), calls[1..], name, key);
    }
  }

  /** Both tables sum to the number of calls counted. */
  lemma {:induction false} TallySums(c: Counters, calls: seq<ToolCall>)
    ensures Total(Tally(c, calls).perTool) == Total(c.perTool) + |calls|
    ensures Total(Tally(c, calls).repeated) == Total(c.repeated) + |calls|
    decreases |calls|
  {
    if calls != [] {
      TotalIncrement(c.perTool, calls[0].name);
      TotalIncrement(c.repeated, KeyOf(calls[0]));
      TallySums(Count(c, calls[0]), calls[1..]);
    }
  }

  lemma {:induction false} TallyConcat(c: Counters, a: seq<ToolCall>, b: seq<ToolCall>)
    ensures Tally(c, a + b) == Tally(Tally(c, a), b)
    decreases |a|
  {
    if a == [] {
      assert a + b == b;
    } else {
      assert (a + b)[1..] == a[1..] + b;
      TallyConcat(Count(c, a[0]), a[1..], b);
    }
  }

  lemma {:induction false} AdmitConcat(limits: Limits, tools: set<string>, total: nat, c: Counters, a: seq<ToolCall>, b: seq<ToolCall>)
    ensures Admit(limits, tools, total, c, a + b) ==
            if Admit(limits, tools, total, c, a).Some? then Admit(limits, tools, total, c, a)
            else Admit(limits, tools, total + |a|, Tally(c, a), b)
    decreases |a|
  {
    if a == [] {
      assert a + b == b;
    } else {
      assert (a + b)[1..] == a[1..] + b;
      AdmitConcat(limits, tools, total + 1, Count(c, a[0]), a[1..], b);
    }
  }

  /** One call more of an admitted beginning. */
  lemma AdmitNext(limits: Limits, tools: set<string>, total: nat, c: Counters, calls: seq<ToolCall>, k: nat)
    requires k < |calls| && Admit(limits, tools, total, c, calls[..k]).None?
    requires Refuses(limits, tools, total + k, Tally(c, calls[..k]), calls[k]).None?
    ensures Admit(limits, tools, total, c, calls[..k + 1]).None?
    ensures Tally(c, calls[..k + 1]) == Count(Tally(c, calls[..k]), calls[k])
  {
    assert calls[..k + 1] == calls[..k] + [calls[k]];
    AdmitConcat(limits, tools, total, c, calls[..k], [calls[k]]);
    TallyConcat(c, calls[..k], [calls[k]]);
  }

  /** The first call refused after an admitted beginning decides the batch. */
  lemma AdmitFails(limits: Limits, tools: set<string>, total: nat, c: Counters, calls: seq<ToolCall>, k: nat)
    requires k < |calls| && Admit(limits, tools, total, c, calls[..k]).None?
    requires Refuses(limits, tools, total + k, Tally(c, calls[..k]), calls[k]).Some?
    ensures Admit(limits, tools, total, c, calls) == Refuses(limits, tools, total + k, Tally(c, calls[..k]), calls[k])
  {
    assert calls == calls[..k] + calls[k..];
    AdmitConcat(limits, tools, total, c, calls[..k], calls[k..]);
  }

  /** A run that admits batch after batch, each against the counters the earlier ones left, has
      admitted a set of calls that fits all the limits as if it were one batch. */
  lemma RunsStayWithinBudget(limits: Limits, tools: set<string>, earlier: seq<ToolCall>, batch: seq<ToolCall>)
    requires Fits(limits, tools, 0, NoCalls, earlier)
    requires Admit(limits, tools, |earlier|, Tally(NoCalls, earlier), batch).None?
    ensures Fits(limits, tools, 0, NoCalls, earlier + batch)
    ensures Tally(NoCalls, earlier + batch) == Tally(Tally(NoCalls, earlier), batch)
  {
    AdmitMeaning(limits, tools, 0, NoCalls, earlier);
    AdmitConcat(limits, tools, 0, NoCalls, earlier, batch);
    AdmitMeaning(limits, tools, 0, NoCalls, earlier + batch);
    TallyConcat(NoCalls, earlier, batch);
  }

  /** Whatever a run has admitted, no limit is exceeded and the tables agree with each other. */
  lemma BudgetsHold(limits: Limits, tools: set<string>, calls: seq<ToolCall>, name: string, key: Key)
    requires limits.Valid() && Fits(limits, tools, 0, NoCalls, calls)
    ensures |calls| <= limits.maxToolCalls
    ensures name in limits.perToolLimits ==> At(Tally(NoCalls, calls).perTool, name) <= limits.perToolLimits[name]
    ensures At(Tally(NoCalls, calls).repeated, key) <= limits.maxRepeatedToolCalls
    ensures Total(Tally(NoCalls, calls).perTool) == Total(Tally(NoCalls, calls).repeated) == |calls|
  {
    TallyCounts(NoCalls, calls, name, key);
    TallySums(NoCalls, calls);
    if UsesOf(calls, name) > 0 {
      var i := SomeUse(calls, name);
      assert FinalCountsFit(limits, NoCalls, calls, calls[i]);
    }
    if RepeatsOf(calls, key) > 0 {
      var i := SomeRepeat(calls, key);
      assert FinalCountsFit(limits, NoCalls, calls, calls[i]);
    }
  }
}
