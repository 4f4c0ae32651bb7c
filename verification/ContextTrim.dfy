/**
 Token counting and context-window trimming with the character counter. A message is a
 JSON-like dictionary; its cost is its character count over the ratio, rounded up.
 */
module ContextTrim {
  import opened Prelude

  /** `Scalar` is any other value, represented by its `str()` text. */
  datatype Value =
    | Null
    | Text(text: string)
    | Scalar(shown: string)
    | Items(items: seq<Value>)
    | Dict(entries: seq<Entry>)

  datatype Entry = Entry(key: Value, value: Value)

  type Message = seq<Entry>

  // ---------------------------------------------------------------------------
  // Counting
  // ---------------------------------------------------------------------------

  /** Characters of a value, as `_count_value` adds them up. */
  function Chars(v: Value): nat
    decreases v, 0
  {
    match v
    case Null => 0
    case Text(text) => |text|
    case Scalar(shown) => |shown|
    case Items(items) => ItemChars(items)
    case Dict(entries) => EntryChars(entries)
  }

  function ItemChars(items: seq<Value>): nat
    decreases items, 1
  {
    if items == [] then 0 else Chars(items[0]) + ItemChars(items[1..])
  }

  function EntryChars(entries: seq<Entry>): nat
    decreases entries, 1
  {
    if entries == [] then 0 else PairChars(entries[0]) + EntryChars(entries[1..])
  }

  function PairChars(entry: Entry): nat
    decreases entry, 0
  {
    Chars(entry.key) + Chars(entry.value)
  }

  function TotalChars(messages: seq<Message>): nat {
    if messages == [] then 0 else TotalChars(messages[..|messages| - 1]) + EntryChars(messages[|messages| - 1])
  }

  function CeilDiv(n: nat, d: nat): nat
    requires d > 0
  {
    (n + d - 1) / d
  }

  function Tokens(ratio: nat, messages: seq<Message>): nat
    requires ratio > 0
  {
    CeilDiv(TotalChars(messages), ratio)
  }

  /** `CharacterTokenCounter.count_message_tokens`. */
  method CountMessageTokens(ratio: nat, messages: seq<Message>) returns (tokens: nat)
    requires ratio > 0
    ensures tokens == Tokens(ratio, messages)
  {
    var total := 0;
    for i := 0 to |messages|
      invariant total == TotalChars(messages[..i])
    {
      assert messages[..i + 1][..i] == messages[..i];
      total := total + EntryChars(messages[i]);
    }
    assert messages[..|messages|] == messages;
    if total == 0 {
      assert (ratio - 1) / ratio == 0;
      return 0;
    }
    tokens := (total + ratio - 1) / ratio;
  }

  function Lookup(entries: seq<Entry>, key: string): Option<Value> {
    if entries == [] then None
    else if entries[0].key == Text(key) then Some(entries[0].value)
    else Lookup(entries[1..], key)
  }

  predicate IsSystem(m: Message) {
    Lookup(m, "role") == Some(Text("system"))
  }

  /** What `add_message` insists on: a non-empty string role. */
  predicate WellFormed(m: Message) {
    var role := Lookup(m, "role");
    role.Some? && role.value.Text? && role.value.text != ""
  }

  // ---------------------------------------------------------------------------
  // Trimming, as a function
  // ---------------------------------------------------------------------------

  /** Position of the first system message; |messages| when there is none. */
  function FirstSystem(messages: seq<Message>): (i: nat)
    ensures i <= |messages|
    ensures i < |messages| ==> IsSystem(messages[i])
    ensures forall j :: 0 <= j < i ==> !IsSystem(messages[j])
  {
    if messages == [] then 0
    else if IsSystem(messages[0]) then 0
    else 1 + FirstSystem(messages[1..])
  }

  function Without(messages: seq<Message>, i: nat): seq<Message> {
    if i < |messages| then messages[..i] + messages[i + 1..] else messages
  }

  function Cost(ratio: nat, m: Message): nat
    requires ratio > 0
  {
    Tokens(ratio, [m])
  }

  /** The messages kept when scanning from the newest with `budget` tokens to spend. */
  function Keep(ratio: nat, messages: seq<Message>, budget: nat): seq<Message>
    requires ratio > 0
  {
    if messages == [] then [] else
    var older, newest := messages[..|messages| - 1], messages[|messages| - 1];
    var cost := Cost(ratio, newest);
    if cost > budget then Keep(ratio, older, budget)
    else if cost == budget then [newest]
    else Keep(ratio, older, budget - cost) + [newest]
  }

  function Trim(ratio: nat, messages: seq<Message>, available: nat): seq<Message>
    requires ratio > 0
  {
    var i := FirstSystem(messages);
    if i == |messages| then Keep(ratio, messages, available)
    else
      var cost := Cost(ratio, messages[i]);
      if cost > available then []
      else [messages[i]] + Keep(ratio, Without(messages, i), available - cost)
  }

  /** The view sent to inference; without a budget it is the whole context. */
  function InferenceView(ratio: nat, messages: seq<Message>, available: Option<nat>): seq<Message>
    requires ratio > 0
  {
    if available.None? || Tokens(ratio, messages) <= available.value then messages
    else Trim(ratio, messages, available.value)
  }

  // ---------------------------------------------------------------------------
  // Trimming, as the code does it
  // ---------------------------------------------------------------------------

  /** The first system message, and all the others in order. */
  method SplitSystem(input: seq<Message>) returns (system: Option<Message>, remaining: seq<Message>)
    ensures system == if FirstSystem(input) < |input| then Some(input[FirstSystem(input)]) else None
    ensures remaining == Without(input, FirstSystem(input))
  {
    system, remaining := None, [];
    ghost var first := FirstSystem(input);
    for i := 0 to |input|
      invariant system == if first < i then Some(input[first]) else None
      invariant remaining == if first < i then input[..first] + input[first + 1..i] else input[..i]
    {
      if system.None? && IsSystem(input[i]) {
        system := Some(input[i]);
      } else {
        remaining := remaining + [input[i]];
      }
    }
  }

  /** Scan from the newest message, inserting what fits right behind `head`. */
  method KeepNewest(ratio: nat, head: seq<Message>, remaining: seq<Message>, available: nat)
    returns (selected: seq<Message>)
    requires ratio > 0 && |head| <= 1
    ensures selected == head + Keep(ratio, remaining, available)
  {
    selected := head;
    var budget := available;
    var left := |remaining|;
    assert remaining[..left] == remaining;
    ghost var kept: seq<Message> := [];
    while left > 0
      invariant 0 <= left <= |remaining| && selected == head + kept
      invariant Keep(ratio, remaining, available) == Keep(ratio, remaining[..left], budget) + kept
    {
      left := left - 1;
      var m := remaining[left];
      assert remaining[..left + 1][..left] == remaining[..left];
      var cost := CountMessageTokens(ratio, [m]);
      if cost > budget {
        continue;
      }
      selected := selected[..|head|] + [m] + selected[|head|..];
      kept := [m] + kept;
      budget := budget - cost;
      if budget <= 0 {
        break;
      }
    }
  }

  class ContextManager {
    const ratio: nat
    const available: Option<nat>
    var messages: seq<Message>

    /** `available` is the context window less the reserved output, when a budget is set. */
    constructor (ratio: nat, maxContextTokens: Option<nat>, reservedOutputTokens: nat)
      requires ratio > 0
      requires maxContextTokens.Some? ==> reservedOutputTokens < maxContextTokens.value
      ensures this.ratio == ratio && messages == []
      ensures available == if maxContextTokens.None? then None else Some(maxContextTokens.value - reservedOutputTokens)
    {
      this.ratio := ratio;
      available := if maxContextTokens.None? then None else Some(maxContextTokens.value - reservedOutputTokens);
      messages := [];
    }

    /** Rejects a message without a usable role. */
    method AddMessage(m: Message) returns (ok: bool)
      modifies this
      ensures ok <==> WellFormed(m)
      ensures messages == if ok then old(messages) + [m] else old(messages)
    {
      if !WellFormed(m) {
        return false;
      }
      messages := messages + [m];
      ok := true;
    }

    method TrimMessages(input: seq<Message>) returns (selected: seq<Message>)
      requires ratio > 0
      ensures selected == if available.None? then input else Trim(ratio, input, available.value)
    {
      if available.None? {
        return input;
      }
      var system, remaining := SplitSystem(input);
      if system.None? {
        selected := KeepNewest(ratio, [], remaining, available.value);
      } else {
        var cost := CountMessageTokens(ratio, [system.value]);
        if cost > available.value {
          return [];
        }
        selected := KeepNewest(ratio, [system.value], remaining, available.value - cost);
      }
    }

    method GetMessagesForInference() returns (view: seq<Message>)
      requires ratio > 0
      ensures view == InferenceView(ratio, messages, available)
    {
      if messages == [] {
        assert TotalChars([]) == 0 && (ratio - 1) / ratio == 0;
        return [];
      }
      var used := CountMessageTokens(ratio, messages);
      if available.None? || used <= available.value {
        return messages;
      }
      view := TrimMessages(messages);
    }

    method TrimToBudget() returns (result: seq<Message>)
      requires ratio > 0
      modifies this
      ensures messages == result == InferenceView(ratio, old(messages), available)
    {
      var trimmed := GetMessagesForInference();
      messages := trimmed;
      result := messages;
    }
  }

  // ---------------------------------------------------------------------------
  // The budget
  // ---------------------------------------------------------------------------

  lemma MulAtLeast(d: nat, z: int)
    requires d > 0
    ensures z >= 1 ==> d * z >= d
  {
  }

  lemma CeilDivBounds(a: nat, d: nat)
    requires d > 0
    ensures a <= d * CeilDiv(a, d) < a + d
  {
  }

  /** The rounded-up quotient is the least number of whole units that covers the amount. */
  lemma CeilDivLeast(a: nat, d: nat, z: nat)
    requires d > 0 && a <= d * z
    ensures CeilDiv(a, d) <= z
  {
    CeilDivBounds(a, d);
    var over := CeilDiv(a, d) - z;
    assert d * over == d * CeilDiv(a, d) - d * z;
    MulAtLeast(d, over);
  }

  /** Rounding each part up costs at least as much as rounding the whole up. */
  lemma CeilDivSubadditive(a: nat, b: nat, d: nat)
    requires d > 0
    ensures CeilDiv(a + b, d) <= CeilDiv(a, d) + CeilDiv(b, d)
  {
    var x, y := CeilDiv(a, d), CeilDiv(b, d);
    CeilDivBounds(a, d);
    CeilDivBounds(b, d);
    assert d * x + d * y == d * (x + y);
    CeilDivLeast(a + b, d, x + y);
  }

  function CostSum(ratio: nat, messages: seq<Message>): nat
    requires ratio > 0
  {
    if messages == [] then 0
    else CostSum(ratio, messages[..|messages| - 1]) + Cost(ratio, messages[|messages| - 1])
  }

  lemma {:induction false} TokensAtMostCosts(ratio: nat, messages: seq<Message>)
    requires ratio > 0
    ensures Tokens(ratio, messages) <= CostSum(ratio, messages)
  {
    if messages == [] {
      assert (ratio - 1) / ratio == 0;
    } else {
      var older, newest := messages[..|messages| - 1], messages[|messages| - 1];
      TokensAtMostCosts(ratio, older);
      assert [newest][..0] == [];
      assert TotalChars([newest]) == EntryChars(newest);
      CeilDivSubadditive(TotalChars(older), EntryChars(newest), ratio);
    }
  }

  lemma {:induction false} CostSumAppend(ratio: nat, a: seq<Message>, b: seq<Message>)
    requires ratio > 0
    ensures CostSum(ratio, a + b) == CostSum(ratio, a) + CostSum(ratio, b)
  {
    if b == [] {
      assert a + b == a;
    } else {
      assert (a + b)[..|a + b| - 1] == a + b[..|b| - 1];
      CostSumAppend(ratio, a, b[..|b| - 1]);
    }
  }

  lemma CostSumOne(ratio: nat, m: Message)
    requires ratio > 0
    ensures CostSum(ratio, [m]) == Cost(ratio, m)
  {
    assert [m][..0] == [];
  }

  lemma {:induction false} KeepWithinBudget(ratio: nat, messages: seq<Message>, budget: nat)
    requires ratio > 0
    ensures CostSum(ratio, Keep(ratio, messages, budget)) <= budget
  {
    if messages != [] {
      var older, newest := messages[..|messages| - 1], messages[|messages| - 1];
      var cost := Cost(ratio, newest);
      if cost > budget {
        KeepWithinBudget(ratio, older, budget);
      } else {
        CostSumOne(ratio, newest);
        KeepWithinBudget(ratio, older, budget - cost);
        CostSumAppend(ratio, Keep(ratio, older, budget - cost), [newest]);
      }
    }
  }

  lemma TrimWithinBudget(ratio: nat, messages: seq<Message>, available: nat)
    requires ratio > 0
    ensures CostSum(ratio, Trim(ratio, messages, available)) <= available
  {
    var i := FirstSystem(messages);
    if i == |messages| {
      KeepWithinBudget(ratio, messages, available);
    } else {
      var cost := Cost(ratio, messages[i]);
      if cost <= available {
        KeepWithinBudget(ratio, Without(messages, i), available - cost);
        CostSumAppend(ratio, [messages[i]], Keep(ratio, Without(messages, i), available - cost));
        CostSumOne(ratio, messages[i]);
      }
    }
  }

  /** The inference view never exceeds the budget. */
  lemma ViewFits(ratio: nat, messages: seq<Message>, available: nat)
    requires ratio > 0
    ensures Tokens(ratio, InferenceView(ratio, messages, Some(available))) <= available
  {
    TrimWithinBudget(ratio, messages, available);
    TokensAtMostCosts(ratio, Trim(ratio, messages, available));
  }

  // ---------------------------------------------------------------------------
  // Which messages are kept
  // ---------------------------------------------------------------------------

  /** The messages a mask selects, in their order. */
  function Select(messages: seq<Message>, mask: seq<bool>): seq<Message>
    requires |mask| == |messages|
  {
    if messages == [] then []
    else
      var n := |messages| - 1;
      Select(messages[..n], mask[..n]) + if mask[n] then [messages[n]] else []
  }

  /** What the selected messages from position k on cost. */
  function Spent(ratio: nat, messages: seq<Message>, mask: seq<bool>, k: nat): nat
    requires ratio > 0 && |mask| == |messages| && k <= |messages|
    decreases |messages| - k
  {
    if k == |messages| then 0
    else (if mask[k] then Cost(ratio, messages[k]) else 0) + Spent(ratio, messages, mask, k + 1)
  }

  /** The rule: a message is kept exactly when it fits after all newer kept ones. */
  predicate GreedyMask(ratio: nat, messages: seq<Message>, budget: nat, mask: seq<bool>)
    requires ratio > 0
  {
    && |mask| == |messages|
    && forall k :: 0 <= k < |messages| ==> ChosenRightly(ratio, messages, budget, mask, k)
  }

  predicate ChosenRightly(ratio: nat, messages: seq<Message>, budget: nat, mask: seq<bool>, k: nat)
    requires ratio > 0 && k < |messages| == |mask|
  {
    mask[k] <==> Cost(ratio, messages[k]) + Spent(ratio, messages, mask, k + 1) <= budget
  }

  lemma {:induction false} LookupCounts(entries: seq<Entry>, key: string)
    requires Lookup(entries, key).Some?
    ensures EntryChars(entries) >= |key|
  {
    if entries[0].key == Text(key) {
      assert PairChars(entries[0]) >= Chars(Text(key)) == |key|;
    } else {
      LookupCounts(entries[1..], key);
    }
  }

  /** A message always costs something, its "role" key alone has four characters. */
  lemma EveryMessageCosts(ratio: nat, m: Message)
    requires ratio > 0 && WellFormed(m)
    ensures Cost(ratio, m) >= 1
  {
    LookupCounts(m, "role");
    assert [m][..0] == [];
    assert TotalChars([m]) == EntryChars(m) >= 4;
    CeilDivBounds(EntryChars(m), ratio);
  }

  lemma {:induction false} SpentFrame(ratio: nat, messages: seq<Message>, mask: seq<bool>, last: bool, m: Message, k: nat)
    requires ratio > 0 && |mask| == |messages| && k <= |messages|
    ensures Spent(ratio, messages + [m], mask + [last], k) ==
            Spent(ratio, messages, mask, k) + if last then Cost(ratio, m) else 0
    decreases |messages| - k
  {
    if k < |messages| {
      SpentFrame(ratio, messages, mask, last, m, k + 1);
    } else {
      assert Spent(ratio, messages + [m], mask + [last], k + 1) == 0;
    }
  }

  lemma {:induction false} NothingFitsInNothing(ratio: nat, messages: seq<Message>)
    requires ratio > 0 && forall m :: m in messages ==> WellFormed(m)
    ensures Keep(ratio, messages, 0) == []
  {
    if messages != [] {
      EveryMessageCosts(ratio, messages[|messages| - 1]);
      NothingFitsInNothing(ratio, messages[..|messages| - 1]);
    }
  }

  /** A rule-abiding mask for the older messages extends to the newest. */
  lemma GreedyExtends(ratio: nat, older: seq<Message>, newest: Message, budget: nat, rest: seq<bool>, last: bool)
    requires ratio > 0
    requires last <==> Cost(ratio, newest) <= budget
    requires GreedyMask(ratio, older, if last then budget - Cost(ratio, newest) else budget, rest)
    ensures GreedyMask(ratio, older + [newest], budget, rest + [last])
  {
    var messages, mask := older + [newest], rest + [last];
    assert Spent(ratio, messages, mask, |messages|) == 0;
    forall k | 0 <= k < |messages| ensures ChosenRightly(ratio, messages, budget, mask, k) {
      if k < |older| {
        SpentFrame(ratio, older, rest, last, newest, k + 1);
        assert ChosenRightly(ratio, older, if last then budget - Cost(ratio, newest) else budget, rest, k);
      }
    }
  }

  lemma SelectExtends(older: seq<Message>, newest: Message, rest: seq<bool>, last: bool)
    requires |rest| == |older|
    ensures Select(older + [newest], rest + [last]) == Select(older, rest) + if last then [newest] else []
  {
    assert (older + [newest])[..|older|] == older && (rest + [last])[..|older|] == rest;
  }

  /** Keeping follows the rule: what is kept is what some rule-abiding mask selects. */
  lemma {:induction false} KeepIsGreedy(ratio: nat, messages: seq<Message>, budget: nat) returns (mask: seq<bool>)
    requires ratio > 0 && forall m :: m in messages ==> WellFormed(m)
    ensures GreedyMask(ratio, messages, budget, mask)
    ensures Keep(ratio, messages, budget) == Select(messages, mask)
  {
    if messages == [] {
      mask := [];
    } else {
      var older, newest := messages[..|messages| - 1], messages[|messages| - 1];
      assert messages == older + [newest];
      var cost := Cost(ratio, newest);
      var last := cost <= budget;
      var rest := KeepIsGreedy(ratio, older, if last then budget - cost else budget);
      NothingFitsInNothing(ratio, older);
      GreedyExtends(ratio, older, newest, budget, rest, last);
      SelectExtends(older, newest, rest, last);
      mask := rest + [last];
    }
  }

  /** And the rule leaves no choice. */
  lemma {:induction false} GreedyMaskUnique(ratio: nat, messages: seq<Message>, budget: nat,
                                            a: seq<bool>, b: seq<bool>, k: nat)
    requires ratio > 0 && k <= |messages|
    requires GreedyMask(ratio, messages, budget, a) && GreedyMask(ratio, messages, budget, b)
    ensures forall j :: k <= j < |messages| ==> a[j] == b[j]
    ensures Spent(ratio, messages, a, k) == Spent(ratio, messages, b, k)
    decreases |messages| - k
  {
    if k < |messages| {
      GreedyMaskUnique(ratio, messages, budget, a, b, k + 1);
      assert ChosenRightly(ratio, messages, budget, a, k) && ChosenRightly(ratio, messages, budget, b, k);
    }
  }

  lemma {:induction false} SpentGrows(ratio: nat, messages: seq<Message>, mask: seq<bool>, k: nat)
    requires ratio > 0 && |mask| == |messages| && k <= |messages|
    ensures Spent(ratio, messages, mask, k) <= Spent(ratio, messages, mask, 0)
    decreases k
  {
    if k > 0 {
      SpentGrows(ratio, messages, mask, k - 1);
    }
  }

  /** A rule-abiding choice is maximal: nothing left out fits next to all that was kept. */
  lemma GreedyIsMaximal(ratio: nat, messages: seq<Message>, budget: nat, mask: seq<bool>, k: nat)
    requires ratio > 0 && GreedyMask(ratio, messages, budget, mask)
    requires k < |messages| && !mask[k]
    ensures Spent(ratio, messages, mask, 0) + Cost(ratio, messages[k]) > budget
  {
    assert ChosenRightly(ratio, messages, budget, mask, k);
    SpentGrows(ratio, messages, mask, k + 1);
  }

  /** Trimming means: the first system message if there is one, then an order-preserving choice
      of the others made by the rule. When the system message alone is too big, nothing is left. */
  lemma TrimMeaning(ratio: nat, messages: seq<Message>, available: nat) returns (mask: seq<bool>)
    requires ratio > 0 && forall m :: m in messages ==> WellFormed(m)
    ensures var i := FirstSystem(messages);
      var system := if i < |messages| then [messages[i]] else [];
      var cost := if i < |messages| then Cost(ratio, messages[i]) else 0;
      if cost > available then Trim(ratio, messages, available) == []
      else
        && GreedyMask(ratio, Without(messages, i), available - cost, mask)
        && Trim(ratio, messages, available) == system + Select(Without(messages, i), mask)
  {
    var i := FirstSystem(messages);
    var cost := if i < |messages| then Cost(ratio, messages[i]) else 0;
    mask := [];
    if cost <= available {
      WithoutIsAmong(messages, i);
      mask := KeepIsGreedy(ratio, Without(messages, i), available - cost);
    }
  }

  lemma WithoutIsAmong(messages: seq<Message>, i: nat)
    ensures forall m :: m in Without(messages, i) ==> m in messages
  {
  }

  // ---------------------------------------------------------------------------
  // Idempotence
  // ---------------------------------------------------------------------------

  lemma {:induction false} KeepAll(ratio: nat, messages: seq<Message>, budget: nat)
    requires ratio > 0 && CostSum(ratio, messages) <= budget
    requires forall m :: m in messages ==> WellFormed(m)
    ensures Keep(ratio, messages, budget) == messages
  {
    if messages != [] {
      var older, newest := messages[..|messages| - 1], messages[|messages| - 1];
      var cost := Cost(ratio, newest);
      if cost == budget {
        if older != [] {
          EveryMessageCosts(ratio, older[|older| - 1]);
        }
        assert older == [];
      } else {
        KeepAll(ratio, older, budget - cost);
      }
    }
  }

  lemma {:induction false} KeptAreAmong(ratio: nat, messages: seq<Message>, budget: nat)
    requires ratio > 0
    ensures forall m :: m in Keep(ratio, messages, budget) ==> m in messages
  {
    if messages != [] {
      var older, newest := messages[..|messages| - 1], messages[|messages| - 1];
      var cost := Cost(ratio, newest);
      KeptAreAmong(ratio, older, if cost > budget then budget else budget - cost);
    }
  }

  lemma KeepAgain(ratio: nat, messages: seq<Message>, budget: nat)
    requires ratio > 0 && forall m :: m in messages ==> WellFormed(m)
    ensures Keep(ratio, Keep(ratio, messages, budget), budget) == Keep(ratio, messages, budget)
  {
    KeptAreAmong(ratio, messages, budget);
    KeepWithinBudget(ratio, messages, budget);
    KeepAll(ratio, Keep(ratio, messages, budget), budget);
  }

  lemma TrimAgainPlain(ratio: nat, messages: seq<Message>, available: nat)
    requires ratio > 0 && forall m :: m in messages ==> WellFormed(m)
    requires FirstSystem(messages) == |messages|
    ensures Trim(ratio, Trim(ratio, messages, available), available) == Trim(ratio, messages, available)
  {
    var kept := Keep(ratio, messages, available);
    KeptAreAmong(ratio, messages, available);
    KeepAgain(ratio, messages, available);
    assert forall m :: m in messages ==> !IsSystem(m);
    assert FirstSystem(kept) == |kept|;
  }

  lemma TrimHeaded(ratio: nat, system: Message, kept: seq<Message>, available: nat)
    requires ratio > 0 && IsSystem(system) && Cost(ratio, system) <= available
    requires Keep(ratio, kept, available - Cost(ratio, system)) == kept
    ensures Trim(ratio, [system] + kept, available) == [system] + kept
  {
    assert Without([system] + kept, 0) == kept;
  }

  /** What is trimmed to, when there is a system message that fits. */
  lemma TrimmedHeaded(ratio: nat, messages: seq<Message>, available: nat)
    requires ratio > 0 && FirstSystem(messages) < |messages| && Cost(ratio, messages[FirstSystem(messages)]) <= available
    ensures var i := FirstSystem(messages);
      Trim(ratio, messages, available) ==
        [messages[i]] + Keep(ratio, Without(messages, i), available - Cost(ratio, messages[i]))
  {
  }

  lemma {:induction false} TrimAgainSystem(ratio: nat, messages: seq<Message>, available: nat)
    requires ratio > 0 && forall m :: m in messages ==> WellFormed(m)
    requires FirstSystem(messages) < |messages|
    ensures Trim(ratio, Trim(ratio, messages, available), available) == Trim(ratio, messages, available)
  {
    var i := FirstSystem(messages);
    var cost := Cost(ratio, messages[i]);
    if cost > available {
      assert Trim(ratio, messages, available) == [];
      assert Trim(ratio, [], available) == [];
    } else {
      var others := Without(messages, i);
      WithoutIsAmong(messages, i);
      KeepAgain(ratio, others, available - cost);
      TrimHeaded(ratio, messages[i], Keep(ratio, others, available - cost), available);
      TrimmedHeaded(ratio, messages, available);
    }
  }

  /** Trimming what was trimmed changes nothing, and neither does asking for the view again. */
  lemma TrimIdempotent(ratio: nat, messages: seq<Message>, available: nat)
    requires ratio > 0 && forall m :: m in messages ==> WellFormed(m)
    ensures var once := Trim(ratio, messages, available);
      Trim(ratio, once, available) == once
    ensures var view := InferenceView(ratio, messages, Some(available));
      InferenceView(ratio, view, Some(available)) == view
  {
    ViewFits(ratio, messages, available);
    if FirstSystem(messages) == |messages| {
      TrimAgainPlain(ratio, messages, available);
    } else {
      TrimAgainSystem(ratio, messages, available);
    }
  }
}
