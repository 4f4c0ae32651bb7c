/**
 The routing pipeline: registry, filter, strategy, scorer, affinity, sort and hysteresis.
 Scores are reals. Case folding and trimming are ASCII.
 */
module Routing {
  import opened Prelude
  import opened Ordering

  datatype Model = Model(
    name: string,
    provider: string,
    capabilities: seq<string>,
    contextWindow: int,
    priority: int,
    enabled: bool)

  datatype Constraints = Constraints(
    required: seq<string>,
    providers: seq<string>,
    models: seq<string>,
    minContextWindow: int)

  /** `roles` are the roles of the request's messages. */
  datatype Request = Request(roles: seq<string>, constraints: Constraints)

  datatype Candidate = Candidate(model: Model, score: real)

  datatype Decision = Decision(model: string, provider: string, score: real, strategy: string, candidates: seq<Candidate>)

  datatype RoutingError = InvalidRequest | NoCandidates

  // ---------------------------------------------------------------------------
  // Text
  // ---------------------------------------------------------------------------

  function LowerChar(c: char): char {
    if 'A' <= c <= 'Z' then c - 'A' + 'a' else c
  }

  function Lower(s: string): string {
    seq(|s|, i requires 0 <= i < |s| => LowerChar(s[i]))
  }

  predicate IsSpace(c: char) {
    c in " \t\n\r"
  }

  function TrimLeft(s: string): string {
    if s != "" && IsSpace(s[0]) then TrimLeft(s[1..]) else s
  }

  function TrimRight(s: string): string {
    if s != "" && IsSpace(s[|s| - 1]) then TrimRight(s[..|s| - 1]) else s
  }

  function Trim(s: string): string {
    TrimRight(TrimLeft(s))
  }

  // ---------------------------------------------------------------------------
  // Registry
  // ---------------------------------------------------------------------------

  predicate ValidModel(m: Model) {
    Trim(m.name) != "" && Trim(m.provider) != "" && m.contextWindow >= 0
  }

  predicate ByName(a: Model, b: Model) {
    TextLess(a.name, b.name)
  }

  lemma ByNameIsWeakOrder()
    ensures WeakOrder(ByName)
  {
    forall a, b | ByName(a, b) ensures !ByName(b, a) {
      TextLessAsymmetric(a.name, b.name);
    }
    forall a, b, c | !ByName(b, a) && !ByName(c, b) ensures !ByName(c, a) {
      TextLessTransitive(a.name, b.name, c.name);
    }
  }

  type Models = map<string, Model>

  /** Registered under their own, valid names. */
  predicate WellKeyed(models: Models) {
    forall n :: n in models ==> models[n].name == n && ValidModel(models[n])
  }

  /** The enabled models, each once, in the order of their names. */
  ghost predicate EnabledListing(models: Models, list: seq<Model>) {
    && (forall m :: m in list <==> m.name in models && models[m.name] == m && m.enabled)
    && (forall i, j :: 0 <= i < j < |list| ==> TextLess(list[i].name, list[j].name))
  }

  class Registry {
    var models: Models

    ghost predicate Valid()
      reads this
    {
      WellKeyed(models)
    }

    constructor ()
      ensures Valid() && models == map[]
    {
      models := map[];
    }

    method Register(model: Model) returns (ok: bool)
      requires Valid()
      modifies this
      ensures Valid()
      ensures ok <==> ValidModel(model)
      ensures models == if ok then old(models)[model.name := model] else old(models)
    {
      if Trim(model.name) == "" || Trim(model.provider) == "" || model.contextWindow < 0 {
        return false;
      }
      models := models[model.name := model];
      ok := true;
    }

    method Remove(name: string) returns (removed: bool)
      requires Valid()
      modifies this
      ensures Valid()
      ensures removed <==> Trim(name) != "" && Trim(name) in old(models)
      ensures models == old(models) - if removed then {Trim(name)} else {}
    {
      var trimmed := Trim(name);
      if trimmed == "" || trimmed !in models {
        return false;
      }
      models := models - {trimmed};
      removed := true;
    }

    /** Collects in whatever order the map gives, then sorts. */
    method Enabled() returns (list: seq<Model>)
      requires Valid()
      ensures EnabledListing(models, list)
    {
      var collected: seq<Model> := [];
      var left := models.Keys;
      while left != {}
        invariant left <= models.Keys && Gathered(models, left, collected)
        decreases left
      {
        var name :| name in left;
        GatherOne(models, left, collected, name);
        left := left - {name};
        if models[name].enabled {
          collected := collected + [models[name]];
        }
      }
      list := Sort(ByName, collected);
      SortedListing(models, collected);
    }
  }

  /** The enabled models outside `left`, each once. */
  predicate Gathered(models: Models, left: set<string>, collected: seq<Model>) {
    && (forall m :: m in collected ==> m.name in models && m.name !in left && models[m.name] == m && m.enabled)
    && (forall name :: name in models && name !in left && models[name].enabled ==> models[name] in collected)
    && forall i, j :: 0 <= i < j < |collected| ==> collected[i].name != collected[j].name
  }

  lemma GatherOne(models: Models, left: set<string>, collected: seq<Model>, name: string)
    requires WellKeyed(models) && Gathered(models, left, collected) && name in left && name in models
    ensures Gathered(models, left - {name}, if models[name].enabled then collected + [models[name]] else collected)
  {
    var more := collected + [models[name]];
    assert more[|collected|] == models[name];
    forall i | 0 <= i < |collected| ensures more[i].name != name {
      assert collected[i] in collected;
    }
    forall m | m in collected ensures m in more {
    }
  }

  lemma SortedListing(models: Models, collected: seq<Model>)
    requires WellKeyed(models) && Gathered(models, {}, collected)
    ensures EnabledListing(models, Sort(ByName, collected))
  {
    var list := Sort(ByName, collected);
    ByNameIsWeakOrder();
    SortCorrect(ByName, collected);
    assert forall m :: m in list <==> m in multiset(list);
    DistinctNames(list, collected);
    forall i, j | 0 <= i < j < |list| ensures TextLess(list[i].name, list[j].name) {
      TextLessTotal(list[i].name, list[j].name);
    }
  }

  lemma OccursTwice(xs: seq<Model>, i: nat, j: nat)
    requires i < j < |xs|
    ensures xs[i] == xs[j] ==> multiset(xs)[xs[i]] >= 2
  {
    assert xs == xs[..i] + [xs[i]] + xs[i + 1..j] + [xs[j]] + xs[j + 1..];
  }

  lemma OccursOnce(ys: seq<Model>, a: nat)
    requires a < |ys| && forall i, j :: 0 <= i < j < |ys| ==> ys[i].name != ys[j].name
    ensures multiset(ys)[ys[a]] == 1
  {
    assert ys == ys[..a] + [ys[a]] + ys[a + 1..];
    assert ys[a] !in ys[..a] && ys[a] !in ys[a + 1..];
  }

  /** A rearrangement of models with different names has different names. */
  lemma DistinctNames(xs: seq<Model>, ys: seq<Model>)
    requires multiset(xs) == multiset(ys)
    requires forall i, j :: 0 <= i < j < |ys| ==> ys[i].name != ys[j].name
    ensures forall i, j :: 0 <= i < j < |xs| ==> xs[i].name != xs[j].name
  {
    forall i, j | 0 <= i < j < |xs| ensures xs[i].name != xs[j].name {
      assert xs[i] in multiset(ys) && xs[j] in multiset(ys);
      var a :| 0 <= a < |ys| && ys[a] == xs[i];
      var b :| 0 <= b < |ys| && ys[b] == xs[j];
      OccursOnce(ys, a);
      OccursTwice(xs, i, j);
    }
  }

  /** The listing is determined by the registry's content, not by the map's iteration order. */
  lemma {:induction false} EnabledListingUnique(models: Models, a: seq<Model>, b: seq<Model>)
    requires EnabledListing(models, a) && EnabledListing(models, b)
    ensures a == b
  {
    PrefixForced(a, b);
  }

  lemma {:induction false} PrefixForced(a: seq<Model>, b: seq<Model>)
    requires forall m :: m in a <==> m in b
    requires forall i, j :: 0 <= i < j < |a| ==> TextLess(a[i].name, a[j].name)
    requires forall i, j :: 0 <= i < j < |b| ==> TextLess(b[i].name, b[j].name)
    ensures a == b
  {
    assert b == [] || b[0] in b;
    if a != [] {
      assert a[0] in b && b[0] in a;
      var i :| 0 <= i < |b| && b[i] == a[0];
      var j :| 0 <= j < |a| && a[j] == b[0];
      TextLessAsymmetric(a[0].name, b[0].name);
      assert a[0] == b[0];
      TextLessAsymmetric(a[0].name, a[0].name);
      forall m ensures m in a[1..] <==> m in b[1..] {
        assert m in a <==> m == a[0] || m in a[1..];
        assert m in b <==> m == b[0] || m in b[1..];
      }
      PrefixForced(a[1..], b[1..]);
    }
  }

  // ---------------------------------------------------------------------------
  // Filter
  // ---------------------------------------------------------------------------

  predicate SupportsCapability(m: Model, capability: string) {
    var wanted := Trim(Lower(capability));
    wanted != "" && exists i :: 0 <= i < |m.capabilities| && Lower(Trim(m.capabilities[i])) == Lower(wanted)
  }

  predicate ProviderAllowed(provider: string, allowed: seq<string>) {
    allowed == [] || exists i :: 0 <= i < |allowed| && Lower(Trim(allowed[i])) == Lower(provider)
  }

  predicate ModelAllowed(name: string, allowed: seq<string>) {
    allowed == [] || exists i :: 0 <= i < |allowed| && Trim(allowed[i]) == name
  }

  predicate CapabilitiesSatisfied(m: Model, required: seq<string>) {
    forall i :: 0 <= i < |required| ==> SupportsCapability(m, required[i])
  }

  predicate Eligible(m: Model, c: Constraints) {
    && ProviderAllowed(m.provider, c.providers)
    && ModelAllowed(m.name, c.models)
    && (c.minContextWindow > 0 ==> m.contextWindow >= c.minContextWindow)
    && CapabilitiesSatisfied(m, c.required)
  }

  function Filter(models: seq<Model>, c: Constraints): seq<Model> {
    if models == [] then []
    else Filter(models[..|models| - 1], c) + if Eligible(models[|models| - 1], c) then [models[|models| - 1]] else []
  }

  method FilterCandidates(models: seq<Model>, c: Constraints) returns (result: seq<Model>)
    ensures result == Filter(models, c)
  {
    result := [];
    for i := 0 to |models|
      invariant result == Filter(models[..i], c)
    {
      assert models[..i + 1][..i] == models[..i];
      var m := models[i];
      if !ProviderAllowed(m.provider, c.providers) {
        continue;
      }
      if !ModelAllowed(m.name, c.models) {
        continue;
      }
      if c.minContextWindow > 0 && m.contextWindow < c.minContextWindow {
        continue;
      }
      if !CapabilitiesSatisfied(m, c.required) {
        continue;
      }
      result := result + [m];
    }
    assert models[..|models|] == models;
  }

  // ---------------------------------------------------------------------------
  // Strategy
  // ---------------------------------------------------------------------------

  /** How many of the required capabilities a model supports. */
  function Matched(m: Model, required: seq<string>): nat {
    if required == [] then 0
    else Matched(m, required[..|required| - 1]) + if SupportsCapability(m, required[|required| - 1]) then 1 else 0
  }

  /** One model's place in the capability strategy's answer; none without a match. */
  function Assess(m: Model, required: seq<string>): seq<Candidate> {
    if required == [] then [Candidate(m, 0.0)]
    else if Matched(m, required) == 0 then []
    else [Candidate(m, Matched(m, required) as real / |required| as real)]
  }

  function Evaluate(models: seq<Model>, c: Constraints): seq<Candidate> {
    if models == [] then []
    else Evaluate(models[..|models| - 1], c) + Assess(models[|models| - 1], c.required)
  }

  method EvaluateCapabilities(c: Constraints, models: seq<Model>) returns (results: seq<Candidate>)
    ensures results == Evaluate(models, c)
  {
    results := [];
    for i := 0 to |models|
      invariant results == Evaluate(models[..i], c)
    {
      assert models[..i + 1][..i] == models[..i];
      if c.required == [] {
        results := results + [Candidate(models[i], 0.0)];
        continue;
      }
      var matched := 0;
      for j := 0 to |c.required|
        invariant matched == Matched(models[i], c.required[..j])
      {
        assert c.required[..j + 1][..j] == c.required[..j];
        if SupportsCapability(models[i], c.required[j]) {
          matched := matched + 1;
        }
      }
      assert c.required[..|c.required|] == c.required;
      if matched == 0 {
        continue;
      }
      results := results + [Candidate(models[i], matched as real / |c.required| as real)];
    }
    assert models[..|models|] == models;
  }

  // ---------------------------------------------------------------------------
  // Scoring and choice
  // ---------------------------------------------------------------------------

  type Scorer = (Model, real) -> real

  function PriorityScore(weight: real): Scorer {
    (m: Model, score: real) => score + m.priority as real * weight
  }

  datatype Config = Config(scorer: Option<Scorer>, affinity: real, threshold: real)

  /** Higher score first, then higher priority, then the smaller name. */
  predicate Better(a: Candidate, b: Candidate) {
    if a.score != b.score then a.score > b.score
    else if a.model.priority != b.model.priority then a.model.priority > b.model.priority
    else TextLess(a.model.name, b.model.name)
  }

  function Scored(config: Config, r: Candidate): Candidate {
    if config.scorer.Some? then r.(score := config.scorer.value(r.model, r.score)) else r
  }

  function ScoreAll(config: Config, results: seq<Candidate>): seq<Candidate> {
    seq(|results|, i requires 0 <= i < |results| => Scored(config, results[i]))
  }

  /** The affinity bonus of the session's current model. */
  function Boosted(x: Candidate, current: Option<string>, affinity: real): Candidate {
    if current == Some(x.model.name) then x.(score := x.score + affinity) else x
  }

  function BoostAll(base: seq<Candidate>, current: Option<string>, affinity: real): seq<Candidate> {
    seq(|base|, i requires 0 <= i < |base| => Boosted(base[i], current, affinity))
  }

  function Find(candidates: seq<Candidate>, name: string): Option<Candidate> {
    if candidates == [] then None
    else if candidates[0].model.name == name then Some(candidates[0])
    else Find(candidates[1..], name)
  }

  /** Keep the current model unless the best alternative clears the threshold. */
  function Select(sorted: seq<Candidate>, current: Option<string>, threshold: real): Candidate
    requires sorted != []
  {
    var best := sorted[0];
    if current.None? || current.value == "" || current.value == best.model.name then best
    else
      var kept := Find(sorted, current.value);
      if kept.Some? && best.score < kept.value.score + threshold then kept.value else best
  }

  /** The choice among base-scored candidates for a session on `current`. */
  function Choose(config: Config, base: seq<Candidate>, current: Option<string>): Candidate
    requires base != []
  {
    SortElements(Better, BoostAll(base, current, config.affinity));
    Select(Sort(Better, BoostAll(base, current, config.affinity)), current, config.threshold)
  }

  predicate ValidRequest(r: Request) {
    r.roles != [] && forall i :: 0 <= i < |r.roles| ==> Trim(r.roles[i]) != ""
  }

  /** `Route` up to the session update, on the registry's enabled models. */
  function RouteDecision(config: Config, enabled: seq<Model>, r: Request, current: Option<string>): Result<Decision, RoutingError> {
    if !ValidRequest(r) then Err(InvalidRequest) else
    var results := Evaluate(Filter(enabled, r.constraints), r.constraints);
    if results == [] then Err(NoCandidates) else
    var base := ScoreAll(config, results);
    var chosen := Choose(config, base, current);
    Ok(Decision(chosen.model.name, chosen.model.provider, chosen.score, "capability",
                Sort(Better, BoostAll(base, current, config.affinity))))
  }

  method FindCandidate(candidates: seq<Candidate>, name: string) returns (found: Option<Candidate>)
    ensures found == Find(candidates, name)
  {
    for i := 0 to |candidates|
      invariant Find(candidates, name) == Find(candidates[i..], name)
    {
      assert candidates[i..][1..] == candidates[i + 1..];
      if candidates[i].model.name == name {
        return Some(candidates[i]);
      }
    }
    found := None;
  }

  method ValidateRequest(r: Request) returns (ok: bool)
    ensures ok <==> ValidRequest(r)
  {
    if r.roles == [] {
      return false;
    }
    for i := 0 to |r.roles|
      invariant forall j :: 0 <= j < i ==> Trim(r.roles[j]) != ""
    {
      if Trim(r.roles[i]) == "" {
        return false;
      }
    }
    ok := true;
  }

  /** The scoring loop of `Route`. */
  method ScoreCandidates(config: Config, results: seq<Candidate>, current: Option<string>) returns (scored: seq<Candidate>)
    ensures scored == BoostAll(ScoreAll(config, results), current, config.affinity)
  {
    scored := [];
    for i := 0 to |results|
      invariant |scored| == i
      invariant forall j :: 0 <= j < i ==> scored[j] == Boosted(Scored(config, results[j]), current, config.affinity)
    {
      var score := results[i].score;
      if config.scorer.Some? {
        score := config.scorer.value(results[i].model, score);
      }
      if current == Some(results[i].model.name) {
        score := score + config.affinity;
      }
      scored := scored + [Candidate(results[i].model, score)];
    }
  }

  method Route(config: Config, registry: Registry, r: Request, current: Option<string>)
    returns (result: Result<Decision, RoutingError>)
    requires registry.Valid()
    ensures exists enabled :: EnabledListing(registry.models, enabled) && result == RouteDecision(config, enabled, r, current)
  {
    var enabled := registry.Enabled();
    var valid := ValidateRequest(r);
    if !valid {
      return Err(InvalidRequest);
    }
    var candidates := FilterCandidates(enabled, r.constraints);
    if candidates == [] {
      return Err(NoCandidates);
    }
    var results := EvaluateCapabilities(r.constraints, candidates);
    if results == [] {
      return Err(NoCandidates);
    }
    var scored := ScoreCandidates(config, results, current);
    SortElements(Better, scored);
    var sorted := Sort(Better, scored);
    var selected := sorted[0];
    if current.Some? && current.value != "" && current.value != selected.model.name {
      var kept := FindCandidate(sorted, current.value);
      if kept.Some? && selected.score < kept.value.score + config.threshold {
        selected := kept.value;
      }
    }
    assert selected == Choose(config, ScoreAll(config, results), current);
    result := Ok(Decision(selected.model.name, selected.model.provider, selected.score, "capability", sorted));
  }

  // ---------------------------------------------------------------------------
  // What the pipeline means
  // ---------------------------------------------------------------------------

  predicate DistinctlyNamed(xs: seq<Candidate>) {
    forall i, j :: 0 <= i < j < |xs| ==> xs[i].model.name != xs[j].model.name
  }

  lemma BetterIsWeakOrder()
    ensures WeakOrder(Better)
  {
    forall a, b | Better(a, b) ensures !Better(b, a) {
      TextLessAsymmetric(a.model.name, b.model.name);
    }
    forall a, b, c | !Better(b, a) && !Better(c, b) ensures !Better(c, a) {
      if !TextLess(b.model.name, a.model.name) && !TextLess(c.model.name, b.model.name) {
        TextLessTransitive(a.model.name, b.model.name, c.model.name);
      }
    }
  }

  /** x is the one candidate that is better than all the others. */
  predicate Best(xs: seq<Candidate>, x: Candidate) {
    x in xs && forall i :: 0 <= i < |xs| && xs[i] != x ==> Better(x, xs[i])
  }

  /** Sorting puts the best candidate first. */
  lemma SortedFirstIsBest(xs: seq<Candidate>)
    requires xs != [] && DistinctlyNamed(xs)
    ensures |Sort(Better, xs)| == |xs| && Best(xs, Sort(Better, xs)[0])
  {
    BetterIsWeakOrder();
    SortCorrect(Better, xs);
    var sorted := Sort(Better, xs);
    var first := sorted[0];
    assert first in multiset(xs);
    forall i | 0 <= i < |xs| && xs[i] != first ensures Better(first, xs[i]) {
      assert xs[i] in multiset(sorted);
      var j :| 0 <= j < |sorted| && sorted[j] == xs[i];
      TextLessTotal(first.model.name, xs[i].model.name);
      var k :| 0 <= k < |xs| && xs[k] == first;
    }
  }

  lemma {:induction false} EvaluateEligible(kept: seq<Model>, c: Constraints)
    requires forall i :: 0 <= i < |kept| ==> Eligible(kept[i], c)
    ensures |Evaluate(kept, c)| == |kept|
    ensures forall i :: 0 <= i < |kept| ==> Evaluate(kept, c)[i] == FullMark(kept[i], c)
  {
    if kept != [] {
      var init, last := kept[..|kept| - 1], kept[|kept| - 1];
      assert Eligible(last, c) && forall i :: 0 <= i < |init| ==> init[i] == kept[i];
      EvaluateEligible(init, c);
      AssessEligible(last, c);
      assert Evaluate(kept, c) == Evaluate(init, c) + [FullMark(last, c)];
      forall i | 0 <= i < |kept| ensures Evaluate(kept, c)[i] == FullMark(kept[i], c) {
        assert i < |init| ==> Evaluate(init, c)[i] == FullMark(init[i], c);
      }
    }
  }

  /** The filter has already demanded every capability, so the strategy drops no candidate and
      gives all of them one score. */
  lemma StrategyIsUniform(models: seq<Model>, c: Constraints)
    ensures var kept := Filter(models, c);
      && |Evaluate(kept, c)| == |kept|
      && forall i :: 0 <= i < |kept| ==> Eligible(kept[i], c) && Evaluate(kept, c)[i] == FullMark(kept[i], c)
  {
    var kept := Filter(models, c);
    forall i | 0 <= i < |kept| ensures Eligible(kept[i], c) {
      FilterKeepsEligible(models, c, kept[i]);
    }
    EvaluateEligible(kept, c);
  }

  function FullMark(m: Model, c: Constraints): Candidate {
    Candidate(m, if c.required == [] then 0.0 else 1.0)
  }

  lemma AssessEligible(m: Model, c: Constraints)
    requires Eligible(m, c)
    ensures Assess(m, c.required) == [FullMark(m, c)]
  {
    AllMatched(m, c.required);
    if c.required != [] {
      WholeRatio(|c.required| as real);
    }
  }

  lemma WholeRatio(n: real)
    requires n > 0.0
    ensures n / n == 1.0
  {
  }

  lemma {:induction false} AllMatched(m: Model, required: seq<string>)
    requires CapabilitiesSatisfied(m, required)
    ensures Matched(m, required) == |required|
  {
    if required != [] {
      AllMatched(m, required[..|required| - 1]);
    }
  }

  lemma {:induction false} FilterKeepsEligible(models: seq<Model>, c: Constraints, m: Model)
    ensures m in Filter(models, c) <==> m in models && Eligible(m, c)
  {
    if models != [] {
      FilterKeepsEligible(models[..|models| - 1], c, m);
      assert models == models[..|models| - 1] + [models[|models| - 1]];
    }
  }

  /** A subsequence of a strictly ordered listing names each model once. */
  lemma {:induction false} FilterDistinct(models: seq<Model>, c: Constraints)
    requires forall i, j :: 0 <= i < j < |models| ==> models[i].name != models[j].name
    ensures var kept := Filter(models, c);
      forall i, j :: 0 <= i < j < |kept| ==> kept[i].name != kept[j].name
  {
    if models != [] {
      var init := models[..|models| - 1];
      FilterDistinct(init, c);
      forall i | 0 <= i < |Filter(init, c)| ensures Filter(init, c)[i].name != models[|models| - 1].name {
        FilterKeepsEligible(init, c, Filter(init, c)[i]);
        var j :| 0 <= j < |init| && init[j] == Filter(init, c)[i];
        assert models[j] == init[j];
      }
    }
  }

  ghost predicate PriorityMonotone(scorer: Scorer) {
    forall a: Model, b: Model, s: real :: a.priority <= b.priority ==> scorer(a, s) <= scorer(b, s)
  }

  /** The stock scorer respects priorities exactly when its weight is not negative. */
  lemma PriorityScoreMonotone(weight: real)
    ensures PriorityMonotone(PriorityScore(weight)) <==> weight >= 0.0
  {
    var f := PriorityScore(weight);
    if weight >= 0.0 {
      forall a: Model, b: Model, s: real | a.priority <= b.priority ensures f(a, s) <= f(b, s) {
        assert (b.priority - a.priority) as real * weight >= 0.0;
        assert b.priority as real * weight == a.priority as real * weight + (b.priority - a.priority) as real * weight;
      }
    } else {
      var low, high := Model("", "", [], 0, 0, true), Model("", "", [], 0, 1, true);
      assert f(low, 0.0) > f(high, 0.0);
    }
  }

  /** m outranks every other eligible model: higher priority, or the same and a smaller name. */
  ghost predicate TopEligible(enabled: seq<Model>, c: Constraints, m: Model) {
    && m in enabled && Eligible(m, c)
    && forall o :: o in enabled && Eligible(o, c) && o != m ==>
         m.priority > o.priority || (m.priority == o.priority && TextLess(m.name, o.name))
  }

  lemma BaseShape(config: Config, enabled: seq<Model>, c: Constraints)
    requires forall i, j :: 0 <= i < j < |enabled| ==> TextLess(enabled[i].name, enabled[j].name)
    ensures var base := ScoreAll(config, Evaluate(Filter(enabled, c), c));
      && DistinctlyNamed(base)
      && |base| == |Filter(enabled, c)|
      && (forall i :: 0 <= i < |base| ==>
            base[i] == Scored(config, FullMark(Filter(enabled, c)[i], c)))
  {
    StrategyIsUniform(enabled, c);
    forall i, j | 0 <= i < j < |enabled| ensures enabled[i].name != enabled[j].name {
      TextLessAsymmetric(enabled[i].name, enabled[j].name);
    }
    FilterDistinct(enabled, c);
  }

  /** Among the scored eligible models the first in order is the top one. */
  lemma BestIsTop(config: Config, enabled: seq<Model>, c: Constraints, first: Candidate)
    requires forall i, j :: 0 <= i < j < |enabled| ==> TextLess(enabled[i].name, enabled[j].name)
    requires config.scorer.Some? ==> PriorityMonotone(config.scorer.value)
    requires Best(ScoreAll(config, Evaluate(Filter(enabled, c), c)), first)
    ensures TopEligible(enabled, c, first.model)
  {
    var kept := Filter(enabled, c);
    var base := ScoreAll(config, Evaluate(kept, c));
    BaseShape(config, enabled, c);
    forall m ensures m in kept <==> m in enabled && Eligible(m, c) { FilterKeepsEligible(enabled, c, m); }
    var k :| 0 <= k < |base| && base[k] == first;
    assert first.model == kept[k] && kept[k] in kept;
    forall o | o in enabled && Eligible(o, c) && o != first.model
      ensures first.model.priority > o.priority || (first.model.priority == o.priority && TextLess(first.model.name, o.name))
    {
      assert o in kept;
      var i :| 0 <= i < |kept| && kept[i] == o;
      assert base[i].model == o && Better(first, base[i]);
    }
  }

  /** Without a session, and with any scorer that respects priorities, the decision is the
      eligible enabled model of highest priority with the least name; with no eligible model it
      is NoCandidates. The strategy score plays no part. */
  lemma SessionlessDecision(config: Config, models: Models, enabled: seq<Model>, r: Request)
    requires EnabledListing(models, enabled) && ValidRequest(r)
    requires config.scorer.Some? ==> PriorityMonotone(config.scorer.value)
    ensures match RouteDecision(config, enabled, r, None)
      case Ok(d) => exists m :: TopEligible(enabled, r.constraints, m) && d.model == m.name && d.provider == m.provider
      case Err(e) => e == NoCandidates && forall m :: m in enabled ==> !Eligible(m, r.constraints)
  {
    var c := r.constraints;
    var kept := Filter(enabled, c);
    var base := ScoreAll(config, Evaluate(kept, c));
    BaseShape(config, enabled, c);
    if base == [] {
      forall m ensures m in kept <==> m in enabled && Eligible(m, c) { FilterKeepsEligible(enabled, c, m); }
    } else {
      assert BoostAll(base, None, config.affinity) == base;
      SortedFirstIsBest(base);
      BestIsTop(config, enabled, c, Sort(Better, base)[0]);
    }
  }

  // ---------------------------------------------------------------------------
  // Stability of a session
  // ---------------------------------------------------------------------------

  lemma {:induction false} FindIn(xs: seq<Candidate>, name: string)
    ensures var f := Find(xs, name);
      && (f.Some? ==> f.value in xs && f.value.model.name == name)
      && (f.None? ==> forall i :: 0 <= i < |xs| ==> xs[i].model.name != name)
  {
    if xs != [] {
      FindIn(xs[1..], name);
    }
  }

  lemma BoostedDistinct(base: seq<Candidate>, current: Option<string>, affinity: real)
    requires DistinctlyNamed(base)
    ensures DistinctlyNamed(BoostAll(base, current, affinity))
  {
  }

  /** Looking the current model up in the sorted list finds its boosted candidate, if any. */
  lemma FindSorted(boosted: seq<Candidate>, name: string)
    requires DistinctlyNamed(boosted)
    ensures var kept := Find(Sort(Better, boosted), name);
      && (kept.Some? ==> kept.value in boosted && kept.value.model.name == name)
      && forall i :: 0 <= i < |boosted| && boosted[i].model.name == name ==> kept == Some(boosted[i])
  {
    var sorted := Sort(Better, boosted);
    BetterIsWeakOrder();
    SortCorrect(Better, boosted);
    FindIn(sorted, name);
    var kept := Find(sorted, name);
    if kept.Some? {
      assert kept.value in multiset(boosted);
    }
    forall i | 0 <= i < |boosted| && boosted[i].model.name == name ensures kept == Some(boosted[i]) {
      assert boosted[i] in multiset(sorted);
      var j :| 0 <= j < |sorted| && sorted[j] == boosted[i];
      assert kept.Some? && kept.value in boosted;
      var k :| 0 <= k < |boosted| && boosted[k] == kept.value;
    }
  }

  /** What a turn of a session picks: the best boosted candidate, or the session's own model if
      the best one is not ahead of it by the threshold. */
  lemma ChooseMeaning(config: Config, base: seq<Candidate>, current: Option<string>) returns (best: Candidate, k: nat)
    requires base != [] && DistinctlyNamed(base)
    ensures k < |base| && best == Boosted(base[k], current, config.affinity)
    ensures Best(BoostAll(base, current, config.affinity), best)
    ensures var chosen := Choose(config, base, current);
      chosen == best || current == Some(chosen.model.name)
    ensures current.Some? && current.value != "" && Choose(config, base, current).model.name != current.value ==>
      forall i :: 0 <= i < |base| && base[i].model.name == current.value ==>
        best.score >= base[i].score + config.affinity + config.threshold
  {
    var boosted := BoostAll(base, current, config.affinity);
    BoostedDistinct(base, current, config.affinity);
    SortedFirstIsBest(boosted);
    best := Sort(Better, boosted)[0];
    k :| k < |boosted| && boosted[k] == best;
    if current.Some? {
      FindSorted(boosted, current.value);
      forall i | 0 <= i < |base| && base[i].model.name == current.value
        ensures Find(Sort(Better, boosted), current.value) == Some(boosted[i]) && boosted[i].score == base[i].score + config.affinity
      {
        assert boosted[i].model.name == current.value;
      }
    }
  }

  /** A session leaves an eligible model only for one whose score, before any affinity, is ahead
      by at least the affinity and the threshold together. */
  lemma SwitchNeedsALead(config: Config, base: seq<Candidate>, current: string, i: nat)
    requires DistinctlyNamed(base) && current != ""
    requires i < |base| && base[i].model.name == current
    requires Choose(config, base, Some(current)).model.name != current
    ensures exists k :: 0 <= k < |base| && Choose(config, base, Some(current)) == base[k]
              && base[k].score >= base[i].score + config.affinity + config.threshold
  {
    var best, k := ChooseMeaning(config, base, Some(current));
    assert Choose(config, base, Some(current)) == base[k];
  }

  /** A candidate that is best without any boost keeps its session for good. */
  lemma BestStays(config: Config, base: seq<Candidate>, k: nat)
    requires DistinctlyNamed(base) && k < |base| && Best(base, base[k])
    requires config.affinity >= 0.0
    ensures Choose(config, base, Some(base[k].model.name)).model.name == base[k].model.name
  {
    var current := Some(base[k].model.name);
    var best, j := ChooseMeaning(config, base, current);
    if j != k {
      var boosted := BoostAll(base, current, config.affinity);
      assert boosted[j] == base[j] && Better(base[k], base[j]);
      assert boosted[k] != best;
      TextLessAsymmetric(base[k].model.name, base[j].model.name);
      assert !Better(best, boosted[k]);
    }
  }

  /** Whatever a session switches to, or starts with, is best without any boost. */
  lemma SwitchedToBest(config: Config, base: seq<Candidate>, current: Option<string>) returns (k: nat)
    requires base != [] && DistinctlyNamed(base)
    requires config.affinity >= 0.0 && config.threshold >= 0.0
    requires current.Some? ==> current.value != "" && Choose(config, base, current).model.name != current.value
    ensures k < |base| && Choose(config, base, current) == base[k] && Best(base, base[k])
  {
    var best, j := ChooseMeaning(config, base, current);
    k := j;
    var boosted := BoostAll(base, current, config.affinity);
    forall i | 0 <= i < |base| && base[i] != base[k] ensures Better(base[k], base[i]) {
      assert boosted[i] != best && Better(best, boosted[i]);
    }
  }

  /** The model a session is on after n turns with the same candidates. */
  function AfterTurns(config: Config, base: seq<Candidate>, start: Option<string>, n: nat): Option<string>
    requires base != []
  {
    if n == 0 then start
    else Some(Choose(config, base, AfterTurns(config, base, start, n - 1)).model.name)
  }

  /** How many of the first n turns changed an existing session's model. */
  function Switches(config: Config, base: seq<Candidate>, start: Option<string>, n: nat): nat
    requires base != []
  {
    if n == 0 then 0
    else
      var before := AfterTurns(config, base, start, n - 1);
      Switches(config, base, start, n - 1) +
      if before.Some? && before != AfterTurns(config, base, start, n) then 1 else 0
  }

  /** With fixed candidates and non-negative affinity and threshold, a session switches models at
      most once however long it lasts; a session without a model yet never does. */
  lemma {:induction false} SwitchesAtMostOnce(config: Config, base: seq<Candidate>, start: Option<string>, n: nat)
    requires base != [] && DistinctlyNamed(base)
    requires forall i :: 0 <= i < |base| ==> base[i].model.name != ""
    requires config.affinity >= 0.0 && config.threshold >= 0.0
    requires start != Some("")
    ensures Switches(config, base, start, n) <= if start.None? then 0 else 1
    ensures var now := AfterTurns(config, base, start, n);
      now == start || exists k :: 0 <= k < |base| && now == Some(base[k].model.name) && Best(base, base[k])
    ensures AfterTurns(config, base, start, n) == start ==> Switches(config, base, start, n) == 0
  {
    if n > 0 {
      SwitchesAtMostOnce(config, base, start, n - 1);
      var before := AfterTurns(config, base, start, n - 1);
      if k :| 0 <= k < |base| && before == Some(base[k].model.name) && Best(base, base[k]) {
        BestStays(config, base, k);
      } else if before.None? || Choose(config, base, before).model.name != before.value {
        var k := SwitchedToBest(config, base, before);
      }
    }
  }

  /** The same for whole `Route` calls: on a fixed registry and request, each decision is the
      choice among fixed candidates, so the session's model changes at most once. */
  lemma RoutedSessionSettles(config: Config, models: Models, enabled: seq<Model>, r: Request, start: Option<string>, n: nat)
    requires WellKeyed(models) && EnabledListing(models, enabled) && ValidRequest(r)
    requires config.affinity >= 0.0 && config.threshold >= 0.0 && start != Some("")
    ensures var base := ScoreAll(config, Evaluate(Filter(enabled, r.constraints), r.constraints));
      && (forall current :: RouteDecision(config, enabled, r, current).Ok? <==> base != [])
      && (base != [] ==>
            && (forall current :: RouteDecision(config, enabled, r, current).value.model == Choose(config, base, current).model.name)
            && Switches(config, base, start, n) <= 1)
  {
    var c := r.constraints;
    var base := ScoreAll(config, Evaluate(Filter(enabled, c), c));
    BaseShape(config, enabled, c);
    forall i | 0 <= i < |base| ensures base[i].model.name != "" {
      FilterKeepsEligible(enabled, c, Filter(enabled, c)[i]);
    }
    if base != [] {
      SwitchesAtMostOnce(config, base, start, n);
    }
  }
}
