/**
 The per-client token-bucket limiter with a bounded, evicting bucket map. Seconds and tokens
 are reals; the clock is read under the limiter's lock, so successive readings do not decrease.
 */
module RateLimiter {
  import opened Prelude

  datatype Bucket = Bucket(tokens: real, lastUpdate: real)

  type Buckets = map<string, Bucket>

  /** `NewRateLimiter` takes positive integers for rate and burst. */
  datatype Config = Config(rate: int, burst: int, idleTtl: real, maxBuckets: nat) {
    predicate Valid() {
      rate > 0 && burst > 0 && idleTtl > 0.0 && maxBuckets > 0
    }

    /** An idle bucket is full again by the time it may be evicted. */
    predicate RefillsBeforeEviction() {
      burst as real <= rate as real * idleTtl
    }
  }

  /** `Refused` is a new client turned away because the map is full. */
  datatype Answer = Allowed | Denied | Refused

  // ---------------------------------------------------------------------------
  // The operations on values
  // ---------------------------------------------------------------------------

  predicate Expired(c: Config, b: Bucket, now: real) {
    now - b.lastUpdate >= c.idleTtl
  }

  function Evict(c: Config, m: Buckets, now: real): Buckets {
    map ip | ip in m && !Expired(c, m[ip], now) :: m[ip]
  }

  /** The tokens that accrue over a stretch of time. */
  function Earned(c: Config, elapsed: real): real {
    elapsed * c.rate as real
  }

  function Refilled(c: Config, b: Bucket, now: real): real {
    var elapsed := if now < b.lastUpdate then 0.0 else now - b.lastUpdate;
    MinReal(b.tokens + Earned(c, elapsed), c.burst as real)
  }

  /** Spend a token of an existing bucket, if it has one. */
  function Spend(c: Config, m: Buckets, ip: string, now: real): (Buckets, Answer)
    requires ip in m
  {
    var level := Refilled(c, m[ip], now);
    if level < 1.0 then (m[ip := Bucket(level, now)], Denied)
    else (m[ip := Bucket(level - 1.0, now)], Allowed)
  }

  function NewBucket(c: Config, now: real): Bucket {
    Bucket(c.burst as real, now)
  }

  function Request(c: Config, m: Buckets, ip: string, now: real): (Buckets, Answer) {
    if ip in m then Spend(c, m, ip, now) else
    var room := if |m| >= c.maxBuckets then Evict(c, m, now) else m;
    if |room| >= c.maxBuckets then (room, Refused)
    else Spend(c, room[ip := NewBucket(c, now)], ip, now)
  }

  class RateLimiter {
    const config: Config
    var buckets: Buckets

    constructor (config: Config)
      ensures this.config == config && buckets == map[]
    {
      this.config := config;
      buckets := map[];
    }

    /** Deletes while ranging over the map, in whatever order the map gives. */
    method RemoveExpiredBuckets(now: real)
      modifies this
      ensures buckets == Evict(config, old(buckets), now)
    {
      var left := buckets.Keys;
      while left != {}
        invariant left <= buckets.Keys <= old(buckets).Keys
        invariant forall ip :: ip in buckets ==> buckets[ip] == old(buckets)[ip]
        invariant forall ip :: ip in old(buckets) && ip !in buckets ==> Expired(config, old(buckets)[ip], now)
        invariant forall ip :: ip in buckets && ip !in left ==> !Expired(config, buckets[ip], now)
        decreases left
      {
        var ip :| ip in left;
        left := left - {ip};
        if now - buckets[ip].lastUpdate >= config.idleTtl {
          buckets := buckets - {ip};
        }
      }
      assert buckets == Evict(config, old(buckets), now);
    }

    method Allow(ip: string, now: real) returns (answer: Answer)
      modifies this
      ensures (buckets, answer) == Request(config, old(buckets), ip, now)
    {
      if ip !in buckets {
        if |buckets| >= config.maxBuckets {
          RemoveExpiredBuckets(now);
        }
        if |buckets| >= config.maxBuckets {
          return Refused;
        }
        buckets := buckets[ip := NewBucket(config, now)];
      }
      var b := buckets[ip];
      var elapsed := now - b.lastUpdate;
      if elapsed < 0.0 {
        elapsed := 0.0;
      }
      var tokens := b.tokens + elapsed * config.rate as real;
      if tokens > config.burst as real {
        tokens := config.burst as real;
      }
      if tokens < 1.0 {
        buckets := buckets[ip := Bucket(tokens, now)];
        return Denied;
      }
      buckets := buckets[ip := Bucket(tokens - 1.0, now)];
      answer := Allowed;
    }
  }

  // ---------------------------------------------------------------------------
  // Traces
  // ---------------------------------------------------------------------------

  datatype Arrival = Arrival(ip: string, at: real)

  predicate ClockRuns(trace: seq<Arrival>) {
    forall i, j :: 0 <= i <= j < |trace| ==> trace[i].at <= trace[j].at
  }

  function After(c: Config, trace: seq<Arrival>, n: nat): Buckets
    requires n <= |trace|
  {
    if n == 0 then map[] else Request(c, After(c, trace, n - 1), trace[n - 1].ip, trace[n - 1].at).0
  }

  function AnswerTo(c: Config, trace: seq<Arrival>, i: nat): Answer
    requires i < |trace|
  {
    Request(c, After(c, trace, i), trace[i].ip, trace[i].at).1
  }

  /** How many requests of `ip` among arrivals lo..hi-1 were allowed. */
  function AllowedCount(c: Config, trace: seq<Arrival>, ip: string, lo: nat, hi: nat): nat
    requires lo <= hi <= |trace|
  {
    if lo == hi then 0
    else AllowedCount(c, trace, ip, lo, hi - 1) +
         if trace[hi - 1].ip == ip && AnswerTo(c, trace, hi - 1) == Allowed then 1 else 0
  }

  // ---------------------------------------------------------------------------
  // Invariants of the map
  // ---------------------------------------------------------------------------

  predicate BucketInv(c: Config, b: Bucket, now: real) {
    0.0 <= b.tokens <= c.burst as real && b.lastUpdate <= now
  }

  predicate Inv(c: Config, m: Buckets, now: real) {
    |m| <= c.maxBuckets && forall ip :: ip in m ==> BucketInv(c, m[ip], now)
  }

  lemma EarnedGrows(c: Config, elapsed: real)
    requires c.Valid() && elapsed >= 0.0
    ensures Earned(c, elapsed) >= 0.0
  {
  }

  lemma EarnedAdds(c: Config, start: real, mid: real, end: real)
    ensures Earned(c, end - start) == Earned(c, mid - start) + Earned(c, end - mid)
  {
    var r := c.rate as real;
    assert (end - start) * r == (mid - start) * r + (end - mid) * r;
  }

  lemma SubmapSize<X, Y>(small: map<X, Y>, big: map<X, Y>)
    requires small.Keys <= big.Keys
    ensures |small| <= |big|
  {
    assert |small| == |small.Keys| && |big| == |big.Keys|;
    assert |big.Keys - small.Keys| == |big.Keys| - |small.Keys|;
  }

  lemma RequestKeepsInv(c: Config, m: Buckets, ip: string, now: real)
    requires c.Valid() && Inv(c, m, now)
    ensures Inv(c, Request(c, m, ip, now).0, now)
  {
    SubmapSize(Evict(c, m, now), m);
    if ip in m {
      EarnedGrows(c, now - m[ip].lastUpdate);
      assert m[ip := m[ip]].Keys == m.Keys;
    }
  }

  lemma {:induction false} ReachableInv(c: Config, trace: seq<Arrival>, n: nat, now: real)
    requires c.Valid() && ClockRuns(trace) && n <= |trace|
    requires n > 0 ==> trace[n - 1].at <= now
    ensures Inv(c, After(c, trace, n), now)
  {
    if n > 0 {
      ReachableInv(c, trace, n - 1, trace[n - 1].at);
      RequestKeepsInv(c, After(c, trace, n - 1), trace[n - 1].ip, trace[n - 1].at);
    }
  }

  /** The map never outgrows its limit, and a request only ever drops buckets that have been
      idle for the whole time to live. */
  lemma MapStaysBounded(c: Config, trace: seq<Arrival>, n: nat, ip: string)
    requires c.Valid() && ClockRuns(trace) && n < |trace|
    ensures |After(c, trace, n + 1)| <= c.maxBuckets
    ensures var m := After(c, trace, n);
      ip in m && ip !in After(c, trace, n + 1) ==>
        trace[n].at - m[ip].lastUpdate >= c.idleTtl && trace[n].ip !in m && |m| == c.maxBuckets
  {
    ReachableInv(c, trace, n + 1, trace[n].at);
    ReachableInv(c, trace, n, trace[n].at);
  }

  // ---------------------------------------------------------------------------
  // The window bound
  // ---------------------------------------------------------------------------

  /** The tokens `ip` could spend at `now`; an unknown client would start with a full bucket. */
  function Level(c: Config, m: Buckets, ip: string, now: real): real {
    if ip in m then Refilled(c, m[ip], now) else c.burst as real
  }

  lemma LevelGrows(c: Config, m: Buckets, ip: string, from: real, to: real)
    requires c.Valid() && Inv(c, m, from) && from <= to
    ensures Level(c, m, ip, to) <= Level(c, m, ip, from) + Earned(c, to - from)
  {
    EarnedGrows(c, to - from);
    if ip in m {
      EarnedAdds(c, m[ip].lastUpdate, from, to);
    }
  }

  lemma FullWhenExpired(c: Config, b: Bucket, now: real)
    requires c.Valid() && c.RefillsBeforeEviction() && BucketInv(c, b, now) && Expired(c, b, now)
    ensures Refilled(c, b, now) == c.burst as real
  {
    assert (now - b.lastUpdate) * c.rate as real >= c.idleTtl * c.rate as real by {
      assert (now - b.lastUpdate - c.idleTtl) * c.rate as real >= 0.0;
    }
  }

  /** One request spends at most what it is allowed, and evicting others' buckets (or one's own
      expired bucket) gives nobody a token. */
  lemma RequestSpends(c: Config, m: Buckets, asker: string, now: real, ip: string)
    requires c.Valid() && c.RefillsBeforeEviction() && Inv(c, m, now)
    ensures var (after, answer) := Request(c, m, asker, now);
      && 0.0 <= Level(c, after, ip, now)
      && Level(c, after, ip, now) == Level(c, m, ip, now) - if asker == ip && answer == Allowed then 1.0 else 0.0
  {
    if ip in m {
      EarnedGrows(c, now - m[ip].lastUpdate);
      if Expired(c, m[ip], now) {
        FullWhenExpired(c, m[ip], now);
      }
    }
  }

  lemma FreshBudget(c: Config, m: Buckets, ip: string, now: real)
    ensures Level(c, m, ip, now) <= c.burst as real
  {
  }

  /** What the client had allowed since arrival `lo`, with what it has left at `now`, is within the
      burst and the refill since then. */
  predicate WithinAllowance(c: Config, trace: seq<Arrival>, ip: string, lo: nat, hi: nat, now: real)
    requires lo <= hi <= |trace| && lo < |trace|
  {
    AllowedCount(c, trace, ip, lo, hi) as real + Level(c, After(c, trace, hi), ip, now)
      <= c.burst as real + Earned(c, now - trace[lo].at)
  }

  lemma AllowanceStarts(c: Config, trace: seq<Arrival>, ip: string, lo: nat)
    requires c.Valid() && lo < |trace|
    ensures WithinAllowance(c, trace, ip, lo, lo, trace[lo].at)
  {
    FreshBudget(c, After(c, trace, lo), ip, trace[lo].at);
  }

  /** Between two arrivals the tokens grow no faster than the allowance. */
  lemma AllowanceWaits(c: Config, trace: seq<Arrival>, ip: string, lo: nat, hi: nat, from: real, to: real)
    requires c.Valid() && lo <= hi <= |trace| && lo < |trace|
    requires Inv(c, After(c, trace, hi), from) && from <= to
    requires WithinAllowance(c, trace, ip, lo, hi, from)
    ensures WithinAllowance(c, trace, ip, lo, hi, to)
  {
    LevelGrows(c, After(c, trace, hi), ip, from, to);
    EarnedAdds(c, trace[lo].at, from, to);
  }

  lemma AllowanceSpends(c: Config, trace: seq<Arrival>, ip: string, lo: nat, hi: nat)
    requires c.Valid() && c.RefillsBeforeEviction() && lo < hi <= |trace|
    requires Inv(c, After(c, trace, hi - 1), trace[hi - 1].at)
    requires WithinAllowance(c, trace, ip, lo, hi - 1, trace[hi - 1].at)
    ensures WithinAllowance(c, trace, ip, lo, hi, trace[hi - 1].at)
  {
    RequestSpends(c, After(c, trace, hi - 1), trace[hi - 1].ip, trace[hi - 1].at, ip);
  }

  lemma AllowanceUntilNext(c: Config, trace: seq<Arrival>, ip: string, lo: nat, hi: nat)
    requires c.Valid() && ClockRuns(trace) && lo < hi < |trace|
    requires WithinAllowance(c, trace, ip, lo, hi, trace[hi - 1].at)
    ensures WithinAllowance(c, trace, ip, lo, hi, trace[hi].at)
  {
    ReachableInv(c, trace, hi, trace[hi - 1].at);
    AllowanceWaits(c, trace, ip, lo, hi, trace[hi - 1].at, trace[hi].at);
  }

  /** Allowed requests plus tokens left never exceed the burst plus the refill. */
  lemma {:induction false} Budget(c: Config, trace: seq<Arrival>, ip: string, lo: nat, hi: nat)
    requires c.Valid() && c.RefillsBeforeEviction() && ClockRuns(trace)
    requires lo < hi <= |trace|
    ensures WithinAllowance(c, trace, ip, lo, hi, trace[hi - 1].at)
    decreases hi
  {
    ReachableInv(c, trace, hi - 1, trace[hi - 1].at);
    if lo == hi - 1 {
      AllowanceStarts(c, trace, ip, lo);
      AllowanceSpends(c, trace, ip, lo, lo + 1);
    } else {
      Budget(c, trace, ip, lo, hi - 1);
      AllowanceUntilNext(c, trace, ip, lo, hi - 1);
      AllowanceSpends(c, trace, ip, lo, hi);
    }
  }

  /** Every window of arrivals: at most burst + rate * length requests of a client pass. */
  predicate WindowBound(c: Config, trace: seq<Arrival>, ip: string, lo: nat, hi: nat)
    requires lo < hi <= |trace|
  {
    AllowedCount(c, trace, ip, lo, hi) as real
      <= c.burst as real + Earned(c, trace[hi - 1].at - trace[lo].at)
  }

  lemma WindowHolds(c: Config, trace: seq<Arrival>, ip: string, lo: nat, hi: nat)
    requires c.Valid() && c.RefillsBeforeEviction() && ClockRuns(trace)
    requires lo < hi <= |trace|
    ensures WindowBound(c, trace, ip, lo, hi)
  {
    Budget(c, trace, ip, lo, hi);
    var now := trace[hi - 1].at;
    ReachableInv(c, trace, hi - 1, now);
    RequestSpends(c, After(c, trace, hi - 1), trace[hi - 1].ip, now, ip);
  }

  lemma SpacedBucketPays(c: Config, b: Bucket, now: real)
    requires c.Valid() && BucketInv(c, b, now) && Earned(c, now - b.lastUpdate) >= 1.0
    ensures Refilled(c, b, now) >= 1.0
  {
  }

  lemma ExistingClient(c: Config, m: Buckets, ip: string, now: real)
    requires c.Valid() && Inv(c, m, now) && ip in m && Earned(c, now - m[ip].lastUpdate) >= 1.0
    ensures Request(c, m, ip, now).1 == Allowed
  {
    SpacedBucketPays(c, m[ip], now);
  }

  /** A client whose bucket is still in the map is never denied when it waits at least 1/rate
      between requests. */
  lemma SpacedClientPasses(c: Config, trace: seq<Arrival>, i: nat)
    requires c.Valid() && ClockRuns(trace) && i < |trace|
    requires trace[i].ip in After(c, trace, i)
    requires Earned(c, trace[i].at - After(c, trace, i)[trace[i].ip].lastUpdate) >= 1.0
    ensures AnswerTo(c, trace, i) == Allowed
  {
    ReachableInv(c, trace, i, trace[i].at);
    ExistingClient(c, After(c, trace, i), trace[i].ip, trace[i].at);
  }

  // ---------------------------------------------------------------------------
  // Eviction is invisible
  // ---------------------------------------------------------------------------

  /** The limiter that keeps every bucket forever and has room for everyone. */
  function RefRequest(c: Config, u: Buckets, ip: string, now: real): (Buckets, Answer) {
    Spend(c, if ip in u then u else u[ip := NewBucket(c, now)], ip, now)
  }

  /** That limiter, shown the arrivals the bounded one did not turn away for lack of room. */
  function RefAfter(c: Config, trace: seq<Arrival>, n: nat): Buckets
    requires n <= |trace|
  {
    if n == 0 then map[]
    else if AnswerTo(c, trace, n - 1) == Refused then RefAfter(c, trace, n - 1)
    else RefRequest(c, RefAfter(c, trace, n - 1), trace[n - 1].ip, trace[n - 1].at).0
  }

  /** The bounded map is the unbounded one, less some buckets idle for the whole time to live. */
  predicate Trimmed(c: Config, m: Buckets, u: Buckets, now: real) {
    && (forall ip :: ip in u ==> BucketInv(c, u[ip], now))
    && (forall ip :: ip in m ==> ip in u && u[ip] == m[ip])
    && (forall ip :: ip in u && ip !in m ==> Expired(c, u[ip], now))
  }

  lemma EvictKeepsTrimmed(c: Config, m: Buckets, u: Buckets, now: real)
    requires Trimmed(c, m, u, now)
    ensures Trimmed(c, Evict(c, m, now), u, now)
  {
  }

  /** Whatever bucket the reference spends from, the bounded map's looks the same to it. */
  lemma SpendAlike(c: Config, m: Buckets, u: Buckets, ip: string, now: real)
    requires c.Valid() && Trimmed(c, m, u, now) && ip in m
    ensures Spend(c, m, ip, now).1 == Spend(c, u, ip, now).1
    ensures Trimmed(c, Spend(c, m, ip, now).0, Spend(c, u, ip, now).0, now)
  {
    EarnedGrows(c, now - u[ip].lastUpdate);
  }

  /** A fresh bucket and one idle for the whole time to live are the same to a request. */
  lemma FreshAlike(c: Config, u: Buckets, ip: string, now: real)
    requires c.Valid() && c.RefillsBeforeEviction()
    requires ip in u ==> BucketInv(c, u[ip], now) && Expired(c, u[ip], now)
    ensures RefRequest(c, u, ip, now) == Spend(c, u[ip := NewBucket(c, now)], ip, now)
  {
    if ip in u {
      FullWhenExpired(c, u[ip], now);
      var spent := Bucket(c.burst as real - 1.0, now);
      assert u[ip := NewBucket(c, now)][ip := spent] == u[ip := spent];
    }
  }

  lemma RequestKeepsTrimmed(c: Config, m: Buckets, u: Buckets, ip: string, now: real)
    requires c.Valid() && c.RefillsBeforeEviction() && Trimmed(c, m, u, now)
    ensures var (after, answer) := Request(c, m, ip, now);
      if answer == Refused then
        ip !in m && Trimmed(c, after, u, now)
      else
        answer == RefRequest(c, u, ip, now).1 && Trimmed(c, after, RefRequest(c, u, ip, now).0, now)
  {
    if ip in m {
      SpendAlike(c, m, u, ip, now);
    } else {
      var room := if |m| >= c.maxBuckets then Evict(c, m, now) else m;
      EvictKeepsTrimmed(c, m, u, now);
      if |room| < c.maxBuckets {
        FreshAlike(c, u, ip, now);
        var full := NewBucket(c, now);
        assert Trimmed(c, room[ip := full], u[ip := full], now);
        SpendAlike(c, room[ip := full], u[ip := full], ip, now);
      }
    }
  }

  lemma {:induction false} RunsStayTrimmed(c: Config, trace: seq<Arrival>, n: nat, now: real)
    requires c.Valid() && c.RefillsBeforeEviction() && ClockRuns(trace) && n <= |trace|
    requires n > 0 ==> trace[n - 1].at <= now
    ensures Trimmed(c, After(c, trace, n), RefAfter(c, trace, n), now)
  {
    if n > 0 {
      var at := trace[n - 1].at;
      RunsStayTrimmed(c, trace, n - 1, at);
      RequestKeepsTrimmed(c, After(c, trace, n - 1), RefAfter(c, trace, n - 1), trace[n - 1].ip, at);
    }
  }

  /** The bounded, evicting limiter answers like the one that forgets nobody, except that it may
      turn away a client it has no bucket for when its map is full of unexpired buckets. */
  lemma EvictionIsInvisible(c: Config, trace: seq<Arrival>, i: nat)
    requires c.Valid() && c.RefillsBeforeEviction() && ClockRuns(trace) && i < |trace|
    ensures var m := After(c, trace, i);
      if AnswerTo(c, trace, i) == Refused then
        trace[i].ip !in m && |Evict(c, m, trace[i].at)| >= c.maxBuckets
      else
        AnswerTo(c, trace, i) == RefRequest(c, RefAfter(c, trace, i), trace[i].ip, trace[i].at).1
  {
    RunsStayTrimmed(c, trace, i, trace[i].at);
    RequestKeepsTrimmed(c, After(c, trace, i), RefAfter(c, trace, i), trace[i].ip, trace[i].at);
  }

  // ---------------------------------------------------------------------------
  // Exactly which configurations keep the window bound
  // ---------------------------------------------------------------------------

  function Name(i: nat): (name: string)
    ensures |name| == i
  {
    seq(i, _ => 'x')
  }

  /** One client spends its burst, a crowd fills the map, a newcomer has the idle buckets
      evicted, and the first client comes back to a full bucket. */
  function Comeback(c: Config): (trace: seq<Arrival>)
    requires c.Valid()
    ensures ClockRuns(trace)
  {
    var n := c.burst + c.maxBuckets;
    seq(n + c.burst, i requires 0 <= i < n + c.burst =>
      if i < c.burst then Arrival(Name(0), 0.0)
      else if i < n - 1 then Arrival(Name(i - c.burst + 1), 0.0)
      else if i == n - 1 then Arrival(Name(c.maxBuckets), c.idleTtl)
      else Arrival(Name(0), c.idleTtl))
  }

  /** A request at the very time of its bucket's last update just takes a token. */
  lemma SameInstant(c: Config, m: Buckets, ip: string, now: real, tokens: nat)
    requires c.Valid() && 0 < tokens <= c.burst
    requires if ip in m then m[ip] == Bucket(tokens as real, now) else |m| < c.maxBuckets && tokens == c.burst
    ensures Request(c, m, ip, now) == (m[ip := Bucket((tokens - 1) as real, now)], Allowed)
  {
    assert m[ip := NewBucket(c, now)][ip := Bucket((tokens - 1) as real, now)] == m[ip := Bucket((tokens - 1) as real, now)];
  }

  lemma ComebackAt(c: Config, i: nat)
    requires c.Valid() && i < |Comeback(c)|
    ensures var n := c.burst + c.maxBuckets;
      Comeback(c)[i] == if i < c.burst then Arrival(Name(0), 0.0)
                        else if i < n - 1 then Arrival(Name(i - c.burst + 1), 0.0)
                        else if i == n - 1 then Arrival(Name(c.maxBuckets), c.idleTtl)
                        else Arrival(Name(0), c.idleTtl)
    ensures |Comeback(c)| == c.burst + c.maxBuckets + c.burst
  {
  }

  /** The map and the first client's allowed requests after `i` arrivals of the comeback. */
  predicate Reached(c: Config, i: nat, m: Buckets, allowed: nat)
    requires c.Valid() && i <= |Comeback(c)|
  {
    After(c, Comeback(c), i) == m && AllowedCount(c, Comeback(c), Name(0), 0, i) == allowed
  }

  /** One more arrival of the comeback. */
  lemma Arrives(c: Config, i: nat, m: Buckets, allowed: nat, a: Arrival, after: Buckets, more: nat)
    requires c.Valid() && 0 < i <= |Comeback(c)| && Comeback(c)[i - 1] == a && Reached(c, i - 1, m, allowed)
    requires Request(c, m, a.ip, a.at) == (after, Allowed) && more == allowed + if a.ip == Name(0) then 1 else 0
    ensures Reached(c, i, after, more)
  {
  }

  lemma {:induction false} FirstBurst(c: Config, k: nat)
    requires c.Valid() && k <= c.burst
    ensures Reached(c, k, if k == 0 then map[] else map[Name(0) := Bucket((c.burst - k) as real, 0.0)], k)
  {
    if k > 0 {
      FirstBurst(c, k - 1);
      var m := if k == 1 then map[] else map[Name(0) := Bucket((c.burst - (k - 1)) as real, 0.0)];
      ComebackAt(c, k - 1);
      SameInstant(c, m, Name(0), 0.0, c.burst - (k - 1));
      assert m[Name(0) := Bucket((c.burst - k) as real, 0.0)] == map[Name(0) := Bucket((c.burst - k) as real, 0.0)];
      Arrives(c, k, m, k - 1, Arrival(Name(0), 0.0), map[Name(0) := Bucket((c.burst - k) as real, 0.0)], k);
    }
  }

  /** Every name in the map is at most `k` long and has not been updated since the start. */
  predicate Crowded(m: Buckets, k: nat) {
    |m| == k + 1 && forall ip :: ip in m ==> |ip| <= k && m[ip].lastUpdate == 0.0
  }

  lemma CrowdStep(c: Config, m: Buckets, k: nat)
    requires c.Valid() && 0 < k < c.maxBuckets && Crowded(m, k - 1)
    ensures Crowded(Request(c, m, Name(k), 0.0).0, k) && Request(c, m, Name(k), 0.0).1 == Allowed
  {
    assert Name(k) !in m;
    SameInstant(c, m, Name(k), 0.0, c.burst);
  }

  lemma {:induction false} Crowd(c: Config, k: nat) returns (m: Buckets)
    requires c.Valid() && k < c.maxBuckets
    ensures Crowded(m, k) && Reached(c, c.burst + k, m, c.burst)
  {
    if k == 0 {
      FirstBurst(c, c.burst);
      m := map[Name(0) := Bucket(0.0, 0.0)];
    } else {
      var before := Crowd(c, k - 1);
      ComebackAt(c, c.burst + k - 1);
      CrowdStep(c, before, k);
      assert |Name(k)| != |Name(0)|;
      m := Request(c, before, Name(k), 0.0).0;
      Arrives(c, c.burst + k, before, c.burst, Arrival(Name(k), 0.0), m, c.burst);
    }
  }

  lemma Newcomer(c: Config)
    requires c.Valid()
    ensures Reached(c, c.burst + c.maxBuckets, Returning(c, 0), c.burst)
  {
    var m := Crowd(c, c.maxBuckets - 1);
    ComebackAt(c, c.burst + c.maxBuckets - 1);
    EvictionMakesRoom(c, m, Name(c.maxBuckets));
    assert |Name(c.maxBuckets)| != |Name(0)|;
    Arrives(c, c.burst + c.maxBuckets, m, c.burst, Arrival(Name(c.maxBuckets), c.idleTtl), Returning(c, 0), c.burst);
  }

  /** A newcomer to a map full of expired buckets ends up in it alone. */
  lemma EvictionMakesRoom(c: Config, m: Buckets, name: string)
    requires c.Valid() && |m| == c.maxBuckets && name !in m
    requires forall ip :: ip in m ==> m[ip].lastUpdate == 0.0
    ensures Request(c, m, name, c.idleTtl) == (map[name := Bucket((c.burst - 1) as real, c.idleTtl)], Allowed)
  {
    assert Evict(c, m, c.idleTtl) == map[];
    SameInstant(c, map[], name, c.idleTtl, c.burst);
  }

  /** The map while the first client spends its second burst. */
  function Returning(c: Config, k: nat): Buckets
    requires k <= c.burst
  {
    var newcomer := map[Name(c.maxBuckets) := Bucket((c.burst - 1) as real, c.idleTtl)];
    if k == 0 then newcomer else newcomer[Name(0) := Bucket((c.burst - k) as real, c.idleTtl)]
  }

  lemma ReturnStep(c: Config, k: nat)
    requires c.Valid() && 2 <= c.maxBuckets && 0 < k <= c.burst
    ensures Request(c, Returning(c, k - 1), Name(0), c.idleTtl) == (Returning(c, k), Allowed)
  {
    assert |Name(c.maxBuckets)| != |Name(0)|;
    SameInstant(c, Returning(c, k - 1), Name(0), c.idleTtl, c.burst - (k - 1));
    assert Returning(c, k - 1)[Name(0) := Bucket((c.burst - k) as real, c.idleTtl)] == Returning(c, k);
  }

  lemma {:induction false} SecondBurst(c: Config, k: nat)
    requires c.Valid() && 2 <= c.maxBuckets && k <= c.burst
    ensures Reached(c, c.burst + c.maxBuckets + k, Returning(c, k), c.burst + k)
  {
    if k == 0 {
      Newcomer(c);
    } else {
      SecondBurst(c, k - 1);
      ComebackAt(c, c.burst + c.maxBuckets + k - 1);
      ReturnStep(c, k);
      Arrives(c, c.burst + c.maxBuckets + k, Returning(c, k - 1), c.burst + k - 1, Arrival(Name(0), c.idleTtl),
              Returning(c, k), c.burst + k);
    }
  }

  lemma ComebackOverdraws(c: Config)
    requires c.Valid() && 2 <= c.maxBuckets && !c.RefillsBeforeEviction()
    ensures |Comeback(c)| > 0 && !WindowBound(c, Comeback(c), Name(0), 0, |Comeback(c)|)
  {
    var trace := Comeback(c);
    assert trace[|trace| - 1].at - trace[0].at == c.idleTtl;
    assert Earned(c, c.idleTtl) < c.burst as real by {
      assert c.idleTtl * c.rate as real == c.rate as real * c.idleTtl;
    }
    assert AllowedCount(c, trace, Name(0), 0, |trace|) == 2 * c.burst by {
      SecondBurst(c, c.burst);
    }
  }

  /** The documented window bound holds of every client, trace and window exactly when an idle
      bucket refills before it may be evicted. Nothing checks that when the limiter is built. */
  lemma WindowBoundExactly(c: Config)
    requires c.Valid() && 2 <= c.maxBuckets
    ensures c.RefillsBeforeEviction() <==>
      forall trace: seq<Arrival>, ip: string, lo: nat, hi: nat ::
        ClockRuns(trace) && lo < hi <= |trace| ==> WindowBound(c, trace, ip, lo, hi)
  {
    if c.RefillsBeforeEviction() {
      forall trace: seq<Arrival>, ip: string, lo: nat, hi: nat | ClockRuns(trace) && lo < hi <= |trace|
        ensures WindowBound(c, trace, ip, lo, hi)
      {
        WindowHolds(c, trace, ip, lo, hi);
      }
    } else {
      ComebackOverdraws(c);
    }
  }
}
