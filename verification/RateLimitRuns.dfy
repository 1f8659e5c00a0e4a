/**
 Runs of the rate limiter: any sequence of requests by any clients, with sweeps in between.
 Calls and sweeps both read the clock under the limiter's mutex, so their times do not decrease.
 */
module RateLimitRuns {
  import opened Common
  import opened RateLimits
  import opened Arithmetic

  datatype Event = Call(key: string, now: Time) | Sweep(now: Time)

  function Buckets(cfg: Config, es: seq<Event>): map<string, Bucket> {
    if es == [] then map[]
    else
      var before := Buckets(cfg, es[..|es| - 1]);
      match es[|es| - 1]
      case Call(key, now) => before[key := AfterCall(cfg, Find(before, key), now)]
      case Sweep(now) => Swept(before, now)
  }

  /** The limiter's answer to the last event's client, given everything before it. */
  predicate Answer(cfg: Config, before: seq<Event>, key: string, now: Time) {
    Grants(cfg, Find(Buckets(cfg, before), key), now)
  }

  ghost predicate Ordered(es: seq<Event>) {
    forall i, j | 0 <= i < j < |es| :: es[i].now <= es[j].now
  }

  // ----- One client alone, never swept -----

  /** The bucket of a client that calls at `ts`, on a limiter that serves nobody else and never sweeps. */
  function Alone(cfg: Config, ts: seq<Time>): Option<Bucket> {
    if ts == [] then None
    else Some(AfterCall(cfg, Alone(cfg, ts[..|ts| - 1]), ts[|ts| - 1]))
  }

  function TimesOf(es: seq<Event>, key: string): seq<Time> {
    if es == [] then []
    else
      var e := es[|es| - 1];
      TimesOf(es[..|es| - 1], key) + if e.Call? && e.key == key then [e.now] else []
  }

  ghost predicate Rising(ts: seq<Time>) {
    forall i, j | 0 <= i < j < |ts| :: ts[i] <= ts[j]
  }

  /** How many of the calls at `ts` fall in the closed interval from `a` to `b`. */
  function CallsIn(ts: seq<Time>, a: Time, b: Time): nat {
    if ts == [] then 0
    else CallsIn(ts[..|ts| - 1], a, b) + if a <= ts[|ts| - 1] <= b then 1 else 0
  }

  /** How many of them are let through. */
  function PassedIn(cfg: Config, ts: seq<Time>, a: Time, b: Time): nat {
    if ts == [] then 0
    else
      var before, t := ts[..|ts| - 1], ts[|ts| - 1];
      PassedIn(cfg, before, a, b) + if a <= t <= b && Grants(cfg, Alone(cfg, before), t) then 1 else 0
  }

  lemma OneMoreCall(cfg: Config, ts: seq<Time>, t: Time, a: Time, b: Time)
    ensures Alone(cfg, ts + [t]) == Some(AfterCall(cfg, Alone(cfg, ts), t))
    ensures PassedIn(cfg, ts + [t], a, b) ==
            PassedIn(cfg, ts, a, b) + if a <= t <= b && Grants(cfg, Alone(cfg, ts), t) then 1 else 0
    ensures CallsIn(ts + [t], a, b) == CallsIn(ts, a, b) + if a <= t <= b then 1 else 0
  {
    assert (ts + [t])[..|ts|] == ts;
  }

  lemma {:induction false} TimesRise(es: seq<Event>, key: string, now: Time)
    requires Ordered(es) && (forall i | 0 <= i < |es| :: es[i].now <= now)
    ensures Rising(TimesOf(es, key))
    ensures forall i | 0 <= i < |TimesOf(es, key)| :: TimesOf(es, key)[i] <= now
  {
    if es != [] {
      TimesRise(es[..|es| - 1], key, es[|es| - 1].now);
    }
  }

  /** The real limiter's bucket for a key is the lone client's, or was swept after it had expired. */
  ghost predicate Mirrors(actual: Option<Bucket>, lone: Option<Bucket>, clock: Time) {
    actual == lone || (actual.None? && lone.Some? && Expired(lone.value, clock))
  }

  lemma {:induction false} RealMirrorsLone(cfg: Config, es: seq<Event>, key: string, now: Time)
    requires Ordered(es) && (forall i | 0 <= i < |es| :: es[i].now <= now)
    ensures Mirrors(Find(Buckets(cfg, es), key), Alone(cfg, TimesOf(es, key)), now)
  {
    if es != [] {
      var before, e := es[..|es| - 1], es[|es| - 1];
      RealMirrorsLone(cfg, before, key, e.now);
      var ts := TimesOf(before, key);
      OneMoreCall(cfg, ts, e.now, 0, 0);
      assert ts + [] == ts;
    }
  }

  /**
   Sweeps are invisible and clients independent: whatever the run, the answer to a client is the
   answer of a limiter that never sweeps and has seen only that client's own calls.
   */
  lemma {:induction false} AnswersAreTheClientsOwn(cfg: Config, es: seq<Event>, i: nat)
    requires Ordered(es) && i < |es| && es[i].Call?
    ensures Answer(cfg, es[..i], es[i].key, es[i].now) <==>
            Grants(cfg, Alone(cfg, TimesOf(es[..i], es[i].key)), es[i].now)
  {
    RealMirrorsLone(cfg, es[..i], es[i].key, es[i].now);
  }

  /** A sweep leaves exactly the clients whose window is still running, so it holds no more buckets than those. */
  lemma {:induction false} SweepLeavesRunningWindows(cfg: Config, es: seq<Event>, key: string, now: Time)
    requires Ordered(es + [Sweep(now)])
    ensures key in Buckets(cfg, es + [Sweep(now)]) <==>
            var lone := Alone(cfg, TimesOf(es, key)); lone.Some? && now <= lone.value.resetAt
  {
    var all := es + [Sweep(now)];
    assert all[..|es|] == es && all[|es|] == Sweep(now);
    assert forall i | 0 <= i < |es| :: es[i] == all[i];
    RealMirrorsLone(cfg, es, key, now);
    assert Find(Buckets(cfg, es), key).Some? <==> key in Buckets(cfg, es);
  }

  /** How many calls of `key` the real limiter lets through in the closed interval from `a` to `b`. */
  function Passed(cfg: Config, es: seq<Event>, key: string, a: Time, b: Time): nat {
    if es == [] then 0
    else
      var before, e := es[..|es| - 1], es[|es| - 1];
      Passed(cfg, before, key, a, b) +
      if e.Call? && e.key == key && a <= e.now <= b && Answer(cfg, before, key, e.now) then 1 else 0
  }

  lemma {:induction false} PassedAlone(cfg: Config, es: seq<Event>, key: string, a: Time, b: Time)
    requires Ordered(es)
    ensures Passed(cfg, es, key, a, b) == PassedIn(cfg, TimesOf(es, key), a, b)
  {
    if es != [] {
      var before, e := es[..|es| - 1], es[|es| - 1];
      PassedAlone(cfg, before, key, a, b);
      RealMirrorsLone(cfg, before, key, e.now);
      OneMoreCall(cfg, TimesOf(before, key), e.now, a, b);
      assert TimesOf(before, key) + [] == TimesOf(before, key);
    }
  }

  // ----- The rate bound -----

  function Opened(cfg: Config, b: Bucket): Time {
    b.resetAt - cfg.window
  }

  /**
   `c` requests have passed since `a`, and the current window is the `k`-th opened since then:
   windows open more than a window apart, and the one already open at `a` has spent a request before it.
   */
  ghost predicate Windows(cfg: Config, b: Bucket, a: Time, c: nat, k: nat) {
    && 1 <= b.count <= Allowance(cfg)
    && (Opened(cfg, b) < a ==> c < b.count)
    && (a <= Opened(cfg, b) ==>
          && 1 <= k
          && c < k * Allowance(cfg) + b.count
          && a + (k - 1) * cfg.window <= Opened(cfg, b)
          && (2 <= k ==> a + (k - 1) * cfg.window < Opened(cfg, b)))
  }

  lemma {:induction false} WindowsSince(cfg: Config, ts: seq<Time>, a: Time, b: Time) returns (k: nat)
    requires Rising(ts) && ts != [] && ts[|ts| - 1] <= b
    ensures Windows(cfg, Alone(cfg, ts).value, a, PassedIn(cfg, ts, a, b), k)
    ensures Opened(cfg, Alone(cfg, ts).value) <= ts[|ts| - 1]
    ensures ts[|ts| - 1] < a ==> PassedIn(cfg, ts, a, b) == 0
  {
    var n := |ts| - 1;
    var before, t := ts[..n], ts[n];
    k := 1;
    if n == 0 {
      assert before == [];
    } else {
      k := WindowsSince(cfg, before, a, b);
      var bucket := Alone(cfg, before).value;
      if Expired(bucket, t) {
        if a <= Opened(cfg, bucket) {
          assert (k + 1) * Allowance(cfg) == k * Allowance(cfg) + Allowance(cfg);
          assert k * cfg.window == (k - 1) * cfg.window + cfg.window;
          k := k + 1;
        } else {
          k := 1;
        }
      }
    }
  }

  lemma {:induction false} PassedInEmpty(cfg: Config, ts: seq<Time>, a: Time, b: Time)
    requires b < a || ts == []
    ensures PassedIn(cfg, ts, a, b) == 0
  {
    if ts != [] {
      PassedInEmpty(cfg, ts[..|ts| - 1], a, b);
    }
  }

  lemma FewWindows(cfg: Config, bucket: Bucket, a: Time, b: Time, c: nat, k: nat, n: pos)
    requires Windows(cfg, bucket, a, c, k)
    requires Opened(cfg, bucket) <= b && a <= b <= a + n * cfg.window
    ensures c < (n + 1) * Allowance(cfg)
  {
    var m := Allowance(cfg);
    assert (n + 1) * m == n * m + m;
    if a <= Opened(cfg, bucket) {
      if 2 <= k {
        FewerSteps(k - 1, n, cfg.window);
      }
      MulMonotone(k, n, m);
    } else {
      MulMonotone(0, n, m);
    }
  }

  lemma {:induction false} LoneRateBound(cfg: Config, ts: seq<Time>, a: Time, b: Time, n: pos)
    requires Rising(ts) && b - a <= n * cfg.window
    ensures PassedIn(cfg, ts, a, b) < (n + 1) * Allowance(cfg)
  {
    if b < a || ts == [] {
      PassedInEmpty(cfg, ts, a, b);
      assert 0 < (n + 1) * Allowance(cfg);
    } else if b < ts[|ts| - 1] {
      LoneRateBound(cfg, ts[..|ts| - 1], a, b, n);
    } else {
      var k := WindowsSince(cfg, ts, a, b);
      FewWindows(cfg, Alone(cfg, ts).value, a, b, PassedIn(cfg, ts, a, b), k, n);
    }
  }

  /** In every run, a closed interval of `n` windows holds fewer than `n + 1` allowances of one client's passed requests. */
  lemma {:induction false} RateBound(cfg: Config, es: seq<Event>, key: string, a: Time, b: Time, n: pos)
    requires Ordered(es) && b - a <= n * cfg.window
    ensures Passed(cfg, es, key, a, b) < (n + 1) * Allowance(cfg)
  {
    PassedAlone(cfg, es, key, a, b);
    TimesRise(es, key, if es == [] then 0 else es[|es| - 1].now);
    LoneRateBound(cfg, TimesOf(es, key), a, b, n);
  }

  // ----- Limits below one -----

  /** The limiter with its allowance as its limit. */
  function Raised(cfg: Config): Config {
    cfg.(limit := Allowance(cfg))
  }

  lemma {:induction false} SameBuckets(cfg: Config, es: seq<Event>)
    ensures Buckets(cfg, es) == Buckets(Raised(cfg), es)
    ensures forall key | key in Buckets(cfg, es) :: 1 <= Buckets(cfg, es)[key].count
  {
    if es != [] {
      SameBuckets(cfg, es[..|es| - 1]);
    }
  }

  /** A limit below one acts as one: in every run the answers are those of the raised limit, so the first request always passes. */
  lemma {:induction false} LowLimitActsAsOne(cfg: Config, es: seq<Event>, key: string, now: Time)
    ensures Answer(cfg, es, key, now) <==> Answer(Raised(cfg), es, key, now)
    ensures TimesOf(es, key) == [] && Ordered(es) && (forall i | 0 <= i < |es| :: es[i].now <= now) ==> Answer(cfg, es, key, now)
  {
    SameBuckets(cfg, es);
    if TimesOf(es, key) == [] && Ordered(es) && forall i | 0 <= i < |es| :: es[i].now <= now {
      RealMirrorsLone(cfg, es, key, now);
    }
  }

  // ----- The bound is attained -----

  function Burst(t: Time, m: nat): seq<Time> {
    if m == 0 then [] else Burst(t, m - 1) + [t]
  }

  /** The bucket after `m` calls at one instant that all pass. */
  function AfterBurst(cfg: Config, bucket: Option<Bucket>, t: Time, m: pos): Bucket {
    if bucket.None? || Expired(bucket.value, t) then Bucket(m, t + cfg.window)
    else bucket.value.(count := bucket.value.count + m)
  }

  lemma LastOfBurst(cfg: Config, bucket: Option<Bucket>, t: Time, m: pos)
    requires 0 <= cfg.window && AfterBurst(cfg, bucket, t, m).count <= Allowance(cfg)
    requires bucket.Some? ==> 1 <= bucket.value.count
    ensures var before := if m == 1 then bucket else Some(AfterBurst(cfg, bucket, t, m - 1));
            Grants(cfg, before, t) && AfterCall(cfg, before, t) == AfterBurst(cfg, bucket, t, m)
  {
  }

  /** `m` calls at one instant all pass while they fit in the allowance. */
  lemma {:induction false} BurstPasses(cfg: Config, ts: seq<Time>, t: Time, m: pos, all: seq<Time>, a: Time, b: Time)
    requires a <= t <= b && 0 <= cfg.window && all == ts + Burst(t, m)
    requires AfterBurst(cfg, Alone(cfg, ts), t, m).count <= Allowance(cfg)
    requires Alone(cfg, ts).Some? ==> 1 <= Alone(cfg, ts).value.count
    ensures PassedIn(cfg, all, a, b) == PassedIn(cfg, ts, a, b) + m
    ensures Alone(cfg, all) == Some(AfterBurst(cfg, Alone(cfg, ts), t, m))
  {
    var shorter := ts + Burst(t, m - 1);
    assert all == shorter + [t];
    OneMoreCall(cfg, shorter, t, a, b);
    LastOfBurst(cfg, Alone(cfg, ts), t, m);
    if m == 1 {
      assert shorter == ts;
    } else {
      BurstPasses(cfg, ts, t, m - 1, shorter, a, b);
    }
  }

  /** A first request, the rest of its allowance at the end of its window, and a full allowance in each of `n` further windows. */
  function Greedy(cfg: Config, n: nat): seq<Time> {
    if n == 0 then [0] + Burst(cfg.window, Allowance(cfg) - 1)
    else Greedy(cfg, n - 1) + Burst(n * (cfg.window + 1), Allowance(cfg))
  }

  lemma {:induction false} BurstIsFlat(t: Time, m: nat)
    ensures |Burst(t, m)| == m && forall i | 0 <= i < m :: Burst(t, m)[i] == t
  {
    if m != 0 {
      BurstIsFlat(t, m - 1);
    }
  }

  lemma {:induction false} GreedyRises(cfg: Config, n: nat)
    requires 0 <= cfg.window
    ensures Rising(Greedy(cfg, n))
    ensures forall i | 0 <= i < |Greedy(cfg, n)| :: Greedy(cfg, n)[i] <= n * (cfg.window + 1) + cfg.window
  {
    if n == 0 {
      BurstIsFlat(cfg.window, Allowance(cfg) - 1);
    } else {
      BurstIsFlat(n * (cfg.window + 1), Allowance(cfg));
      assert n * (cfg.window + 1) == (n - 1) * (cfg.window + 1) + cfg.window + 1;
      GreedyRises(cfg, n - 1);
    }
  }

  lemma {:induction false} GreedyPasses(cfg: Config, n: nat, all: seq<Time>, b: Time)
    requires 1 <= cfg.window && n * (cfg.window + 1) <= b && cfg.window <= b && all == Greedy(cfg, n)
    ensures PassedIn(cfg, all, cfg.window, b) == (n + 1) * Allowance(cfg) - 1
    ensures Alone(cfg, all) == Some(Bucket(Allowance(cfg), n * (cfg.window + 1) + cfg.window))
  {
    var w, m := cfg.window, Allowance(cfg);
    if n == 0 {
      OneMoreCall(cfg, [], 0, w, b);
      assert [] + [0] == [0];
      if m == 1 {
        assert all == [0];
      } else {
        BurstPasses(cfg, [0], w, m - 1, all, w, b);
      }
    } else {
      var t, shorter := n * (w + 1), Greedy(cfg, n - 1);
      assert t == (n - 1) * (w + 1) + w + 1;
      assert (n + 1) * m == n * m + m;
      MulMonotone(0, n - 1, w + 1);
      GreedyPasses(cfg, n - 1, shorter, b);
      BurstPasses(cfg, shorter, t, m, all, w, b);
    }
  }

  function CallsAt(key: string, ts: seq<Time>): seq<Event> {
    if ts == [] then [] else CallsAt(key, ts[..|ts| - 1]) + [Call(key, ts[|ts| - 1])]
  }

  lemma {:induction false} CallsAtTimes(key: string, ts: seq<Time>)
    requires Rising(ts)
    ensures |CallsAt(key, ts)| == |ts| && forall i | 0 <= i < |ts| :: CallsAt(key, ts)[i] == Call(key, ts[i])
    ensures TimesOf(CallsAt(key, ts), key) == ts
  {
    if ts != [] {
      var before, t := ts[..|ts| - 1], ts[|ts| - 1];
      CallsAtTimes(key, before);
      assert (CallsAt(key, before) + [Call(key, t)])[..|before|] == CallsAt(key, before);
      assert ts == before + [t];
    }
  }

  lemma {:induction false} GreedyRun(cfg: Config, key: string, n: nat, b: Time) returns (es: seq<Event>)
    requires 1 <= cfg.window && n * (cfg.window + 1) <= b && cfg.window <= b
    ensures Ordered(es) && Passed(cfg, es, key, cfg.window, b) == (n + 1) * Allowance(cfg) - 1
  {
    var ts := Greedy(cfg, n);
    GreedyPasses(cfg, n, ts, b);
    GreedyRises(cfg, n);
    CallsAtTimes(key, ts);
    es := CallsAt(key, ts);
    PassedAlone(cfg, es, key, cfg.window, b);
  }

  /** `RateBound` cannot be improved: some run passes one request less than `n + 1` allowances in `n` windows. */
  lemma {:induction false} RateBoundIsAttained(cfg: Config, key: string, n: pos)
    requires n <= cfg.window
    ensures exists es :: Ordered(es) &&
              Passed(cfg, es, key, cfg.window, cfg.window + n * cfg.window) == (n + 1) * Allowance(cfg) - 1
  {
    assert n * (cfg.window + 1) == n * cfg.window + n;
    MulMonotone(0, n, cfg.window);
    var es := GreedyRun(cfg, key, n, cfg.window + n * cfg.window);
  }

  // ----- Denials -----

  /** The bucket counts exactly the requests that passed since its window opened. */
  lemma {:induction false} BucketCounts(cfg: Config, ts: seq<Time>, b: Time)
    requires Rising(ts) && ts != [] && ts[|ts| - 1] <= b && 0 <= cfg.window
    ensures var bucket := Alone(cfg, ts).value;
            && PassedIn(cfg, ts, Opened(cfg, bucket), b) == bucket.count
            && 1 <= bucket.count <= Allowance(cfg)
            && Opened(cfg, bucket) <= ts[|ts| - 1] <= bucket.resetAt
  {
    var n := |ts| - 1;
    var before, t := ts[..n], ts[n];
    if n == 0 {
      assert before == [];
    } else {
      BucketCounts(cfg, before, b);
      if Expired(Alone(cfg, before).value, t) {
        var _ := WindowsSince(cfg, before, t, b);
      }
    }
  }

  /** A client is refused only after its full allowance has passed in the window that is still running. */
  lemma {:induction false} DenialMeansSpent(cfg: Config, es: seq<Event>, i: nat)
    requires Ordered(es) && i < |es| && es[i].Call? && !Answer(cfg, es[..i], es[i].key, es[i].now)
    ensures exists since ::
              && since <= es[i].now <= since + cfg.window
              && Passed(cfg, es[..i], es[i].key, since, es[i].now) == Allowance(cfg)
  {
    var key, now := es[i].key, es[i].now;
    var ts := TimesOf(es[..i], key);
    AnswersAreTheClientsOwn(cfg, es, i);
    TimesRise(es[..i], key, now);
    var bucket := Alone(cfg, ts).value;
    var _ := WindowsSince(cfg, ts, now, now);
    assert 0 <= cfg.window;
    BucketCounts(cfg, ts, now);
    PassedAlone(cfg, es[..i], key, Opened(cfg, bucket), now);
  }

  lemma {:induction false} PassedAreCalls(cfg: Config, es: seq<Event>, key: string, a: Time, b: Time, c: Time)
    requires b <= c
    ensures Passed(cfg, es, key, a, b) <= CallsIn(TimesOf(es, key), a, c)
  {
    if es != [] {
      var before, e := es[..|es| - 1], es[|es| - 1];
      PassedAreCalls(cfg, before, key, a, b, c);
      OneMoreCall(cfg, TimesOf(before, key), e.now, a, c);
      assert TimesOf(before, key) + [] == TimesOf(before, key);
    }
  }

  lemma {:induction false} CallsGrow(es: seq<Event>, n: nat, key: string, a: Time, b: Time)
    requires n <= |es|
    ensures CallsIn(TimesOf(es[..n], key), a, b) <= CallsIn(TimesOf(es, key), a, b)
  {
    if n < |es| {
      var before, e := es[..|es| - 1], es[|es| - 1];
      CallsGrow(before, n, key, a, b);
      assert before[..n] == es[..n];
      OneMoreCall(Config(1, 1), TimesOf(before, key), e.now, a, b);
      assert TimesOf(before, key) + [] == TimesOf(before, key);
    } else {
      assert es[..n] == es;
    }
  }

  /** A refused call makes more than one allowance of calls in the window that refused it. */
  lemma {:induction false} OverspentAt(cfg: Config, es: seq<Event>, i: nat, a: Time)
    requires i < |es| && es[i].Call? && a <= es[i].now <= a + cfg.window
    requires Passed(cfg, es[..i], es[i].key, a, es[i].now) == Allowance(cfg)
    ensures Allowance(cfg) < CallsIn(TimesOf(es, es[i].key), a, a + cfg.window)
  {
    var key, b := es[i].key, a + cfg.window;
    PassedAreCalls(cfg, es[..i], key, a, es[i].now, b);
    OneMoreCall(cfg, TimesOf(es[..i], key), es[i].now, a, b);
    assert es[..i + 1][..i] == es[..i];
    CallsGrow(es, i + 1, key, a, b);
  }

  /** At most one allowance of calls in every closed interval of one window. */
  ghost predicate Compliant(cfg: Config, ts: seq<Time>) {
    forall a, b | b == a + cfg.window :: CallsIn(ts, a, b) <= Allowance(cfg)
  }

  /** A compliant client is never refused, whatever the others do. */
  lemma {:induction false} CompliantClientsPass(cfg: Config, es: seq<Event>, i: nat)
    requires Ordered(es) && i < |es| && es[i].Call?
    requires Compliant(cfg, TimesOf(es, es[i].key))
    ensures Answer(cfg, es[..i], es[i].key, es[i].now)
  {
    var key, now := es[i].key, es[i].now;
    if !Answer(cfg, es[..i], key, now) {
      DenialMeansSpent(cfg, es, i);
      var a :| a <= now <= a + cfg.window && Passed(cfg, es[..i], key, a, now) == Allowance(cfg);
      OverspentAt(cfg, es, i, a);
      assert false;
    }
  }
}
