/**
 The round-robin counters of internal/router/balancer.go: one wrapping 64-bit counter per name,
 advanced by an atomic add, whose absolute value picks a position.
 */
module RoundRobin {
  import opened Common
  import opened Arithmetic

  const MAX_INT64 := 0x7FFF_FFFF_FFFF_FFFF
  const MIN_INT64 := -0x8000_0000_0000_0000

  type int64 = n: int | MIN_INT64 <= n <= MAX_INT64

  /** `idx.Add(1)` */
  function Next(n: int64): int64 {
    if n == MAX_INT64 then MIN_INT64 else n + 1
  }

  function Abs64(n: int64): int64 {
    if n == MIN_INT64 then MAX_INT64 else if n < 0 then -n else n
  }

  /** The position picked among `k` instances: in range for every counter value. */
  function Position(n: int64, k: pos): (p: nat)
    ensures p < k
  {
    Abs64(n) % k
  }

  /** The value of a fresh counter after `picks` adds. */
  function Counter(picks: nat): int64 {
    if picks == 0 then 0 else Next(Counter(picks - 1))
  }

  lemma {:induction false} CounterBeforeWrap(picks: nat)
    requires picks <= MAX_INT64
    ensures Counter(picks) == picks
  {
    if picks != 0 {
      CounterBeforeWrap(picks - 1);
    }
  }

  /** How many of the picks numbered `from` up to `from + m` (the first pick has number 0) hit a position in `lo..hi`. */
  function Hits(k: pos, lo: nat, hi: nat, from: nat, m: nat): nat {
    if m == 0 then 0
    else Hits(k, lo, hi, from, m - 1) + if lo <= Position(Counter(from + m), k) < hi then 1 else 0
  }

  /** Before the counter wraps, the picks of one position are counted by a difference of quotients. */
  lemma {:induction false} HitsAsQuotients(k: pos, p: nat, from: nat, m: nat)
    requires p < k && from + m <= MAX_INT64
    ensures Hits(k, p, p + 1, from, m) == (from + m + k - p) / k - (from + k - p) / k
  {
    if m != 0 {
      HitsAsQuotients(k, p, from, m - 1);
      CounterBeforeWrap(from + m);
      DivStep(from + m - 1 + k - p, k);
      ModShift(from + m, k, p);
    }
  }

  lemma {:induction false} HitsSplit(k: pos, lo: nat, mid: nat, hi: nat, from: nat, m: nat)
    requires lo <= mid <= hi
    ensures Hits(k, lo, hi, from, m) == Hits(k, lo, mid, from, m) + Hits(k, mid, hi, from, m)
  {
    if m != 0 {
      HitsSplit(k, lo, mid, hi, from, m - 1);
    }
  }

  lemma {:induction false} NoHits(k: pos, lo: nat, from: nat, m: nat)
    ensures Hits(k, lo, lo, from, m) == 0
  {
    if m != 0 {
      NoHits(k, lo, from, m - 1);
    }
  }

  predicate FairShare(k: pos, p: nat, from: nat, m: nat) {
    m / k <= Hits(k, p, p + 1, from, m) <= CeilDiv(m, k)
  }

  lemma {:induction false} PositionShare(k: pos, p: nat, from: nat, m: nat)
    requires p < k && from + m <= MAX_INT64
    ensures FairShare(k, p, from, m)
  {
    HitsAsQuotients(k, p, from, m);
    DivSpan(from + k - p, m, k);
  }

  /**
   A block of `n` neighbouring positions gets its exact share of any stretch of picks, each position being
   hit `m / k` times rounded down or up.
   */
  lemma {:induction false} BlockShare(k: pos, lo: nat, n: nat, from: nat, m: nat)
    requires lo + n <= k && from + m <= MAX_INT64
    ensures n * (m / k) <= Hits(k, lo, lo + n, from, m) <= n * CeilDiv(m, k)
  {
    if n == 0 {
      NoHits(k, lo, from, m);
    } else {
      var hi := lo + n;
      BlockShare(k, lo, n - 1, from, m);
      PositionShare(k, hi - 1, from, m);
      HitsSplit(k, lo, hi - 1, hi, from, m);
      OneMoreShare(n - 1, Hits(k, lo, hi - 1, from, m), Hits(k, hi - 1, hi, from, m), m / k, CeilDiv(m, k));
    }
  }

  /** Every stretch of the first `n` picks hits every position `m / k` times, rounded down or up. */
  ghost predicate Fair(k: pos, n: nat) {
    forall p: nat, from: nat, m: nat | p < k && from + m <= n :: FairShare(k, p, from, m)
  }

  lemma {:induction false} OneInstance(from: nat, m: nat)
    ensures Hits(1, 0, 1, from, m) == m
  {
    if m != 0 {
      OneInstance(from, m - 1);
    }
  }

  /** The pick that wraps the counter repeats the position of the pick before it. */
  lemma {:induction false} WrapRepeats(k: pos)
    ensures var p := Position(MAX_INT64, k); Hits(k, p, p + 1, MAX_INT64 - 1, 2) == 2
  {
    var p := Position(MAX_INT64, k);
    CounterBeforeWrap(MAX_INT64);
    assert Counter(MAX_INT64 + 1) == MIN_INT64;
    assert Hits(k, p, p + 1, MAX_INT64 - 1, 1) == 1;
  }

  /** Round robin is fair for exactly as long as the counter does not wrap. */
  lemma {:induction false} FairUntilWrap(k: pos, n: nat)
    ensures Fair(k, n) <==> k == 1 || n <= MAX_INT64
  {
    if n <= MAX_INT64 {
      forall p: nat, from: nat, m: nat | p < k && from + m <= n
        ensures FairShare(k, p, from, m)
      {
        PositionShare(k, p, from, m);
      }
    } else if k == 1 {
      forall p: nat, from: nat, m: nat | p < k && from + m <= n
        ensures FairShare(k, p, from, m)
      {
        OneInstance(from, m);
      }
    } else {
      WrapRepeats(k);
      var p, from := Position(MAX_INT64, k), MAX_INT64 - 1;
      assert CeilDiv(2, k) == 1 by { DivModUnique(2 + k - 1, k, 1, 1); }
      assert !FairShare(k, p, from, 2);
    }
  }

  // ----- Many counters -----

  function CounterIn(idx: map<string, int64>, name: string): int64 {
    if name in idx then idx[name] else 0
  }

  /** One atomic add on the counter of `name`, created at zero if need be. */
  function Advanced(idx: map<string, int64>, name: string): map<string, int64> {
    idx[name := Next(CounterIn(idx, name))]
  }
}
