/**
 Runs of the whole load balancer: any sequence of selections and reports, for any services and with any strategies.

 A step is one call that changes the balancer, with the effect that `LoadBalancer.Select` and `LoadBalancer.ReportResult`
 are proved to have. A round-robin selection takes place at its atomic add, so for those strategies the sequence is the
 order of the adds, however the calls around them overlap.
 */
module BalancerRuns {
  import opened Common
  import opened Arithmetic
  import opened Routing
  import opened RoundRobin
  import opened Weighted
  import opened Hashing
  import opened Balancers
  import LC = LeastConnections
  import ST = Statistics
  import opened Sums

  datatype Event =
    | Pick(service: string, candidates: seq<Instance>, ctx: Context, randomKey: seq<Rune>, inst: Instance)
    | Report(id: string, result: RequestResult)

  datatype World = World(d: Deciders, stats: ST.Table)

  ghost predicate Moves(w: World, e: Event, w': World) {
    match e
    case Pick(service, candidates, ctx, randomKey, inst) =>
      && candidates != [] && Picks(service, candidates, ctx, randomKey, w.d, inst, w'.d)
      && w'.stats == ST.Recorded(w.stats, service, inst.serviceID)
    case Report(id, result) =>
      && w'.d == w.d.(conns := LC.Released(w.d.conns, id))
      && w'.stats == ST.Reported(w.stats, id, result)
  }

  /** A run of a new balancer: `worlds[k]` is the state before `events[k]`. */
  datatype Run = Run(events: seq<Event>, worlds: seq<World>)

  ghost predicate Legal(run: Run) {
    && |run.worlds| == |run.events| + 1
    && run.worlds[0] == World(Deciders(map[], map[]), map[])
    && forall k | 0 <= k < |run.events| :: Moves(run.worlds[k], run.events[k], run.worlds[k + 1])
  }

  // ----- Round robin and weighted round robin -----

  /** The event advances the counter called `name`. */
  predicate Advances(e: Event, name: string) {
    && e.Pick?
    && match Resolved(e.candidates)
       case RoundRobin => name == e.service
       case WeightedRoundRobin => name == e.service + SUFFIX
       case _ => false
  }

  /** How many of the first `n` events advance the counter. */
  function Uses(es: seq<Event>, name: string, n: nat): nat
    requires n <= |es|
  {
    if n == 0 then 0 else Uses(es, name, n - 1) + if Advances(es[n - 1], name) then 1 else 0
  }

  /** The selections in `i..j` on counter `name` that returned the instance with this ID. */
  function Chosen(es: seq<Event>, name: string, id: string, i: nat, j: nat): nat
    requires i <= j <= |es|
  {
    if i == j then 0
    else Chosen(es, name, id, i, j - 1) + if Advances(es[j - 1], name) && es[j - 1].inst.serviceID == id then 1 else 0
  }

  lemma StepAdvances(w: World, e: Event, w': World, name: string)
    requires Moves(w, e, w')
    ensures CounterIn(w'.d.idx, name) ==
            if Advances(e, name) then Next(CounterIn(w.d.idx, name)) else CounterIn(w.d.idx, name)
    ensures Advances(e, name) ==> name in w'.d.idx
  {
  }

  /** A counter depends only on how often it was used. */
  lemma {:induction false} CounterCountsUses(run: Run, name: string, n: nat)
    requires Legal(run) && n <= |run.events|
    ensures CounterIn(run.worlds[n].d.idx, name) == Counter(Uses(run.events, name, n))
  {
    if n != 0 {
      CounterCountsUses(run, name, n - 1);
      assert Moves(run.worlds[n - 1], run.events[n - 1], run.worlds[n - 1 + 1]);
      StepAdvances(run.worlds[n - 1], run.events[n - 1], run.worlds[n], name);
    }
  }

  /** The selection at `t` returns the instance with this ID exactly when the counter stands in `lo..hi`. */
  predicate FollowsCounter(es: seq<Event>, name: string, k: pos, lo: nat, hi: nat, id: string, t: nat)
    requires t < |es|
  {
    Advances(es[t], name) ==>
      (es[t].inst.serviceID == id <==> lo <= Position(Counter(Uses(es, name, t + 1)), k) < hi)
  }

  ghost predicate AllFollowCounter(es: seq<Event>, name: string, k: pos, lo: nat, hi: nat, id: string, i: nat, j: nat)
    requires i <= j <= |es|
  {
    forall t | i <= t < j :: FollowsCounter(es, name, k, lo, hi, id, t)
  }

  lemma {:induction false} ChosenAreHits(es: seq<Event>, name: string, k: pos, lo: nat, hi: nat, id: string, i: nat, j: nat)
    requires i <= j <= |es| && AllFollowCounter(es, name, k, lo, hi, id, i, j)
    ensures Uses(es, name, i) <= Uses(es, name, j)
    ensures Chosen(es, name, id, i, j) == Hits(k, lo, hi, Uses(es, name, i), Uses(es, name, j) - Uses(es, name, i))
  {
    if i < j {
      ChosenAreHits(es, name, k, lo, hi, id, i, j - 1);
      assert FollowsCounter(es, name, k, lo, hi, id, j - 1);
    }
  }

  /** In `i..j` only selections for `service` among `list` use the counter `name`. */
  predicate OwnCounter(es: seq<Event>, service: string, list: seq<Instance>, name: string, i: nat, j: nat)
    requires i <= j <= |es|
  {
    forall t | i <= t < j :: Advances(es[t], name) ==> es[t].service == service && es[t].candidates == list
  }

  /** What the counter stands at after event `t`, which is a step of the balancer. */
  lemma {:induction false} CounterAfter(run: Run, name: string, t: nat) returns (c: int64)
    requires Legal(run) && t < |run.events|
    ensures Moves(run.worlds[t], run.events[t], run.worlds[t + 1])
    ensures c == CounterIn(run.worlds[t + 1].d.idx, name) == Counter(Uses(run.events, name, t + 1))
  {
    CounterCountsUses(run, name, t + 1);
    c := CounterIn(run.worlds[t + 1].d.idx, name);
  }

  lemma {:induction false} RoundRobinStep(w: World, e: Event, w': World, p: nat, q: nat, k: pos, c: int64)
    requires Moves(w, e, w') && e.Pick? && Resolved(e.candidates) == RoundRobin && c == CounterIn(w'.d.idx, e.service)
    requires DistinctIDs(e.candidates) && p < |e.candidates| == k && q == p + 1
    ensures e.inst.serviceID == e.candidates[p].serviceID <==> p <= Position(c, k) < q
  {
  }

  lemma {:induction false} RoundRobinFollows(
    run: Run, service: string, list: seq<Instance>, p: nat, q: nat, k: pos, i: nat, j: nat)
    requires Legal(run) && i <= j <= |run.events| && OwnCounter(run.events, service, list, service, i, j)
    requires DistinctIDs(list) && p < |list| == k && q == p + 1 && Resolved(list) == RoundRobin
    ensures AllFollowCounter(run.events, service, k, p, q, list[p].serviceID, i, j)
  {
    forall t | i <= t < j
      ensures FollowsCounter(run.events, service, k, p, q, list[p].serviceID, t)
    {
      if Advances(run.events[t], service) {
        var c := CounterAfter(run, service, t);
        RoundRobinStep(run.worlds[t], run.events[t], run.worlds[t + 1], p, q, k, c);
      }
    }
  }

  lemma {:induction false} WeightedStep(w: World, e: Event, w': World, name: string, p: nat, W: pos, lo: nat, hi: nat, c: int64)
    requires Moves(w, e, w') && e.Pick? && Resolved(e.candidates) == WeightedRoundRobin
    requires name == e.service + SUFFIX && c == CounterIn(w'.d.idx, name)
    requires DistinctIDs(e.candidates) && p < |e.candidates|
    requires W == TotalWeight(e.candidates) && lo == Slot(e.candidates, p) && hi == Slot(e.candidates, p + 1)
    ensures e.inst.serviceID == e.candidates[p].serviceID <==> lo <= Position(c, W) < hi
  {
    SlotsOfID(e.candidates, p, Position(c, W));
  }

  lemma {:induction false} WeightedFollows(
    run: Run, service: string, list: seq<Instance>, name: string, p: nat, W: pos, lo: nat, hi: nat, i: nat, j: nat)
    requires Legal(run) && i <= j <= |run.events| && OwnCounter(run.events, service, list, name, i, j)
    requires name == service + SUFFIX
    requires DistinctIDs(list) && p < |list| && Resolved(list) == WeightedRoundRobin
    requires W == TotalWeight(list) && lo == Slot(list, p) && hi == Slot(list, p + 1)
    ensures AllFollowCounter(run.events, name, W, lo, hi, list[p].serviceID, i, j)
  {
    forall t | i <= t < j
      ensures FollowsCounter(run.events, name, W, lo, hi, list[p].serviceID, t)
    {
      if Advances(run.events[t], name) {
        var c := CounterAfter(run, name, t);
        WeightedStep(run.worlds[t], run.events[t], run.worlds[t + 1], name, p, W, lo, hi, c);
      }
    }
  }

  /** `chosen` of `m` selections are the proportional share of `weight` in `W`. */
  predicate Proportional(weight: pos, W: pos, m: nat, chosen: nat) {
    && weight * (m / W) <= chosen <= weight * CeilDiv(m, W)
    && CeilDiv(m, W) <= m / W + 1
    && (m % W == 0 ==> chosen == weight * (m / W))
  }

  lemma {:induction false} ChosenShare(
    es: seq<Event>, name: string, W: pos, lo: nat, hi: nat, weight: pos, id: string, i: nat, j: nat)
    requires i <= j <= |es| && AllFollowCounter(es, name, W, lo, hi, id, i, j)
    requires hi == lo + weight <= W && Uses(es, name, j) <= MAX_INT64
    ensures Uses(es, name, i) <= Uses(es, name, j)
    ensures Proportional(weight, W, Uses(es, name, j) - Uses(es, name, i), Chosen(es, name, id, i, j))
  {
    ChosenAreHits(es, name, W, lo, hi, id, i, j);
    ShareOfWeight(W, lo, hi, weight, Uses(es, name, i), Uses(es, name, j) - Uses(es, name, i));
  }

  /**
   Round robin is fair: in any part of any run in which a service keeps its `k` candidates, of the `m` selections made for
   it each candidate is returned `m / k` times, rounded down or up, whatever else is selected or reported in between and
   whatever the candidates were before.
   */
  lemma {:induction false} RoundRobinIsFair(run: Run, service: string, list: seq<Instance>, p: nat, i: nat, j: nat)
    requires Legal(run) && i <= j <= |run.events| && OwnCounter(run.events, service, list, service, i, j)
    requires DistinctIDs(list) && p < |list| && Resolved(list) == RoundRobin
    requires Uses(run.events, service, j) <= MAX_INT64
    ensures var m := Uses(run.events, service, j) - Uses(run.events, service, i);
            0 <= m && m / |list| <= Chosen(run.events, service, list[p].serviceID, i, j) <= CeilDiv(m, |list|)
  {
    RoundRobinFollows(run, service, list, p, p + 1, |list|, i, j);
    ChosenShare(run.events, service, |list|, p, p + 1, 1, list[p].serviceID, i, j);
  }

  /** In `i..j` the counter `name` gives candidate `p` its share by weight. */
  predicate SharedByWeight(es: seq<Event>, name: string, list: seq<Instance>, p: nat, i: nat, j: nat)
    requires i <= j <= |es| && p < |list|
  {
    var m := Uses(es, name, j) - Uses(es, name, i);
    && 0 <= m && 1 <= TotalWeight(list)
    && Proportional(Weight(list[p]), TotalWeight(list), m, Chosen(es, name, list[p].serviceID, i, j))
  }

  lemma {:induction false} WeightedShare(es: seq<Event>, name: string, list: seq<Instance>, p: nat, i: nat, j: nat)
    requires i <= j <= |es| && p < |list| && 1 <= TotalWeight(list) && Uses(es, name, j) <= MAX_INT64
    requires AllFollowCounter(es, name, TotalWeight(list), Slot(list, p), Slot(list, p + 1), list[p].serviceID, i, j)
    ensures SharedByWeight(es, name, list, p, i, j)
  {
    SlotsFollow(list, p);
    ChosenShare(es, name, TotalWeight(list), Slot(list, p), Slot(list, p + 1), Weight(list[p]), list[p].serviceID, i, j);
  }

  /**
   Weighted round robin is proportional: in any part of any run in which a service keeps its candidates, of total weight
   `W`, of the `m` selections made for it each candidate is returned its weight times `m / W`, rounded down or up, and
   exactly its weight times `q` when `m == q * W`.
   */
  lemma {:induction false} WeightedIsProportional(
    run: Run, service: string, list: seq<Instance>, name: string, p: nat, i: nat, j: nat)
    requires name == service + SUFFIX
    requires Legal(run) && i <= j <= |run.events| && OwnCounter(run.events, service, list, name, i, j)
    requires DistinctIDs(list) && p < |list| && Resolved(list) == WeightedRoundRobin
    requires Uses(run.events, name, j) <= MAX_INT64
    ensures SharedByWeight(run.events, name, list, p, i, j)
  {
    ExpandedLength(list);
    WeightedFollows(run, service, list, name, p, TotalWeight(list), Slot(list, p), Slot(list, p + 1), i, j);
    WeightedShare(run.events, name, list, p, i, j);
  }

  // ----- A shared counter -----

  lemma {:induction false} Extend(run: Run, e: Event, w: World) returns (longer: Run)
    requires Legal(run) && Moves(run.worlds[|run.events|], e, w)
    ensures Legal(longer) && longer == Run(run.events + [e], run.worlds + [w])
  {
    longer := Run(run.events + [e], run.worlds + [w]);
    forall k | 0 <= k < |longer.events|
      ensures Moves(longer.worlds[k], longer.events[k], longer.worlds[k + 1])
    {
      if k < |run.events| {
        assert Moves(run.worlds[k], run.events[k], run.worlds[k + 1]);
      }
    }
  }

  const NOBODY := Context([], [])

  /** A selection with the weighted strategy, whose counter comes to stand at `at`. */
  function WeightedPick(service: string, list: seq<Instance>, at: int64): Event
    requires list != []
  {
    ExpandedLength(list);
    Pick(service, list, NOBODY, [], Expanded(list)[Position(at, TotalWeight(list))])
  }

  function RoundRobinPick(service: string, list: seq<Instance>, at: int64): Event
    requires list != []
  {
    Pick(service, list, NOBODY, [], list[Position(at, |list|)])
  }

  function AfterPick(w: World, e: Event, name: string): World
    requires e.Pick?
  {
    World(w.d.(idx := Advanced(w.d.idx, name)), ST.Recorded(w.stats, e.service, e.inst.serviceID))
  }

  lemma {:induction false} PicksAlternate(w: World, service: string, list: seq<Instance>, other: seq<Instance>, at: nat)
    requires list != [] && Resolved(list) == WeightedRoundRobin && other != [] && Resolved(other) == RoundRobin
    requires 1 <= at < MAX_INT64 && CounterIn(w.d.idx, service + SUFFIX) == at - 1
    ensures var name := service + SUFFIX;
            var e, f := WeightedPick(service, list, at), RoundRobinPick(name, other, at + 1);
            var w' := AfterPick(w, e, name);
            && Moves(w, e, w') && Moves(w', f, AfterPick(w', f, name))
            && CounterIn(AfterPick(w', f, name).d.idx, name) == at + 1
  {
  }

  /** Pair `t` of events: a weighted selection for `service`, then a round-robin one for the service that shares its counter. */
  predicate PairAt(es: seq<Event>, service: string, list: seq<Instance>, other: seq<Instance>, t: nat)
    requires list != [] && other != [] && 2 * t + 1 < |es| < MAX_INT64
  {
    && es[2 * t] == WeightedPick(service, list, 2 * t + 1)
    && es[2 * t + 1] == RoundRobinPick(service + SUFFIX, other, 2 * t + 2)
  }

  lemma {:induction false} Alternate(service: string, list: seq<Instance>, other: seq<Instance>, n: nat) returns (run: Run)
    requires list != [] && Resolved(list) == WeightedRoundRobin && other != [] && Resolved(other) == RoundRobin
    requires 2 * n < MAX_INT64
    ensures Legal(run) && |run.events| == 2 * n
    ensures CounterIn(run.worlds[2 * n].d.idx, service + SUFFIX) == 2 * n
    ensures forall t | 0 <= t < n :: PairAt(run.events, service, list, other, t)
  {
    var name := service + SUFFIX;
    if n == 0 {
      run := Run([], [World(Deciders(map[], map[]), map[])]);
    } else {
      var before := Alternate(service, list, other, n - 1);
      var w := before.worlds[2 * n - 2];
      var e, f := WeightedPick(service, list, 2 * n - 1), RoundRobinPick(name, other, 2 * n);
      var w' := AfterPick(w, e, name);
      PicksAlternate(w, service, list, other, 2 * n - 1);
      run := Extend(before, e, w');
      run := Extend(run, f, AfterPick(w', f, name));
      forall t | 0 <= t < n
        ensures PairAt(run.events, service, list, other, t)
      {
        if t < n - 1 {
          assert PairAt(before.events, service, list, other, t);
        }
      }
    }
  }

  lemma {:induction false} OddPosition(t: nat, n: nat)
    requires t < n && 2 * n < MAX_INT64
    ensures Position(2 * t + 1, 2) == 1
  {
  }

  /**
   Sharing a counter starves an instance: with two instances of equal weight, and a service named like their weighted
   counter selected after each selection, all `n` selections return the second instance and none the first.
   */
  lemma {:induction false} SharedCounterStarves(service: string, list: seq<Instance>, other: seq<Instance>, n: nat) returns (run: Run)
    requires |list| == 2 && Weight(list[0]) == Weight(list[1]) == 1 && Resolved(list) == WeightedRoundRobin
    requires other != [] && Resolved(other) == RoundRobin && 2 * n < MAX_INT64
    ensures Legal(run) && |run.events| == 2 * n
    ensures forall t | 0 <= t < n ::
              && run.events[2 * t] == Pick(service, list, NOBODY, [], list[1])
              && run.events[2 * t + 1].Pick? && run.events[2 * t + 1].service == service + SUFFIX
  {
    run := Alternate(service, list, other, n);
    ExpandedLength(list);
    SlotsFollow(list, 0);
    SlotsFollow(list, 1);
    assert list[..2] == list && list[..0] == [];
    ExpandedIsPrefixSum(list, 1, 1);
    forall t | 0 <= t < n
      ensures run.events[2 * t] == Pick(service, list, NOBODY, [], list[1])
      ensures run.events[2 * t + 1].Pick? && run.events[2 * t + 1].service == service + SUFFIX
    {
      assert PairAt(run.events, service, list, other, t);
      OddPosition(t, n);
    }
  }

  function AskingFor(service: string, id: string, strategy: string): Instance {
    Instance(service, id, "", 0, Healthy, map["lb_strategy" := strategy])
  }

  lemma {:induction false} AskedFor(service: string, id: string, id': string, strategy: string)
    requires strategy != ""
    ensures Resolved([AskingFor(service, id, strategy), AskingFor(service, id', strategy)]) == ParseStrategy(strategy)
    ensures Weight(AskingFor(service, id, strategy)) == 1
  {
    var list := [AskingFor(service, id, strategy), AskingFor(service, id', strategy)];
    assert NamesStrategy(list[0]);
    assert |"weight"| != |"lb_strategy"|;
  }

  lemma {:induction false} NothingAskedFor(inst: Instance)
    requires inst.metadata == map[]
    ensures Resolved([inst]) == RoundRobin
  {
    assert !NamesStrategy([inst][0]) && [inst][1..] == [];
  }

  /** Two instances that ask for the weighted strategy with equal weights, beside a service that has their counter's name. */
  lemma {:induction false} StarvedInstance(service: string, first: string, second: string, strategy: string, neighbour: Instance, n: nat)
    returns (run: Run)
    requires strategy != "" && ParseStrategy(strategy) == WeightedRoundRobin && neighbour.metadata == map[] && 2 * n < MAX_INT64
    ensures Legal(run) && |run.events| == 2 * n
    ensures var list := [AskingFor(service, first, strategy), AskingFor(service, second, strategy)];
            forall t | 0 <= t < n ::
              && run.events[2 * t] == Pick(service, list, NOBODY, [], list[1])
              && run.events[2 * t + 1].Pick? && run.events[2 * t + 1].service == service + SUFFIX
  {
    AskedFor(service, first, second, strategy);
    AskedFor(service, second, first, strategy);
    NothingAskedFor(neighbour);
    run := SharedCounterStarves(service, [AskingFor(service, first, strategy), AskingFor(service, second, strategy)], [neighbour], n);
  }

  // ----- Least connections -----

  predicate OnlyLeastConnections(es: seq<Event>) {
    forall t | 0 <= t < |es| :: es[t].Pick? ==> Resolved(es[t].candidates) == LeastConnections
  }

  /** `c` is what `e` does to the connection counters. */
  predicate Mirrors(e: Event, c: LC.Event) {
    match e
    case Pick(service, candidates, _, _, inst) =>
      c.Choose? && c.service == service && c.ids == IDs(candidates) && c.i < |c.ids| && c.ids[c.i] == inst.serviceID
    case Report(id, _) => c == LC.Report(id)
  }

  ghost predicate AllMirror(es: seq<Event>, cs: seq<LC.Event>) {
    |cs| <= |es| && LC.WellFormed(cs) && forall t | 0 <= t < |cs| :: Mirrors(es[t], cs[t])
  }

  lemma {:induction false} StepMirrored(w: World, e: Event, w': World) returns (c: LC.Event)
    requires Moves(w, e, w') && (e.Pick? ==> Resolved(e.candidates) == LeastConnections)
    ensures Mirrors(e, c) && w'.d.conns == LC.After(w.d.conns, c)
    ensures c.Choose? ==> LC.FirstLeast(LC.Loads(w.d.conns, c.service, c.ids), c.i)
  {
    if e.Pick? {
      var ids := IDs(e.candidates);
      var i :| LC.FirstLeast(LC.Loads(w.d.conns, e.service, ids), i) && e.inst == e.candidates[i];
      c := LC.Choose(e.service, ids, i);
    } else {
      c := LC.Report(e.id);
    }
  }

  lemma {:induction false} OneMoreChoice(cs: seq<LC.Event>, c: LC.Event)
    requires LC.WellFormed(cs) && LC.ChoosesLeast(cs) && (c.Choose? ==> c.i < |c.ids|)
    requires c.Choose? ==> LC.FirstLeast(LC.Loads(LC.Run(cs), c.service, c.ids), c.i)
    ensures LC.WellFormed(cs + [c]) && LC.ChoosesLeast(cs + [c]) && LC.Run(cs + [c]) == LC.After(LC.Run(cs), c)
  {
    var longer := cs + [c];
    assert longer[..|cs|] == cs;
    assert forall k | 0 <= k < |cs| :: longer[..k] == cs[..k] && longer[k] == cs[k];
  }

  /** A run of the balancer with this strategy alone is a run of its counters that always chooses the least. */
  lemma {:induction false} ConnectionsRun(run: Run, n: nat) returns (cs: seq<LC.Event>)
    requires Legal(run) && OnlyLeastConnections(run.events) && n <= |run.events|
    ensures |cs| == n && AllMirror(run.events, cs)
    ensures LC.ChoosesLeast(cs) && LC.Run(cs) == run.worlds[n].d.conns
  {
    if n == 0 {
      cs := [];
    } else {
      var before := ConnectionsRun(run, n - 1);
      assert Moves(run.worlds[n - 1], run.events[n - 1], run.worlds[n - 1 + 1]);
      var c := StepMirrored(run.worlds[n - 1], run.events[n - 1], run.worlds[n]);
      OneMoreChoice(before, c);
      cs := before + [c];
    }
  }

  function Reports(es: seq<Event>, n: nat): nat
    requires n <= |es|
  {
    if n == 0 then 0 else Reports(es, n - 1) + if es[n - 1].Report? then 1 else 0
  }

  /** Selections of an instance minus reports about it, among the first `n` events. */
  function InFlight(es: seq<Event>, id: string, n: nat): int
    requires n <= |es|
  {
    if n == 0 then 0
    else
      InFlight(es, id, n - 1) +
      match es[n - 1]
      case Pick(_, _, _, _, inst) => if inst.serviceID == id then 1 else 0
      case Report(r, _) => if r == id then -1 else 0
  }

  lemma {:induction false} MirroredCounts(es: seq<Event>, cs: seq<LC.Event>, id: string, n: nat)
    requires AllMirror(es, cs) && n <= |cs|
    ensures LC.WellFormed(cs[..n]) && LC.InFlight(cs[..n], id) == InFlight(es, id, n)
  {
    if n != 0 {
      MirroredCounts(es, cs, id, n - 1);
      assert cs[..n][..n - 1] == cs[..n - 1] && cs[..n][n - 1] == cs[n - 1];
      assert Mirrors(es[n - 1], cs[n - 1]);
    }
  }

  predicate FixedAt(e: Event, service: string, ids: seq<string>) {
    e.Pick? && e.service == service && Resolved(e.candidates) == LeastConnections ==> IDs(e.candidates) == ids
  }

  /** In `i..n` every selection for `service` with this strategy is made among the same IDs. */
  predicate FixedIDs(es: seq<Event>, service: string, ids: seq<string>, i: nat, n: nat)
    requires i <= n <= |es|
  {
    forall t | i <= t < n :: FixedAt(es[t], service, ids)
  }

  /** The loads of any two of the IDs differ by at most `spread`. */
  predicate Within(conns: LC.Connections, service: string, ids: seq<string>, spread: int) {
    forall a, b | 0 <= a < |ids| && 0 <= b < |ids| ::
      LC.Load(conns, service, ids[a]) <= LC.Load(conns, service, ids[b]) + spread
  }

  lemma {:induction false} StepKeepsWithin(
    w: World, e: Event, w': World, service: string, ids: seq<string>, spread: nat, spread': nat)
    requires Moves(w, e, w') && 1 <= spread && Within(w.d.conns, service, ids, spread)
    requires FixedAt(e, service, ids)
    requires spread' == if e.Report? then spread + 1 else spread
    ensures Within(w'.d.conns, service, ids, spread')
  {
    if e.Pick? && Resolved(e.candidates) != LeastConnections {
      assert w'.d.conns == w.d.conns;
    } else {
      var c := StepMirrored(w, e, w');
      LC.StepKeepsSpread(w.d.conns, service, ids, c, spread);
    }
  }

  /** Event `t` lets a spread grow by at most one, and only if it is a report. */
  predicate Widens(run: Run, service: string, ids: seq<string>, t: nat, spread: nat)
    requires t < |run.events| < |run.worlds|
  {
    1 <= spread && Within(run.worlds[t].d.conns, service, ids, spread) ==>
      Within(run.worlds[t + 1].d.conns, service, ids, if run.events[t].Report? then spread + 1 else spread)
  }

  ghost predicate KeepsWithin(run: Run, service: string, ids: seq<string>, t: nat)
    requires t < |run.events| < |run.worlds|
  {
    forall spread: nat :: Widens(run, service, ids, t, spread)
  }

  lemma {:induction false} EventKeepsWithin(run: Run, t: nat, service: string, ids: seq<string>)
    requires Legal(run) && t < |run.events| && FixedAt(run.events[t], service, ids)
    ensures KeepsWithin(run, service, ids, t)
  {
    var w, e, w' := run.worlds[t], run.events[t], run.worlds[t + 1];
    assert Moves(w, e, w');
    forall spread: nat
      ensures Widens(run, service, ids, t, spread)
    {
      if 1 <= spread && Within(w.d.conns, service, ids, spread) {
        StepKeepsWithin(w, e, w', service, ids, spread, if e.Report? then spread + 1 else spread);
      }
    }
  }

  lemma {:induction false} SpreadAlong(run: Run, service: string, ids: seq<string>, spread: nat, i: nat, n: nat, later: int)
    requires i <= n <= |run.events| < |run.worlds| && forall t | i <= t < n :: KeepsWithin(run, service, ids, t)
    requires 1 <= spread && Within(run.worlds[i].d.conns, service, ids, spread)
    requires later == spread + Reports(run.events, n) - Reports(run.events, i)
    ensures spread <= later && Within(run.worlds[n].d.conns, service, ids, later)
  {
    if i < n {
      var before := later - if run.events[n - 1].Report? then 1 else 0;
      SpreadAlong(run, service, ids, spread, i, n - 1, before);
      assert KeepsWithin(run, service, ids, n - 1) && Widens(run, service, ids, n - 1, before);
    }
  }

  /**
   Least connections keeps the loads together: in any part of any run in which a service keeps its candidates, the spread
   of their loads grows by at most one for each report, from one or from what it was at the start of that part.
   */
  lemma {:induction false} LoadsStayTogether(run: Run, service: string, ids: seq<string>, spread: nat, i: nat, n: nat)
    requires Legal(run) && i <= n <= |run.events| && FixedIDs(run.events, service, ids, i, n)
    requires 1 <= spread && Within(run.worlds[i].d.conns, service, ids, spread)
    ensures Within(run.worlds[n].d.conns, service, ids, spread + Reports(run.events, n) - Reports(run.events, i))
  {
    forall t | i <= t < n
      ensures KeepsWithin(run, service, ids, t)
    {
      EventKeepsWithin(run, t, service, ids);
    }
    SpreadAlong(run, service, ids, spread, i, n, spread + Reports(run.events, n) - Reports(run.events, i));
  }

  /** From a new balancer on, the busiest and the idlest instance differ by at most one more than the number of reports. */
  lemma {:induction false} NewLoadsStayTogether(run: Run, service: string, ids: seq<string>, n: nat)
    requires Legal(run) && n <= |run.events| && FixedIDs(run.events, service, ids, 0, n)
    ensures Within(run.worlds[n].d.conns, service, ids, 1 + Reports(run.events, n))
  {
    LoadsStayTogether(run, service, ids, 1, 0, n);
  }

  predicate PairedAt(es: seq<Event>, home: map<string, string>, t: nat)
    requires t < |es|
  {
    match es[t]
    case Pick(service, candidates, _, _, _) => forall id | id in IDs(candidates) :: id in home && home[id] == service
    case Report(id, _) => id in home && 0 < InFlight(es, id, t)
  }

  /** Each ID belongs to one service, and each report answers an earlier selection. */
  predicate Paired(es: seq<Event>, home: map<string, string>) {
    forall t | 0 <= t < |es| :: PairedAt(es, home, t)
  }

  /** In paired runs every counter is exactly the number of its instance's requests in flight. */
  lemma {:induction false} LoadsAreInFlight(run: Run, home: map<string, string>, id: string, n: nat)
    requires Legal(run) && OnlyLeastConnections(run.events) && Paired(run.events, home)
    requires id in home && n <= |run.events|
    ensures LC.Load(run.worlds[n].d.conns, home[id], id) == InFlight(run.events, id, n) >= 0
  {
    var cs := ConnectionsRun(run, n);
    forall t | 0 <= t < |cs|
      ensures LC.PairedAt(cs, home, t)
    {
      assert Mirrors(run.events[t], cs[t]) && PairedAt(run.events, home, t);
      MirroredCounts(run.events, cs, if cs[t].Report? then cs[t].id else "", t);
    }
    LC.CountersAreInFlight(cs, home, home[id], id);
    MirroredCounts(run.events, cs, id, n);
    assert cs[..n] == cs;
  }

  /** The selection raises the counter of `id` in `service`. */
  predicate Raises(e: Event, service: string, id: string) {
    e.Pick? && e.service == service && Resolved(e.candidates) == LeastConnections && e.inst.serviceID == id
  }

  /** In `i..n`, selections of the instance for the service by this strategy minus reports on it. */
  function Balance(es: seq<Event>, service: string, id: string, i: nat, n: nat): int
    requires i <= n <= |es|
  {
    if i == n then 0
    else
      Balance(es, service, id, i, n - 1) +
      if Raises(es[n - 1], service, id) then 1 else if es[n - 1].Report? && es[n - 1].id == id then -1 else 0
  }

  lemma {:induction false} StepLoads(w: World, e: Event, w': World, service: string, id: string)
    requires Moves(w, e, w') && 0 <= LC.Load(w.d.conns, service, id)
    ensures LC.Load(w'.d.conns, service, id) ==
            var load := LC.Load(w.d.conns, service, id);
            if Raises(e, service, id) then load + 1
            else if e.Report? && e.id == id then Max(0, load - 1)
            else load
  {
    if e.Pick? && Resolved(e.candidates) == LeastConnections {
      LC.ChosenLoads(w.d.conns, e.service, IDs(e.candidates), e.inst.serviceID, service, id);
    } else if e.Report? {
      LC.ReleasedLoads(w.d.conns, e.id, service, id);
    }
  }

  /** No stretch that ends at `n` has a larger balance than the one from `i`. */
  ghost predicate LargestFrom(es: seq<Event>, service: string, id: string, i: nat, n: nat)
    requires i <= n <= |es|
  {
    forall j | 0 <= j <= n :: Balance(es, service, id, j, n) <= Balance(es, service, id, i, n)
  }

  /**
   In every run, with any mix of strategies and whether reports are paired or not, a load is the largest balance of any
   stretch that ends now: what was over-reported before does not count.
   */
  lemma {:induction false} LoadIsLargestBalance(run: Run, service: string, id: string, n: nat) returns (i: nat)
    requires Legal(run) && n <= |run.events|
    ensures i <= n && LargestFrom(run.events, service, id, i, n)
    ensures LC.Load(run.worlds[n].d.conns, service, id) == Balance(run.events, service, id, i, n)
  {
    if n == 0 {
      i := 0;
    } else {
      i := LoadIsLargestBalance(run, service, id, n - 1);
      assert Balance(run.events, service, id, n - 1, n - 1) == 0;
      assert Moves(run.worlds[n - 1], run.events[n - 1], run.worlds[n - 1 + 1]);
      StepLoads(run.worlds[n - 1], run.events[n - 1], run.worlds[n], service, id);
      if Balance(run.events, service, id, i, n) < 0 {
        i := n;
      }
    }
  }

  // ----- Sessions -----

  /** A session keeps its instance: two hashed selections among the same candidates agree, whatever came between. */
  lemma {:induction false} SessionsStick(run: Run, i: nat, j: nat)
    requires Legal(run) && i < |run.events| && j < |run.events|
    requires run.events[i].Pick? && run.events[j].Pick? && run.events[i].candidates == run.events[j].candidates
    requires Resolved(run.events[i].candidates) == IPHash
    requires run.events[i].ctx.sessionID == run.events[j].ctx.sessionID != []
    ensures run.events[i].inst == run.events[j].inst
  {
    assert Moves(run.worlds[i], run.events[i], run.worlds[i + 1]);
    assert Moves(run.worlds[j], run.events[j], run.worlds[j + 1]);
  }

  // ----- Statistics -----

  function Counted(e: Event): ST.Event {
    match e
    case Pick(service, _, _, _, inst) => ST.Pick(service, inst.serviceID)
    case Report(id, result) => ST.Report(id, result)
  }

  function AllCounted(es: seq<Event>): seq<ST.Event> {
    if es == [] then [] else AllCounted(es[..|es| - 1]) + [Counted(es[|es| - 1])]
  }

  function Selections(es: seq<Event>, n: nat): nat
    requires n <= |es|
  {
    if n == 0 then 0 else Selections(es, n - 1) + if es[n - 1].Pick? then 1 else 0
  }

  lemma {:induction false} StatsAreCounted(run: Run, n: nat)
    requires Legal(run) && n <= |run.events|
    ensures run.worlds[n].stats == ST.Run(AllCounted(run.events[..n]))
    ensures ST.Picks(AllCounted(run.events[..n])) == Selections(run.events, n)
  {
    if n != 0 {
      StatsAreCounted(run, n - 1);
      assert Moves(run.worlds[n - 1], run.events[n - 1], run.worlds[n]);
      assert run.events[..n][..n - 1] == run.events[..n - 1];
      var before := AllCounted(run.events[..n - 1]);
      assert (before + [Counted(run.events[n - 1])])[..|before|] == before;
    }
  }

  /** In every state of every run, what Stats reports of a service is the history of the instances first selected for it. */
  lemma {:induction false} StatsReportHistory(run: Run, n: nat, s: ST.Stats)
    requires Legal(run) && n <= |run.events| && ST.Summarizes(run.worlds[n].stats, s)
    ensures var es := AllCounted(run.events[..n]);
            && (forall id :: id in s.instanceCounts <==> ST.FirstService(es, id) == Some(s.serviceName))
            && (forall id | id in s.instanceCounts :: s.instanceCounts[id] == ST.PicksOf(es, id))
            && s.totalRequests == Sum(s.instanceCounts.Keys, id => ST.PicksOf(es, id))
            && s.successful == Sum(s.instanceCounts.Keys, id => ST.Outcomes(es, id, true))
            && s.failed == Sum(s.instanceCounts.Keys, id => ST.Outcomes(es, id, false))
            && ST.AverageOf(s, Sum(s.instanceCounts.Keys, id => ST.ResponseTimes(es, id)))
  {
    StatsAreCounted(run, n);
    ST.SummaryIsHistory(AllCounted(run.events[..n]), s);
  }

  /** In every state the totals over all services are the selections made so far. */
  lemma {:induction false} TotalsAreSelections(run: Run, n: nat)
    requires Legal(run) && n <= |run.events|
    ensures ST.Consistent(run.worlds[n].stats)
    ensures Sum(ST.ServiceNames(run.worlds[n].stats), ST.TotalsIn(run.worlds[n].stats)) == Selections(run.events, n)
  {
    StatsAreCounted(run, n);
    ST.RunIsConsistent(AllCounted(run.events[..n]));
    ST.TotalsAreSelections(AllCounted(run.events[..n]));
  }
}
