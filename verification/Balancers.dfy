/** The load balancer object of internal/router/balancer.go. */
module Balancers {
  import opened Common
  import Arithmetic
  import opened Routing
  import opened RoundRobin
  import opened Weighted
  import LeastConnections
  import opened Hashing
  import Statistics

  /** What a request brings along: its session ID and its correlation header, either of which may be empty. */
  datatype Context = Context(sessionID: seq<Rune>, correlationID: seq<Rune>)

  datatype Selection = Failed | NoInstance | Selected(inst: Instance)

  function IDs(instances: seq<Instance>): seq<string> {
    seq(|instances|, i requires 0 <= i < |instances| => instances[i].serviceID)
  }

  function StickyKey(ctx: Context, random: seq<Rune>): seq<Rune> {
    if ctx.sessionID != [] then ctx.sessionID else if ctx.correlationID != [] then ctx.correlationID else random
  }

  /** The divisor is the length cut to 32 bits. */
  predicate Hashable(instances: seq<Instance>) {
    |instances| % WORDS != 0
  }

  lemma HashableNonEmpty(instances: seq<Instance>)
    requires Hashable(instances)
    ensures instances != [] && |instances| % WORDS <= |instances|
  {
  }

  function StickyChoice(instances: seq<Instance>, key: seq<Rune>): Instance
    requires Hashable(instances)
  {
    HashableNonEmpty(instances);
    instances[Fnv1a(key) % (|instances| % WORDS)]
  }

  /** Candidate `i` is the choice for exactly the keys whose hash leaves remainder `i`. */
  lemma {:induction false} StickyByHash(instances: seq<Instance>, key: seq<Rune>, i: nat)
    requires 0 < |instances| < WORDS && DistinctIDs(instances) && i < |instances|
    ensures Hashable(instances)
    ensures StickyChoice(instances, key) == instances[i] <==> Fnv1a(key) % |instances| == i
  {
    var j := Fnv1a(key) % |instances|;
    assert StickyChoice(instances, key) == instances[j];
    assert i != j ==> instances[i].serviceID != instances[j].serviceID;
  }

  lemma {:induction false} ChosenByHash(instances: seq<Instance>, key: seq<Rune>, i: nat)
    requires |instances| < WORDS && i < |instances| && Fnv1a(key) == i
    ensures Hashable(instances) && StickyChoice(instances, key) == instances[i]
  {
    Arithmetic.DivModUnique(i, |instances|, 0, i);
    Arithmetic.DivModUnique(|instances|, WORDS, 0, |instances|);
  }

  /** No candidate is left out: each is the choice for some session. */
  lemma {:induction false} EveryCandidateIsSomeSessions(instances: seq<Instance>, i: nat) returns (session: seq<Rune>)
    requires 0 < |instances| < WORDS && i < |instances|
    ensures session != [] && Hashable(instances)
    ensures StickyChoice(instances, StickyKey(Context(session, []), [])) == instances[i]
  {
    session := EveryHashIsReached(i);
    ChosenByHash(instances, session, i);
  }

  /** The session decides if there is one, else the correlation header if there is one, else chance. */
  lemma {:induction false} KeyPrecedence(session: seq<Rune>, correlation: seq<Rune>, random: seq<Rune>)
    ensures session != [] ==> StickyKey(Context(session, correlation), random) == session
    ensures session == [] && correlation != [] ==> StickyKey(Context(session, correlation), random) == correlation
    ensures session == [] && correlation == [] ==> StickyKey(Context(session, correlation), random) == random
  {
  }

  /** The part of the balancer that decides selections. */
  datatype Deciders = Deciders(idx: map<string, int64>, conns: LeastConnections.Connections)

  /** `inst` is what `service`'s strategy picks among `candidates` in state `d`, and `d'` the state it leaves. */
  ghost predicate Picks(
    service: string, candidates: seq<Instance>, ctx: Context, randomKey: seq<Rune>,
    d: Deciders, inst: Instance, d': Deciders)
    requires candidates != []
  {
    match Resolved(candidates)
    case RoundRobin =>
      && d' == d.(idx := Advanced(d.idx, service))
      && inst == candidates[Position(d'.idx[service], |candidates|)]
    case WeightedRoundRobin =>
      var name := service + SUFFIX;
      ExpandedLength(candidates);
      && d' == d.(idx := Advanced(d.idx, name))
      && inst == Expanded(candidates)[Position(d'.idx[name], TotalWeight(candidates))]
    case LeastConnections =>
      exists i ::
        && LeastConnections.FirstLeast(LeastConnections.Loads(d.conns, service, IDs(candidates)), i)
        && inst == candidates[i]
        && d' == d.(conns := LeastConnections.Chosen(d.conns, service, IDs(candidates), inst.serviceID))
    case IPHash =>
      d' == d && Hashable(candidates) && inst == StickyChoice(candidates, StickyKey(ctx, randomKey))
    case Random =>
      d' == d && inst in candidates
  }

  method FilterHealthy(instances: seq<Instance>) returns (out: seq<Instance>)
    ensures out == WithStatus(instances, s => s == Healthy)
  {
    out := [];
    for i := 0 to |instances|
      invariant out == WithStatus(instances[..i], s => s == Healthy)
    {
      if instances[i].status == Healthy {
        out := out + [instances[i]];
      }
      assert instances[..i + 1][..i] == instances[..i];
    }
    assert instances[..|instances|] == instances;
  }

  method FilterNonUnknown(instances: seq<Instance>) returns (out: seq<Instance>)
    ensures out == WithStatus(instances, s => s != Unknown)
  {
    out := [];
    for i := 0 to |instances|
      invariant out == WithStatus(instances[..i], s => s != Unknown)
    {
      if instances[i].status != Unknown {
        out := out + [instances[i]];
      }
      assert instances[..i + 1][..i] == instances[..i];
    }
    assert instances[..|instances|] == instances;
  }

  /** Candidates are known instances, all healthy if any is, and there are none only if every status is unknown. */
  lemma {:induction false} CandidateStatuses(instances: seq<Instance>)
    ensures forall inst | inst in Candidates(instances) :: inst in instances && inst.status != Unknown
    ensures (exists inst :: inst in instances && inst.status == Healthy) ==>
              forall inst | inst in Candidates(instances) :: inst.status == Healthy
    ensures Candidates(instances) == [] <==> forall inst | inst in instances :: inst.status == Unknown
  {
    var healthy := WithStatus(instances, s => s == Healthy);
    var known := WithStatus(instances, s => s != Unknown);
    forall inst: Instance
      ensures inst in healthy <==> inst in instances && inst.status == Healthy
      ensures inst in known <==> inst in instances && inst.status != Unknown
    {
      WithStatusContents(instances, s => s == Healthy, inst);
      WithStatusContents(instances, s => s != Unknown, inst);
    }
    if Candidates(instances) != [] {
      assert Candidates(instances)[0] in Candidates(instances);
    }
  }

  lemma {:induction false} PickIsCandidate(
    service: string, candidates: seq<Instance>, ctx: Context, randomKey: seq<Rune>,
    d: Deciders, inst: Instance, d': Deciders)
    requires candidates != [] && Picks(service, candidates, ctx, randomKey, d, inst, d')
    ensures inst in candidates
  {
    if Resolved(candidates) == WeightedRoundRobin {
      ExpandedLength(candidates);
      ExpandedMembers(candidates, Position(d'.idx[service + SUFFIX], TotalWeight(candidates)));
    }
  }

  class LoadBalancer {
    var roundRobinIdx: map<string, int64>
    var connectionCount: LeastConnections.Connections
    var stats: Statistics.Table

    ghost predicate Valid()
      reads this
    {
      && Statistics.Consistent(stats)
      && LeastConnections.NonNegative(connectionCount)
    }

    function State(): Deciders
      reads this
    {
      Deciders(roundRobinIdx, connectionCount)
    }

    constructor ()
      ensures Valid() && State() == Deciders(map[], map[]) && stats == map[]
    {
      roundRobinIdx, connectionCount, stats := map[], map[], map[];
    }

    /** `listing` is the provider's answer, `random` and `randomKey` stand for the random sources. */
    method Select(service: string, ctx: Context, listing: Option<seq<Instance>>, random: nat, randomKey: seq<Rune>)
      returns (result: Selection)
      requires Valid()
      requires listing.Some? && Candidates(listing.value) != [] && Resolved(Candidates(listing.value)) == IPHash ==>
                 Hashable(Candidates(listing.value))
      modifies this
      ensures Valid()
      ensures result.Failed? <==> listing.None?
      ensures result.NoInstance? <==> listing.Some? && forall inst | inst in listing.value :: inst.status == Unknown
      ensures !result.Selected? ==> State() == old(State()) && stats == old(stats)
      ensures result.Selected? ==>
                && listing.Some? && result.inst in listing.value
                && ((exists inst :: inst in listing.value && inst.status == Healthy) ==> result.inst.status == Healthy)
                && result.inst.status != Unknown
                && Candidates(listing.value) != []
                && Picks(service, Candidates(listing.value), ctx, randomKey, old(State()), result.inst, State())
                && stats == Statistics.Recorded(old(stats), service, result.inst.serviceID)
      ensures result.Selected? && Resolved(Candidates(listing.value)) == Random ==>
                result.inst == Candidates(listing.value)[random % |Candidates(listing.value)|]
    {
      if listing.None? {
        return Failed;
      }
      var instances := listing.value;
      CandidateStatuses(instances);
      var candidates := FilterHealthy(instances);
      if |candidates| == 0 {
        candidates := FilterNonUnknown(instances);
      }
      if |candidates| == 0 {
        return NoInstance;
      }
      var inst;
      match Resolved(candidates) {
        case LeastConnections => inst := SelectLeastConnections(service, candidates);
        case WeightedRoundRobin => inst := SelectWeightedRoundRobin(service, candidates);
        case IPHash => inst := SelectIPHash(candidates, ctx, randomKey);
        case Random => inst := candidates[random % |candidates|];
        case RoundRobin => inst := SelectRoundRobin(service, candidates);
      }
      PickIsCandidate(service, candidates, ctx, randomKey, old(State()), inst, State());
      RecordRequest(service, inst.serviceID);
      return Selected(inst);
    }

    method RecordRequest(service: string, id: string)
      requires Statistics.Consistent(stats)
      modifies this`stats
      ensures Statistics.Consistent(stats)
      ensures stats == Statistics.Recorded(old(stats), service, id)
    {
      Statistics.StepsKeepConsistent(stats, service, id, RequestResult(true, 0));
      var s := Statistics.ServiceStats(service, 0, 0, 0, 0, map[]);
      if id in stats {
        s := stats[id];
      }
      s := s.(totalRequests := s.totalRequests + 1);
      var count := if id in s.instanceCounts then s.instanceCounts[id] else 0;
      s := s.(instanceCounts := s.instanceCounts[id := count + 1]);
      stats := stats[id := s];
    }

    method SelectRoundRobin(name: string, instances: seq<Instance>) returns (inst: Instance)
      requires instances != []
      modifies this`roundRobinIdx
      ensures roundRobinIdx == Advanced(old(roundRobinIdx), name)
      ensures inst == instances[Position(roundRobinIdx[name], |instances|)]
    {
      if name !in roundRobinIdx {
        roundRobinIdx := roundRobinIdx[name := 0];
      }
      var n := Next(roundRobinIdx[name]);
      roundRobinIdx := roundRobinIdx[name := n];
      inst := instances[Abs64(n) % |instances|];
    }

    method SelectWeightedRoundRobin(service: string, instances: seq<Instance>) returns (inst: Instance)
      requires instances != []
      modifies this`roundRobinIdx
      ensures |Expanded(instances)| == TotalWeight(instances) && 1 <= TotalWeight(instances)
      ensures roundRobinIdx == Advanced(old(roundRobinIdx), service + SUFFIX)
      ensures inst == Expanded(instances)[Position(roundRobinIdx[service + SUFFIX], TotalWeight(instances))]
    {
      ExpandedLength(instances);
      var weighted := Expand(instances);
      inst := SelectRoundRobin(service + SUFFIX, weighted);
    }

    method SelectLeastConnections(service: string, instances: seq<Instance>) returns (inst: Instance)
      requires instances != [] && Valid()
      modifies this`connectionCount
      ensures Valid()
      ensures exists i ::
                && LeastConnections.FirstLeast(LeastConnections.Loads(old(connectionCount), service, IDs(instances)), i)
                && inst == instances[i]
      ensures connectionCount == LeastConnections.Chosen(old(connectionCount), service, IDs(instances), inst.serviceID)
    {
      var ids := IDs(instances);
      var counts, loads := LeastConnections.ReadLoads(LeastConnections.CountsOf(connectionCount, service), ids);
      assert loads == LeastConnections.Loads(connectionCount, service, ids);
      var best := LeastConnections.Scan(loads);
      LeastConnections.StepsKeepNonNegative(connectionCount, service, ids, ids[best]);
      inst := instances[best];
      connectionCount := connectionCount[service := counts[inst.serviceID := loads[best] + 1]];
    }

    method SelectIPHash(instances: seq<Instance>, ctx: Context, randomKey: seq<Rune>) returns (inst: Instance)
      requires Hashable(instances)
      ensures inst == StickyChoice(instances, StickyKey(ctx, randomKey))
    {
      HashableNonEmpty(instances);
      var key := ctx.sessionID;
      if key == [] {
        key := ctx.correlationID;
      }
      if key == [] {
        key := randomKey;
      }
      var h := ComputeFnv1a(key);
      inst := instances[h % (|instances| % WORDS)];
    }

    method ReportResult(id: string, result: RequestResult)
      requires Valid()
      modifies this
      ensures Valid()
      ensures roundRobinIdx == old(roundRobinIdx)
      ensures connectionCount == LeastConnections.Released(old(connectionCount), id)
      ensures stats == Statistics.Reported(old(stats), id, result)
    {
      var before := connectionCount;
      var rest := before.Keys;
      while rest != {}
        invariant rest <= before.Keys && connectionCount.Keys == before.Keys
        invariant roundRobinIdx == old(roundRobinIdx) && stats == old(stats)
        invariant forall s | s in before ::
                    connectionCount[s] == if s in rest then before[s] else LeastConnections.Lowered(before[s], id)
        decreases rest
      {
        var service :| service in rest;
        var counts := connectionCount[service];
        if id in counts {
          var v := counts[id];
          if v > 0 {
            connectionCount := connectionCount[service := counts[id := v - 1]];
          }
        }
        rest := rest - {service};
      }
      assert connectionCount == LeastConnections.Released(before, id);
      LeastConnections.StepsKeepNonNegative(before, "", [], id);
      RecordReport(id, result);
    }

    method RecordReport(id: string, result: RequestResult)
      requires Statistics.Consistent(stats)
      modifies this`stats
      ensures Statistics.Consistent(stats)
      ensures stats == Statistics.Reported(old(stats), id, result)
    {
      Statistics.StepsKeepConsistent(stats, "", id, result);
      if id in stats {
        var s := stats[id];
        if result.success {
          s := s.(successful := s.successful + 1);
        } else {
          s := s.(failed := s.failed + 1);
        }
        stats := stats[id := s.(totalNanos := s.totalNanos + result.responseTime)];
      }
    }

    method Stats(service: string) returns (summary: Statistics.Stats)
      requires Valid()
      ensures summary.serviceName == service && Statistics.Summarizes(stats, summary)
    {
      summary := Statistics.Summarize(stats, service);
    }
  }
}
