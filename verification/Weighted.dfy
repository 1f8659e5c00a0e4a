/** Weighted round robin: round robin over a list in which every instance is repeated as often as its weight. */
module Weighted {
  import opened Common
  import opened Arithmetic
  import opened Routing
  import opened RoundRobin

  function Copies(inst: Instance, n: nat): seq<Instance> {
    seq(n, _ => inst)
  }

  function Expanded(instances: seq<Instance>): seq<Instance> {
    if instances == [] then []
    else
      var last := instances[|instances| - 1];
      Expanded(instances[..|instances| - 1]) + Copies(last, Weight(last))
  }

  /** The expansion loop of selectWeightedRoundRobin. */
  method Expand(instances: seq<Instance>) returns (weighted: seq<Instance>)
    ensures weighted == Expanded(instances)
  {
    weighted := [];
    for i := 0 to |instances|
      invariant weighted == Expanded(instances[..i])
    {
      var inst := instances[i];
      var before := weighted;
      for n := 0 to Weight(inst)
        invariant weighted == before + Copies(inst, n)
      {
        weighted := weighted + [inst];
      }
      assert instances[..i + 1][..i] == instances[..i];
    }
    assert instances[..|instances|] == instances;
  }

  // ----- The prefix-sum view -----

  function TotalWeight(instances: seq<Instance>): nat {
    if instances == [] then 0
    else TotalWeight(instances[..|instances| - 1]) + Weight(instances[|instances| - 1])
  }

  /** The first slot of instance `i`: the weights before it. */
  function Slot(instances: seq<Instance>, i: nat): nat
    requires i <= |instances|
  {
    TotalWeight(instances[..i])
  }

  lemma {:induction false} SlotsFollow(instances: seq<Instance>, i: nat)
    requires i < |instances|
    ensures Slot(instances, i + 1) == Slot(instances, i) + Weight(instances[i])
    ensures Slot(instances, i + 1) <= TotalWeight(instances)
  {
    assert instances[..i + 1][..i] == instances[..i];
    if i + 1 == |instances| {
      assert instances[..i + 1] == instances;
    } else {
      var shorter := instances[..|instances| - 1];
      SlotsFollow(shorter, i);
      assert shorter[..i + 1] == instances[..i + 1];
    }
  }

  lemma {:induction false} ExpandedLength(instances: seq<Instance>)
    ensures |Expanded(instances)| == TotalWeight(instances)
    ensures |instances| <= TotalWeight(instances)
  {
    if instances != [] {
      ExpandedLength(instances[..|instances| - 1]);
    }
  }

  /** The expanded list is a prefix-sum lookup: instance `i` fills exactly the slots of its own weight. */
  lemma {:induction false} ExpandedIsPrefixSum(instances: seq<Instance>, i: nat, slot: nat)
    requires i < |instances| && Slot(instances, i) <= slot < Slot(instances, i + 1)
    ensures slot < |Expanded(instances)| == TotalWeight(instances)
    ensures Expanded(instances)[slot] == instances[i]
  {
    ExpandedLength(instances);
    SlotsFollow(instances, i);
    if i + 1 == |instances| {
      ExpandedLength(instances[..i]);
      assert instances[..i + 1] == instances;
    } else {
      var shorter := instances[..|instances| - 1];
      assert shorter[..i] == instances[..i] && shorter[..i + 1] == instances[..i + 1];
      ExpandedIsPrefixSum(shorter, i, slot);
    }
  }

  /** Every slot belongs to some instance. */
  lemma {:induction false} SlotOwner(instances: seq<Instance>, slot: nat) returns (i: nat)
    requires slot < TotalWeight(instances)
    ensures i < |instances| && Slot(instances, i) <= slot < Slot(instances, i + 1)
  {
    var shorter := instances[..|instances| - 1];
    if slot < TotalWeight(shorter) {
      i := SlotOwner(shorter, slot);
      assert shorter[..i] == instances[..i] && shorter[..i + 1] == instances[..i + 1];
    } else {
      i := |instances| - 1;
      assert instances[..i + 1] == instances;
    }
  }

  lemma {:induction false} ExpandedMembers(instances: seq<Instance>, slot: nat)
    requires slot < |Expanded(instances)|
    ensures Expanded(instances)[slot] in instances
  {
    ExpandedLength(instances);
    var i := SlotOwner(instances, slot);
    ExpandedIsPrefixSum(instances, i, slot);
  }

  lemma {:induction false} SlotsOfID(instances: seq<Instance>, i: nat, slot: nat)
    requires DistinctIDs(instances) && i < |instances| && slot < TotalWeight(instances)
    ensures slot < |Expanded(instances)|
    ensures Expanded(instances)[slot].serviceID == instances[i].serviceID <==>
            Slot(instances, i) <= slot < Slot(instances, i + 1)
  {
    var owner := SlotOwner(instances, slot);
    ExpandedIsPrefixSum(instances, owner, slot);
    if Slot(instances, i) <= slot < Slot(instances, i + 1) {
      ExpandedIsPrefixSum(instances, i, slot);
    }
  }

  // ----- Shares -----

  lemma {:induction false} ShareOfWeight(W: pos, lo: nat, hi: nat, weight: pos, from: nat, m: nat)
    requires hi == lo + weight <= W && from + m <= MAX_INT64
    ensures weight * (m / W) <= Hits(W, lo, hi, from, m) <= weight * CeilDiv(m, W)
    ensures CeilDiv(m, W) <= m / W + 1
    ensures m % W == 0 ==> Hits(W, lo, hi, from, m) == weight * (m / W)
  {
    BlockShare(W, lo, weight, from, m);
    CeilDivIs(m, W);
  }

  // ----- Which services share a counter -----

  const SUFFIX := "-weighted"

  function CounterName(service: string, weighted: bool): string {
    if weighted then service + SUFFIX else service
  }

  /** Two uses share a counter exactly when they are the same use, or one service is named like the other's weighted counter. */
  lemma {:induction false} SharedCounters(s: string, sWeighted: bool, t: string, tWeighted: bool)
    ensures CounterName(s, sWeighted) == CounterName(t, tWeighted) <==>
            || (s == t && sWeighted == tWeighted)
            || (sWeighted && !tWeighted && t == s + "-weighted")
            || (tWeighted && !sWeighted && s == t + "-weighted")
  {
    if sWeighted && tWeighted {
      assert (s + SUFFIX)[..|s + SUFFIX| - |SUFFIX|] == s;
      assert (t + SUFFIX)[..|t + SUFFIX| - |SUFFIX|] == t;
    }
  }
}
