/** The values of internal/router/router.go and the stateless helpers of internal/router/balancer.go. */
module Routing {
  import opened Common

  datatype Instance = Instance(
    serviceName: string, serviceID: string, address: string, port: int, status: HealthStatus, metadata: map<string, string>)

  datatype RequestResult = RequestResult(success: bool, responseTime: Time)

  datatype Strategy = RoundRobin | LeastConnections | Random | WeightedRoundRobin | IPHash

  /**
   Lower case as far as strategy names are concerned: besides A to Z, the dotted capital I is the only
   other character whose lower-case form occurs in one of them.
   */
  function Lower(s: string): string {
    if s == [] then []
    else
      var c := s[0];
      [if 'A' <= c <= 'Z' then c + ' ' else if c == '\U{0130}' then 'i' else c] + Lower(s[1..])
  }

  function StrategyOf(lower: string): Strategy {
    if lower == "leastconnections" || lower == "least_connections" then LeastConnections
    else if lower == "random" then Random
    else if lower == "weightedroundrobin" || lower == "weighted_round_robin" then WeightedRoundRobin
    else if lower == "iphash" || lower == "ip_hash" then IPHash
    else RoundRobin
  }

  function ParseStrategy(name: string): Strategy {
    StrategyOf(Lower(name))
  }

  /** The lower-case spellings of a strategy. */
  predicate Spells(lower: string, s: Strategy) {
    match s
    case RoundRobin => lower == "roundrobin" || lower == "round_robin"
    case LeastConnections => lower == "leastconnections" || lower == "least_connections"
    case Random => lower == "random"
    case WeightedRoundRobin => lower == "weightedroundrobin" || lower == "weighted_round_robin"
    case IPHash => lower == "iphash" || lower == "ip_hash"
  }

  /** No spelling is one of two strategies: they differ in length or in their first letter. */
  lemma SpellingsDiffer(lower: string, s: Strategy)
    requires Spells(lower, s)
    ensures match s
            case RoundRobin => |lower| == 10 || |lower| == 11
            case LeastConnections => |lower| == 16 || |lower| == 17
            case Random => |lower| == 6 && lower[0] == 'r'
            case WeightedRoundRobin => |lower| == 18 || |lower| == 20
            case IPHash => (|lower| == 6 || |lower| == 7) && lower[0] == 'i'
  {
  }

  lemma {:induction false} StrategyOfSpelling(lower: string, s: Strategy)
    requires Spells(lower, s)
    ensures StrategyOf(lower) == s
  {
    SpellingsDiffer(lower, s);
  }

  /** Each spelling, in any case, means its own strategy, and every other name means round robin. */
  lemma {:induction false} NamesMeanStrategies(name: string, s: Strategy)
    ensures Spells(Lower(name), s) ==> ParseStrategy(name) == s
    ensures ParseStrategy(name) == s ==> Spells(Lower(name), s) || s == RoundRobin
  {
    if Spells(Lower(name), s) {
      StrategyOfSpelling(Lower(name), s);
    }
  }

  predicate NamesStrategy(inst: Instance) {
    "lb_strategy" in inst.metadata && inst.metadata["lb_strategy"] != ""
  }

  /** The first candidate that names a strategy decides. */
  function Resolved(candidates: seq<Instance>): Strategy {
    if candidates == [] then RoundRobin
    else if NamesStrategy(candidates[0]) then ParseStrategy(candidates[0].metadata["lb_strategy"])
    else Resolved(candidates[1..])
  }

  lemma {:induction false} FirstNamedStrategyDecides(candidates: seq<Instance>, i: nat)
    requires i < |candidates| && NamesStrategy(candidates[i]) && forall j | 0 <= j < i :: !NamesStrategy(candidates[j])
    ensures Resolved(candidates) == ParseStrategy(candidates[i].metadata["lb_strategy"])
  {
    if i != 0 {
      assert !NamesStrategy(candidates[0]);
      FirstNamedStrategyDecides(candidates[1..], i - 1);
    }
  }

  lemma {:induction false} LowerTwice(s: string)
    ensures Lower(Lower(s)) == Lower(s)
  {
    if s != [] {
      LowerTwice(s[1..]);
    }
  }

  /** `s` is `t`, which has no capitals, with some of its letters from a to z in upper case. */
  predicate SameButForCase(s: string, t: string) {
    && |s| == |t|
    && forall i | 0 <= i < |t| ::
         && !('A' <= t[i] <= 'Z') && t[i] != '\U{0130}'
         && (s[i] == t[i] || ('a' <= t[i] <= 'z' && s[i] == t[i] - ' '))
  }

  lemma {:induction false} LowerOfAnyCase(s: string, t: string)
    requires SameButForCase(s, t)
    ensures Lower(s) == t
  {
    if s != [] {
      LowerOfAnyCase(s[1..], t[1..]);
    }
  }

  /** Strategy names do not depend on case. */
  lemma {:induction false} NamesIgnoreCase(s: string, t: string)
    requires Lower(s) == t
    ensures ParseStrategy(s) == ParseStrategy(t)
  {
    LowerTwice(s);
  }

  predicate Digits(s: string) {
    s != [] && forall i | 0 <= i < |s| :: '0' <= s[i] <= '9'
  }

  function Digit(c: char): nat
    requires '0' <= c <= '9'
  {
    c as int - '0' as int
  }

  function Decimal(s: string): nat
    requires forall i | 0 <= i < |s| :: '0' <= s[i] <= '9'
  {
    if s == [] then 0 else 10 * Decimal(s[..|s| - 1]) + Digit(s[|s| - 1])
  }

  /** The weight of an instance: its "weight" entry if that is a positive 64-bit decimal number, else one. */
  function Weight(inst: Instance): pos {
    if "weight" !in inst.metadata then 1
    else
      var text := inst.metadata["weight"];
      var digits := if text != [] && text[0] == '+' then text[1..] else text;
      if Digits(digits) && 0 < Decimal(digits) < 0x8000_0000_0000_0000 then Decimal(digits) else 1
  }

  function DigitChar(d: nat): (c: char)
    requires d < 10
    ensures '0' <= c <= '9' && Digit(c) == d
  {
    '0' + d as char
  }

  /** The decimal text of a number. */
  function Text(n: nat): string {
    if n < 10 then [DigitChar(n)] else Text(n / 10) + [DigitChar(n % 10)]
  }

  lemma DecimalAppend(s: string, d: nat)
    requires d < 10 && forall i | 0 <= i < |s| :: '0' <= s[i] <= '9'
    ensures Digits(s + [DigitChar(d)])
    ensures Decimal(s + [DigitChar(d)]) == 10 * Decimal(s) + d
  {
    assert (s + [DigitChar(d)])[..|s|] == s;
  }

  lemma {:induction false} DecimalOfText(n: nat)
    ensures Digits(Text(n)) && Decimal(Text(n)) == n
  {
    if n < 10 {
      DecimalAppend([], n);
      assert Text(n) == [] + [DigitChar(n)];
    } else {
      DecimalOfText(n / 10);
      DecimalAppend(Text(n / 10), n % 10);
    }
  }

  /** A weight written in decimal is read back, and zero or a number of more than 64 bits counts as one. */
  lemma {:induction false} WeightIsRead(inst: Instance, n: nat)
    requires "weight" in inst.metadata && inst.metadata["weight"] == Text(n)
    ensures Weight(inst) == if 0 < n < 0x8000_0000_0000_0000 then n else 1
  {
    DecimalOfText(n);
    assert '0' <= Text(n)[0] <= '9';
  }

  /** Without a weight, or with one that is not a decimal number but for a plus sign, an instance weighs one. */
  lemma {:induction false} WeightOtherwise(inst: Instance, i: nat)
    requires "weight" in inst.metadata ==>
               var text := inst.metadata["weight"];
               text == "" || (i < |text| && !('0' <= text[i] <= '9') && !(i == 0 && text[0] == '+'))
    ensures Weight(inst) == 1
  {
    if "weight" in inst.metadata && inst.metadata["weight"] != "" {
      var text := inst.metadata["weight"];
      if text[0] == '+' {
        assert text[1..][i - 1] == text[i];
      }
    }
  }

  lemma {:induction false} PlusSignIsIgnored(inst: Instance, n: nat)
    requires "weight" in inst.metadata && inst.metadata["weight"] == ['+'] + Text(n)
    ensures Weight(inst) == if 0 < n < 0x8000_0000_0000_0000 then n else 1
  {
    DecimalOfText(n);
    assert inst.metadata["weight"][1..] == Text(n);
  }

  function WithStatus(instances: seq<Instance>, keep: HealthStatus -> bool): seq<Instance> {
    if instances == [] then []
    else
      var rest := WithStatus(instances[..|instances| - 1], keep);
      if keep(instances[|instances| - 1].status) then rest + [instances[|instances| - 1]] else rest
  }

  lemma {:induction false} WithStatusContents(instances: seq<Instance>, keep: HealthStatus -> bool, inst: Instance)
    ensures inst in WithStatus(instances, keep) <==> inst in instances && keep(inst.status)
  {
    if instances != [] {
      WithStatusContents(instances[..|instances| - 1], keep, inst);
      assert instances == instances[..|instances| - 1] + [instances[|instances| - 1]];
    }
  }

  /** The instances kept are a subsequence: those at the positions `at`, in order, and none of the wanted status is missing. */
  lemma {:induction false} WithStatusKeepsOrder(instances: seq<Instance>, keep: HealthStatus -> bool) returns (at: seq<nat>)
    ensures |at| == |WithStatus(instances, keep)|
    ensures forall i | 0 <= i < |at| :: at[i] < |instances| && WithStatus(instances, keep)[i] == instances[at[i]]
    ensures forall i, j | 0 <= i < j < |at| :: at[i] < at[j]
    ensures forall k | 0 <= k < |instances| :: k in at <==> keep(instances[k].status)
  {
    if instances == [] {
      at := [];
    } else {
      var n := |instances| - 1;
      at := WithStatusKeepsOrder(instances[..n], keep);
      assert forall i | 0 <= i < |at| :: at[i] < n;
      assert n !in at;
      if keep(instances[n].status) {
        at := at + [n];
      }
    }
  }

  /** The healthy instances, or without any the ones whose status is known. */
  function Candidates(instances: seq<Instance>): seq<Instance> {
    var healthy := WithStatus(instances, s => s == Healthy);
    if healthy != [] then healthy else WithStatus(instances, s => s != Unknown)
  }

  predicate DistinctIDs(instances: seq<Instance>) {
    forall i, j | 0 <= i < j < |instances| :: instances[i].serviceID != instances[j].serviceID
  }
}
