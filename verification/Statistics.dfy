/** The request statistics of internal/router/balancer.go, kept per instance and summed up per service. */
module Statistics {
  import opened Common
  import opened Arithmetic
  import opened Routing
  import opened Sums

  datatype ServiceStats = ServiceStats(
    serviceName: string, totalRequests: nat, successful: nat, failed: nat, totalNanos: int, instanceCounts: map<string, nat>)

  /** By instance ID: an entry belongs to the service for which the instance was first selected. */
  type Table = map<string, ServiceStats>

  datatype Stats = Stats(
    serviceName: string, totalRequests: int, successful: int, failed: int, average: Time, instanceCounts: map<string, int>)

  function Recorded(t: Table, service: string, id: string): Table {
    var s := if id in t then t[id] else ServiceStats(service, 0, 0, 0, 0, map[]);
    var count := if id in s.instanceCounts then s.instanceCounts[id] else 0;
    t[id := s.(totalRequests := s.totalRequests + 1, instanceCounts := s.instanceCounts[id := count + 1])]
  }

  function Reported(t: Table, id: string, result: RequestResult): Table {
    if id !in t then t
    else
      var s := t[id];
      t[id := s.(successful := if result.success then s.successful + 1 else s.successful,
                 failed := if result.success then s.failed else s.failed + 1,
                 totalNanos := s.totalNanos + result.responseTime)]
  }

  /** Every entry counts one instance, and counts it as often as it counts requests. */
  predicate Consistent(t: Table) {
    forall id | id in t :: t[id].instanceCounts == map[id := t[id].totalRequests]
  }

  lemma StepsKeepConsistent(t: Table, service: string, id: string, result: RequestResult)
    requires Consistent(t)
    ensures Consistent(Recorded(t, service, id)) && Consistent(Reported(t, id, result))
  {
    assert Recorded(t, service, id)[id].instanceCounts == map[id := Recorded(t, service, id)[id].totalRequests];
  }

  function Requests(t: Table, id: string): int {
    if id in t then t[id].totalRequests else 0
  }

  function RequestsIn(t: Table): string -> int {
    id => Requests(t, id)
  }

  function Nanos(t: Table, id: string): int {
    if id in t then t[id].totalNanos else 0
  }

  function NanosIn(t: Table): string -> int {
    id => Nanos(t, id)
  }

  function SuccessesIn(t: Table): string -> int {
    id => if id in t then t[id].successful else 0
  }

  function FailuresIn(t: Table): string -> int {
    id => if id in t then t[id].failed else 0
  }

  function Members(t: Table, service: string): set<string> {
    set id | id in t && t[id].serviceName == service
  }

  /** The running sums of Stats. */
  datatype Totals = Totals(requests: int, successful: int, failed: int, nanos: int, counts: map<string, int>)

  /** `sums` are the sums over the entries `ids`. */
  ghost predicate Tally(t: Table, ids: set<string>, sums: Totals) {
    && sums.requests == Sum(ids, RequestsIn(t))
    && sums.successful == Sum(ids, SuccessesIn(t))
    && sums.failed == Sum(ids, FailuresIn(t))
    && sums.nanos == Sum(ids, NanosIn(t))
    && sums.counts.Keys == ids
    && forall id | id in ids :: sums.counts[id] == Requests(t, id)
  }

  function CountIn(counts: map<string, int>, x: string): int {
    if x in counts then counts[x] else 0
  }

  /** The counts `sum` are those of `counts` and of `more` added up. */
  ghost predicate AddsUp(counts: map<string, int>, more: map<string, int>, sum: map<string, int>) {
    && (forall x :: x in sum <==> x in counts || x in more)
    && (forall x | x in sum :: sum[x] == CountIn(counts, x) + CountIn(more, x))
  }

  /** `more` are `sums` with one entry added. */
  ghost predicate OneAdded(sums: Totals, s: ServiceStats, more: Totals) {
    && more.requests == sums.requests + s.totalRequests
    && more.successful == sums.successful + s.successful
    && more.failed == sums.failed + s.failed
    && more.nanos == sums.nanos + s.totalNanos
    && AddsUp(sums.counts, s.instanceCounts, more.counts)
  }

  lemma {:induction false} TallyOneMore(t: Table, ids: set<string>, id: string, sums: Totals, more: Totals)
    requires Consistent(t) && id in t && id !in ids && Tally(t, ids, sums) && OneAdded(sums, t[id], more)
    ensures Tally(t, ids + {id}, more)
  {
    assert ids + {id} - {id} == ids;
    assert t[id].instanceCounts == map[id := Requests(t, id)];
    SumRemove(ids + {id}, RequestsIn(t), id);
    SumRemove(ids + {id}, SuccessesIn(t), id);
    SumRemove(ids + {id}, FailuresIn(t), id);
    SumRemove(ids + {id}, NanosIn(t), id);
  }

  /** Go's integer division rounds toward zero. */
  function Quotient(a: int, b: pos): int {
    if 0 <= a then a / b else -(-a / b)
  }

  /** The average is the sum of the response times per request, rounded toward zero, and zero without requests. */
  predicate AverageOf(s: Stats, nanos: int) {
    && (s.totalRequests <= 0 ==> s.average == 0)
    && (0 < s.totalRequests && 0 <= nanos ==>
          s.average * s.totalRequests <= nanos < (s.average + 1) * s.totalRequests)
    && (0 < s.totalRequests && nanos < 0 ==>
          (s.average - 1) * s.totalRequests < nanos <= s.average * s.totalRequests)
  }

  lemma QuotientRounds(a: int, b: pos, q: int)
    requires q == Quotient(a, b)
    ensures 0 <= a ==> q * b <= a < (q + 1) * b
    ensures a < 0 ==> (q - 1) * b < a <= q * b
  {
    var m := if 0 <= a then a else -a;
    var n := m / b;
    assert m == n * b + m % b;
    assert (n + 1) * b == n * b + b && (q - 1) * b == q * b - b && (-n) * b == -(n * b);
  }

  lemma {:induction false} AverageIsQuotient(s: Stats, nanos: int)
    requires s.average == if 0 < s.totalRequests then Quotient(nanos, s.totalRequests) else 0
    ensures AverageOf(s, nanos)
  {
    if 0 < s.totalRequests {
      QuotientRounds(nanos, s.totalRequests, s.average);
    }
  }

  /** What LoadBalancer.Stats reports about a service: sums over the entries that belong to it. */
  ghost predicate Summarizes(t: Table, s: Stats) {
    var nanos := Sum(Members(t, s.serviceName), NanosIn(t));
    && Tally(t, Members(t, s.serviceName), Totals(s.totalRequests, s.successful, s.failed, nanos, s.instanceCounts))
    && s.average == if 0 < s.totalRequests then Quotient(nanos, s.totalRequests) else 0
  }

  /** The inner loop of Stats, over the counts of one entry. */
  method AddCounts(counts: map<string, int>, more: map<string, int>) returns (sum: map<string, int>)
    ensures AddsUp(counts, more, sum)
  {
    sum := counts;
    var rest := more.Keys;
    while rest != {}
      invariant rest <= more.Keys
      invariant forall x :: x in sum <==> x in counts || (x in more && x !in rest)
      invariant forall x | x in sum :: sum[x] == CountIn(counts, x) + if x in rest then 0 else CountIn(more, x)
      decreases rest
    {
      var x :| x in rest;
      sum := sum[x := CountIn(sum, x) + more[x]];
      rest := rest - {x};
    }
  }

  method AddEntry(sums: Totals, s: ServiceStats) returns (more: Totals)
    ensures OneAdded(sums, s, more)
  {
    var counts := AddCounts(sums.counts, s.instanceCounts);
    more := Totals(sums.requests + s.totalRequests, sums.successful + s.successful, sums.failed + s.failed,
                   sums.nanos + s.totalNanos, counts);
  }

  /** The loop of Stats over all entries, in an arbitrary order. */
  method AddUp(t: Table, service: string) returns (sums: Totals)
    requires Consistent(t)
    ensures Tally(t, Members(t, service), sums)
  {
    sums := Totals(0, 0, 0, 0, map[]);
    var rest := t.Keys;
    ghost var done: set<string> := {};
    while rest != {}
      invariant rest <= t.Keys
      invariant forall id :: id in done <==> id in Members(t, service) && id !in rest
      invariant Tally(t, done, sums)
      decreases rest
    {
      var id :| id in rest;
      rest := rest - {id};
      if t[id].serviceName == service {
        var more := AddEntry(sums, t[id]);
        TallyOneMore(t, done, id, sums, more);
        sums, done := more, done + {id};
      }
    }
    assert done == Members(t, service);
  }

  method Summarize(t: Table, service: string) returns (stats: Stats)
    requires Consistent(t)
    ensures stats.serviceName == service && Summarizes(t, stats)
  {
    var sums := AddUp(t, service);
    var average := 0;
    if sums.requests > 0 {
      average := Quotient(sums.nanos, sums.requests);
    }
    stats := Stats(service, sums.requests, sums.successful, sums.failed, average, sums.counts);
  }

  /** A service's total is the sum of its reported instance counts. */
  lemma {:induction false} TotalIsSumOfCounts(t: Table, s: Stats)
    requires Summarizes(t, s)
    ensures s.totalRequests == Sum(s.instanceCounts.Keys, id => if id in s.instanceCounts then s.instanceCounts[id] else 0)
  {
    assert s.instanceCounts.Keys == Members(t, s.serviceName);
    SumCongruent(Members(t, s.serviceName), RequestsIn(t),
                 id => if id in s.instanceCounts then s.instanceCounts[id] else 0);
  }

  // ----- Runs -----

  datatype Event = Pick(service: string, id: string) | Report(id: string, result: RequestResult)

  function Run(es: seq<Event>): Table {
    if es == [] then map[]
    else
      var before := Run(es[..|es| - 1]);
      match es[|es| - 1]
      case Pick(service, id) => Recorded(before, service, id)
      case Report(id, result) => Reported(before, id, result)
  }

  function Picks(es: seq<Event>): nat {
    if es == [] then 0 else Picks(es[..|es| - 1]) + if es[|es| - 1].Pick? then 1 else 0
  }

  function PicksOf(es: seq<Event>, id: string): nat {
    if es == [] then 0
    else PicksOf(es[..|es| - 1], id) + if es[|es| - 1].Pick? && es[|es| - 1].id == id then 1 else 0
  }

  function ReportsOf(es: seq<Event>, id: string): nat {
    if es == [] then 0
    else ReportsOf(es[..|es| - 1], id) + if es[|es| - 1].Report? && es[|es| - 1].id == id then 1 else 0
  }

  lemma {:induction false} RunIsConsistent(es: seq<Event>)
    ensures Consistent(Run(es))
  {
    if es != [] {
      RunIsConsistent(es[..|es| - 1]);
      var e := es[|es| - 1];
      StepsKeepConsistent(Run(es[..|es| - 1]), if e.Pick? then e.service else "", e.id, if e.Report? then e.result else RequestResult(true, 0));
    }
  }

  lemma {:induction false} AllRequests(es: seq<Event>)
    ensures Sum(Run(es).Keys, RequestsIn(Run(es))) == Picks(es)
  {
    if es != [] {
      var before, after := Run(es[..|es| - 1]), Run(es);
      AllRequests(es[..|es| - 1]);
      var e := es[|es| - 1];
      var id := e.id;
      if id in after {
        SumRemove(after.Keys, RequestsIn(after), id);
        SumCongruent(after.Keys - {id}, RequestsIn(after), RequestsIn(before));
        if id in before {
          assert after.Keys == before.Keys;
          SumRemove(before.Keys, RequestsIn(before), id);
        } else {
          assert after.Keys - {id} == before.Keys;
        }
      }
    }
  }

  function ServiceNames(t: Table): set<string> {
    set id | id in t :: t[id].serviceName
  }

  function MembersOfAny(t: Table, names: set<string>): set<string> {
    set id | id in t && t[id].serviceName in names
  }

  ghost function TotalOf(t: Table, service: string): int {
    Sum(Members(t, service), RequestsIn(t))
  }

  ghost function TotalsIn(t: Table): string -> int {
    n => TotalOf(t, n)
  }

  lemma {:induction false} TotalsPartition(t: Table, names: set<string>)
    ensures Sum(names, TotalsIn(t)) ==
            Sum(MembersOfAny(t, names), RequestsIn(t))
  {
    var ids := MembersOfAny(t, names);
    if names == {} {
      assert ids == {};
    } else {
      var n :| n in names;
      var others := MembersOfAny(t, names - {n});
      SumRemove(names, TotalsIn(t), n);
      TotalsPartition(t, names - {n});
      assert ids == others + Members(t, n);
      SumDisjoint(others, Members(t, n), RequestsIn(t));
    }
  }

  /** Over all service names, the totals add up to the number of selections that returned an instance. */
  lemma {:induction false} TotalsAreSelections(es: seq<Event>)
    ensures var t := Run(es);
            Sum(ServiceNames(t), TotalsIn(t)) == Picks(es)
  {
    var t := Run(es);
    var names := ServiceNames(t);
    TotalsPartition(t, names);
    assert MembersOfAny(t, names) == t.Keys;
    AllRequests(es);
  }

  /** The reports on an instance, good or bad, since it was first selected. */
  function Outcomes(es: seq<Event>, id: string, good: bool): nat {
    if es == [] then 0
    else
      var before, e := es[..|es| - 1], es[|es| - 1];
      Outcomes(before, id, good) + if e.Report? && e.id == id && e.result.success == good && PicksOf(before, id) != 0 then 1 else 0
  }

  /** Their response times added up. */
  function ResponseTimes(es: seq<Event>, id: string): int {
    if es == [] then 0
    else
      var before, e := es[..|es| - 1], es[|es| - 1];
      ResponseTimes(before, id) + if e.Report? && e.id == id && PicksOf(before, id) != 0 then e.result.responseTime else 0
  }

  /** The service for which an instance was first selected. */
  function FirstService(es: seq<Event>, id: string): Option<string> {
    if es == [] then None
    else
      var before, e := FirstService(es[..|es| - 1], id), es[|es| - 1];
      if before.None? && e.Pick? && e.id == id then Some(e.service) else before
  }

  /** An entry is its instance's history: for whom it was first selected, how often, and what was reported since. */
  lemma {:induction false} EntryIsHistory(es: seq<Event>, id: string)
    ensures id in Run(es) <==> FirstService(es, id).Some?
    ensures id in Run(es) <==> PicksOf(es, id) != 0
    ensures id in Run(es) ==>
              var s := Run(es)[id];
              && FirstService(es, id) == Some(s.serviceName) && s.totalRequests == PicksOf(es, id)
              && s.successful == Outcomes(es, id, true) && s.failed == Outcomes(es, id, false)
              && s.totalNanos == ResponseTimes(es, id)
    ensures id !in Run(es) ==> Outcomes(es, id, true) == Outcomes(es, id, false) == ResponseTimes(es, id) == 0
  {
    if es != [] {
      EntryIsHistory(es[..|es| - 1], id);
    }
  }

  /** What a summary of a service says, in terms of the history of the instances first selected for it. */
  lemma {:induction false} SummaryIsHistory(es: seq<Event>, s: Stats)
    requires Summarizes(Run(es), s)
    ensures forall id :: id in s.instanceCounts <==> FirstService(es, id) == Some(s.serviceName)
    ensures forall id | id in s.instanceCounts :: s.instanceCounts[id] == PicksOf(es, id)
    ensures s.totalRequests == Sum(s.instanceCounts.Keys, id => PicksOf(es, id))
    ensures s.successful == Sum(s.instanceCounts.Keys, id => Outcomes(es, id, true))
    ensures s.failed == Sum(s.instanceCounts.Keys, id => Outcomes(es, id, false))
    ensures AverageOf(s, Sum(s.instanceCounts.Keys, id => ResponseTimes(es, id)))
  {
    var t, ids := Run(es), Members(Run(es), s.serviceName);
    forall id
      ensures id in ids <==> FirstService(es, id) == Some(s.serviceName)
      ensures id in ids ==> Requests(t, id) == PicksOf(es, id)
      ensures id in ids ==> SuccessesIn(t)(id) == Outcomes(es, id, true) && FailuresIn(t)(id) == Outcomes(es, id, false)
      ensures id in ids ==> NanosIn(t)(id) == ResponseTimes(es, id)
    {
      EntryIsHistory(es, id);
    }
    assert s.instanceCounts.Keys == ids;
    SumCongruent(ids, RequestsIn(t), id => PicksOf(es, id));
    SumCongruent(ids, SuccessesIn(t), id => Outcomes(es, id, true));
    SumCongruent(ids, FailuresIn(t), id => Outcomes(es, id, false));
    SumCongruent(ids, NanosIn(t), id => ResponseTimes(es, id));
    AverageIsQuotient(s, Sum(ids, NanosIn(t)));
  }

  predicate TimesWithin(es: seq<Event>, most: nat) {
    forall k | 0 <= k < |es| :: es[k].Report? ==> 0 <= es[k].result.responseTime <= most
  }

  lemma {:induction false} EntryTimes(es: seq<Event>, id: string, most: nat)
    requires TimesWithin(es, most)
    ensures Requests(Run(es), id) == PicksOf(es, id)
    ensures 0 <= Nanos(Run(es), id) <= ReportsOf(es, id) * most
  {
    if es != [] {
      EntryTimes(es[..|es| - 1], id, most);
      assert (ReportsOf(es[..|es| - 1], id) + 1) * most == ReportsOf(es[..|es| - 1], id) * most + most;
    }
  }

  lemma {:induction false} EntryWithin(es: seq<Event>, id: string, most: nat)
    requires TimesWithin(es, most) && ReportsOf(es, id) <= PicksOf(es, id)
    ensures 0 <= NanosIn(Run(es))(id) <= RequestsIn(Run(es))(id) * most
  {
    EntryTimes(es, id, most);
    MulMonotone(ReportsOf(es, id), PicksOf(es, id), most);
  }

  lemma QuotientBound(a: nat, b: pos, m: nat)
    requires a <= b * m
    ensures 0 <= Quotient(a, b) <= m
  {
    var q := a / b;
    if m < q {
      MulMonotone(m + 1, q, b);
      assert (m + 1) * b == b * m + b;
    }
  }

  lemma SummaryBound(t: Table, s: Stats, most: nat)
    requires Summarizes(t, s)
    requires 0 <= Sum(Members(t, s.serviceName), NanosIn(t)) <= Sum(Members(t, s.serviceName), RequestsIn(t)) * most
    ensures 0 <= s.average <= most
  {
    if 0 < s.totalRequests {
      QuotientBound(Sum(Members(t, s.serviceName), NanosIn(t)), s.totalRequests, most);
    }
  }

  /** If no response takes longer than `most` and no instance is reported on more often than it is selected, no average exceeds `most`. */
  lemma {:induction false} AverageIsBounded(es: seq<Event>, s: Stats, most: nat)
    requires TimesWithin(es, most) && Summarizes(Run(es), s)
    requires forall id :: ReportsOf(es, id) <= PicksOf(es, id)
    ensures 0 <= s.average <= most
  {
    var t := Run(es);
    var ids := Members(t, s.serviceName);
    forall id | id in ids
      ensures 0 <= NanosIn(t)(id) <= RequestsIn(t)(id) * most
    {
      EntryWithin(es, id, most);
    }
    SumScaled(ids, NanosIn(t), RequestsIn(t), most);
    SummaryBound(t, s, most);
  }
}
