/** The connection counters behind the least-connections strategy of internal/router/balancer.go. */
module LeastConnections {
  import opened Common
  import opened RoundRobin

  /** Counters by service name, then by instance ID. */
  type Connections = map<string, map<string, int>>

  function CountsOf(conns: Connections, service: string): map<string, int> {
    if service in conns then conns[service] else map[]
  }

  function CountAt(counts: map<string, int>, id: string): int {
    if id in counts then counts[id] else 0
  }

  function Load(conns: Connections, service: string, id: string): int {
    CountAt(CountsOf(conns, service), id)
  }

  function Loads(conns: Connections, service: string, ids: seq<string>): seq<int> {
    seq(|ids|, i requires 0 <= i < |ids| => Load(conns, service, ids[i]))
  }

  /** Position `i` is the first among those with the smallest load. */
  predicate FirstLeast(loads: seq<int>, i: int) {
    && 0 <= i < |loads|
    && (forall j | 0 <= j < |loads| :: loads[i] <= loads[j])
    && (forall j | 0 <= j < i :: loads[i] < loads[j])
  }

  /**
   The scan of selectLeastConnections, where -1 stands for nothing chosen yet: it finds the first least load
   as long as no load is below zero itself.
   */
  method Scan(loads: seq<int>) returns (best: int)
    ensures loads == [] ==> best == -1
    ensures loads != [] ==> 0 <= best < |loads|
    ensures loads != [] && (forall j | 0 <= j < |loads| :: 0 <= loads[j]) ==> FirstLeast(loads, best)
  {
    best := -1;
    var bestCount := -1;
    for i := 0 to |loads|
      invariant i == 0 ==> best == -1 && bestCount == -1
      invariant 0 < i ==> 0 <= best < i && bestCount == loads[best]
      invariant 0 < i && (forall j | 0 <= j < |loads| :: 0 <= loads[j]) ==> FirstLeast(loads[..i], best)
    {
      var v := loads[i];
      if bestCount < 0 || v < bestCount {
        bestCount := v;
        best := i;
      }
    }
    assert loads[..|loads|] == loads;
  }

  /** Counters at zero for the IDs that have none yet. */
  function Created(counts: map<string, int>, ids: seq<string>): map<string, int> {
    if ids == [] then counts
    else
      var before, id := Created(counts, ids[..|ids| - 1]), ids[|ids| - 1];
      if id in before then before else before[id := 0]
  }

  lemma {:induction false} CreatedContents(counts: map<string, int>, ids: seq<string>, x: string)
    ensures x in Created(counts, ids) <==> x in counts || x in ids
    ensures CountAt(Created(counts, ids), x) == CountAt(counts, x)
  {
    if ids != [] {
      CreatedContents(counts, ids[..|ids| - 1], x);
      assert ids == ids[..|ids| - 1] + [ids[|ids| - 1]];
    }
  }

  /** Read the counter of every candidate, creating the missing ones. */
  method ReadLoads(counts: map<string, int>, ids: seq<string>) returns (created: map<string, int>, loads: seq<int>)
    ensures created == Created(counts, ids)
    ensures |loads| == |ids| && forall j | 0 <= j < |ids| :: loads[j] == CountAt(counts, ids[j])
  {
    created, loads := counts, [];
    for i := 0 to |ids|
      invariant created == Created(counts, ids[..i])
      invariant |loads| == i && forall j | 0 <= j < i :: loads[j] == CountAt(counts, ids[j])
    {
      var id := ids[i];
      CreatedContents(counts, ids[..i], id);
      if id !in created {
        created := created[id := 0];
      }
      loads := loads + [created[id]];
      assert ids[..i + 1][..i] == ids[..i];
    }
    assert ids[..|ids|] == ids;
  }

  /** Choosing `id` in `service`: every candidate now has a counter, and the chosen one is raised. */
  function Chosen(conns: Connections, service: string, ids: seq<string>, id: string): Connections {
    conns[service := Created(CountsOf(conns, service), ids)[id := Load(conns, service, id) + 1]]
  }

  function Lowered(counts: map<string, int>, id: string): map<string, int> {
    if id in counts && 0 < counts[id] then counts[id := counts[id] - 1] else counts
  }

  /** A report lowers the counter of `id` in every service that has one above zero. */
  function Released(conns: Connections, id: string): Connections {
    map service | service in conns :: Lowered(conns[service], id)
  }

  predicate NonNegative(conns: Connections) {
    forall s | s in conns :: forall id | id in conns[s] :: 0 <= conns[s][id]
  }

  lemma StepsKeepNonNegative(conns: Connections, service: string, ids: seq<string>, id: string)
    requires NonNegative(conns)
    ensures NonNegative(Chosen(conns, service, ids, id)) && NonNegative(Released(conns, id))
    ensures forall i | 0 <= i < |ids| :: 0 <= Loads(conns, service, ids)[i]
  {
    forall x | x in Created(CountsOf(conns, service), ids)
      ensures 0 <= Created(CountsOf(conns, service), ids)[x]
    {
      CreatedContents(CountsOf(conns, service), ids, x);
    }
  }

  // ----- Sequential runs -----

  datatype Event = Choose(service: string, ids: seq<string>, i: nat) | Report(id: string)

  function After(conns: Connections, e: Event): Connections
    requires e.Choose? ==> e.i < |e.ids|
  {
    match e
    case Choose(service, ids, i) => Chosen(conns, service, ids, ids[i])
    case Report(id) => Released(conns, id)
  }

  predicate WellFormed(es: seq<Event>) {
    forall k | 0 <= k < |es| :: es[k].Choose? ==> es[k].i < |es[k].ids|
  }

  function Run(es: seq<Event>): Connections
    requires WellFormed(es)
  {
    if es == [] then map[] else After(Run(es[..|es| - 1]), es[|es| - 1])
  }

  /** Every choice takes the first candidate with the smallest load. */
  predicate ChoosesLeast(es: seq<Event>)
    requires WellFormed(es)
  {
    forall k | 0 <= k < |es| ::
      es[k].Choose? ==> FirstLeast(Loads(Run(es[..k]), es[k].service, es[k].ids), es[k].i)
  }

  /** Choices of `id` minus reports about it. */
  function InFlight(es: seq<Event>, id: string): int
    requires WellFormed(es)
  {
    if es == [] then 0
    else
      var e := es[|es| - 1];
      InFlight(es[..|es| - 1], id) +
      match e
      case Choose(_, ids, i) => if ids[i] == id then 1 else 0
      case Report(r) => if r == id then -1 else 0
  }

  predicate PairedAt(es: seq<Event>, home: map<string, string>, k: nat)
    requires WellFormed(es) && k < |es|
  {
    match es[k]
    case Choose(service, ids, _) => forall id | id in ids :: id in home && home[id] == service
    case Report(id) => id in home && 0 < InFlight(es[..k], id)
  }

  /** Each ID belongs to one service, and each report answers an earlier choice. */
  predicate Paired(es: seq<Event>, home: map<string, string>)
    requires WellFormed(es)
  {
    forall k | 0 <= k < |es| :: PairedAt(es, home, k)
  }

  predicate Counted(conns: Connections, service: string, id: string) {
    service in conns && id in conns[service]
  }

  lemma ChosenLoads(conns: Connections, service: string, ids: seq<string>, id: string, s: string, x: string)
    ensures Load(Chosen(conns, service, ids, id), s, x) ==
            Load(conns, s, x) + if s == service && x == id then 1 else 0
    ensures Counted(Chosen(conns, service, ids, id), s, x) <==>
            Counted(conns, s, x) || (s == service && (x in ids || x == id))
  {
    CreatedContents(CountsOf(conns, service), ids, x);
  }

  lemma ReleasedLoads(conns: Connections, id: string, s: string, x: string)
    ensures Load(Released(conns, id), s, x) ==
            Load(conns, s, x) - if x == id && 0 < Load(conns, s, x) then 1 else 0
    ensures Counted(Released(conns, id), s, x) <==> Counted(conns, s, x)
  {
  }

  lemma {:induction false} PairedBefore(es: seq<Event>, home: map<string, string>)
    requires es != [] && WellFormed(es) && Paired(es, home)
    ensures Paired(es[..|es| - 1], home)
  {
    var before := es[..|es| - 1];
    forall k | 0 <= k < |before|
      ensures PairedAt(before, home, k)
    {
      assert before[..k] == es[..k] && PairedAt(es, home, k);
    }
  }

  /** In paired runs each counter is exactly the number of its instance's requests in flight. */
  lemma {:induction false} CountersAreInFlight(es: seq<Event>, home: map<string, string>, s: string, x: string)
    requires WellFormed(es) && Paired(es, home)
    ensures Counted(Run(es), s, x) ==> x in home && home[x] == s
    ensures x in home && home[x] == s ==> Load(Run(es), s, x) == InFlight(es, x) && 0 <= InFlight(es, x)
  {
    if es != [] {
      var before, e := es[..|es| - 1], es[|es| - 1];
      PairedBefore(es, home);
      assert PairedAt(es, home, |before|);
      CountersAreInFlight(before, home, s, x);
      match e
      case Choose(service, ids, i) =>
        assert ids[i] in ids;
        ChosenLoads(Run(before), service, ids, ids[i], s, x);
      case Report(id) =>
        ReleasedLoads(Run(before), id, s, x);
    }
  }

  lemma StepKeepsSpread(conns: Connections, service: string, ids: seq<string>, e: Event, spread: nat)
    requires 1 <= spread && (e.Choose? ==> e.i < |e.ids|)
    requires e.Choose? && e.service == service ==> e.ids == ids && FirstLeast(Loads(conns, service, ids), e.i)
    requires forall i, j | 0 <= i < |ids| && 0 <= j < |ids| ::
               Load(conns, service, ids[i]) <= Load(conns, service, ids[j]) + spread
    ensures forall i, j | 0 <= i < |ids| && 0 <= j < |ids| ::
              Load(After(conns, e), service, ids[i]) <=
              Load(After(conns, e), service, ids[j]) + spread + if e.Report? then 1 else 0
  {
    forall j | 0 <= j < |ids|
      ensures e.Choose? ==> Load(After(conns, e), service, ids[j]) ==
                            Load(conns, service, ids[j]) + if service == e.service && ids[j] == e.ids[e.i] then 1 else 0
    {
      if e.Choose? {
        ChosenLoads(conns, e.service, e.ids, e.ids[e.i], service, ids[j]);
      }
    }
    if e.Choose? && e.service == service {
      var loads := Loads(conns, service, ids);
      forall j | 0 <= j < |ids|
        ensures Load(conns, service, ids[e.i]) <= Load(conns, service, ids[j])
      {
        assert loads[e.i] <= loads[j];
      }
    }
  }

  // ----- Any interleaving of the atomic steps -----

  /**
   Raising a counter is one atomic add outside the mutex. A report holds the mutex but reads a counter and lowers
   it in two atomic steps, between which other requests may raise it.
   */
  datatype Atomic = Raise(key: string) | ReadForReport(key: string) | LowerForReport

  datatype Shared = Shared(counters: map<string, int64>, reporting: Option<string>)

  function CounterOf(s: Shared, key: string): int64 {
    if key in s.counters then s.counters[key] else 0
  }

  predicate AtomicEnabled(s: Shared, a: Atomic) {
    match a
    case Raise(_) => true
    case ReadForReport(_) => s.reporting.None?
    case LowerForReport => s.reporting.Some?
  }

  function Previous(n: int64): int64 {
    if n == MIN_INT64 then MAX_INT64 else n - 1
  }

  function AtomicStep(s: Shared, a: Atomic): Shared {
    match a
    case Raise(key) => s.(counters := s.counters[key := Next(CounterOf(s, key))])
    case ReadForReport(key) => if 0 < CounterOf(s, key) then s.(reporting := Some(key)) else s
    case LowerForReport =>
      if s.reporting.None? then s
      else Shared(s.counters[s.reporting.value := Previous(CounterOf(s, s.reporting.value))], None)
  }

  function AtomicRun(steps: seq<Atomic>): Shared {
    if steps == [] then Shared(map[], None) else AtomicStep(AtomicRun(steps[..|steps| - 1]), steps[|steps| - 1])
  }

  predicate AtomicLegal(steps: seq<Atomic>) {
    forall k | 0 <= k < |steps| :: AtomicEnabled(AtomicRun(steps[..k]), steps[k])
  }

  function Raises(steps: seq<Atomic>): nat {
    if steps == [] then 0 else Raises(steps[..|steps| - 1]) + if steps[|steps| - 1].Raise? then 1 else 0
  }

  /** A counter is between zero and `n`, and above zero while a report is about to lower it. */
  predicate Grounded(s: Shared, key: string, n: nat) {
    && 0 <= CounterOf(s, key) <= n
    && (s.reporting == Some(key) ==> 1 <= CounterOf(s, key))
  }

  lemma StepKeepsGrounded(s: Shared, a: Atomic, key: string, n: nat, n': nat)
    requires AtomicEnabled(s, a) && Grounded(s, key, n) && n' == (if a.Raise? then n + 1 else n) <= MAX_INT64
    ensures Grounded(AtomicStep(s, a), key, n')
  {
  }

  lemma {:induction false} AtomicPrefix(steps: seq<Atomic>)
    requires AtomicLegal(steps) && steps != []
    ensures var before := steps[..|steps| - 1];
            AtomicLegal(before) && AtomicEnabled(AtomicRun(before), steps[|steps| - 1])
  {
    var before := steps[..|steps| - 1];
    forall k | 0 <= k < |before|
      ensures AtomicEnabled(AtomicRun(before[..k]), before[k])
    {
      assert before[..k] == steps[..k] && before[k] == steps[k];
    }
  }

  /** No interleaving drives a counter below zero, as long as the raises fit in 64 bits. */
  lemma {:induction false} NoCounterGoesNegative(steps: seq<Atomic>, key: string)
    requires AtomicLegal(steps) && Raises(steps) <= MAX_INT64
    ensures Grounded(AtomicRun(steps), key, Raises(steps))
  {
    if steps != [] {
      var before, last := steps[..|steps| - 1], steps[|steps| - 1];
      AtomicPrefix(steps);
      NoCounterGoesNegative(before, key);
      StepKeepsGrounded(AtomicRun(before), last, key, Raises(before), Raises(steps));
    }
  }
}
