/**
 Probe rounds as they really run: one goroutine per instance, interleaved in any order.

 A goroutine takes its steps one lock at a time: find or make the breaker, `Allow`, the breaker's `Record` call, read the
 previous status, write the cache, publish. The instances of a round have distinct IDs.
 */
module Rounds {
  import opened Common
  import opened Breakers
  import opened Health
  import BR = BreakerRuns

  /** How far the goroutine of one instance has come. */
  datatype Stage =
    | Fresh
    | Found
    | Probing
    | Decided(finding: Finding)
    | Known(finding: Finding, previous: HealthStatus)
    | Stored(finding: Finding, previous: HealthStatus)
    | Finished

  datatype Round = Round(monitor: Monitor, stages: map<string, Stage>)

  /** The instances of a round by ID. */
  type Jobs = map<string, Job>

  predicate WellKeyed(jobs: Jobs) {
    forall id | id in jobs :: jobs[id].target.serviceID == id
  }

  /** One atomic step of the goroutine of `id`; a finished goroutine stays as it is. */
  function Step(cfg: Config, jobs: Jobs, r: Round, id: string): Round
    requires id in jobs && id in r.stages
  {
    var job, m := jobs[id], r.monitor;
    match r.stages[id]
    case Fresh =>
      Round(if id in m.breakers then m else m.(breakers := m.breakers[id := FRESH]), r.stages[id := Found])
    case Found =>
      var b := ValueOf(m.breakers, id);
      Round(m.(breakers := m.breakers[id := AfterAllow(cfg, b, job.askedAt)]),
            r.stages[id := if Admits(cfg, b, job.askedAt) then Probing else Decided(CIRCUIT_OPEN)])
    case Probing =>
      var told := Told(cfg, ValueOf(m.breakers, id), job.probe.status == Healthy, job.recordedAt);
      Round(m.(breakers := m.breakers[id := told]), r.stages[id := Decided(job.probe)])
    case Decided(finding) =>
      Round(m, r.stages[id := Known(finding, Previous(Find(m.cache, id)))])
    case Known(finding, previous) =>
      Round(m.(cache := m.cache[id := MonitoredInstance(job.target, finding, job.storedAt)]), r.stages[id := Stored(finding, previous)])
    case Stored(finding, previous) =>
      Round(m.(events := m.events + News(job.target, previous, finding)), r.stages[id := Finished])
    case Finished => r
  }

  function Begin(m: Monitor, jobs: Jobs): Round {
    Round(m, map id | id in jobs :: Fresh)
  }

  predicate Schedule(jobs: Jobs, order: seq<string>) {
    forall i | 0 <= i < |order| :: order[i] in jobs
  }

  /** The round after the goroutines took steps in the given order. */
  function Run(cfg: Config, jobs: Jobs, m: Monitor, order: seq<string>): (r: Round)
    requires Schedule(jobs, order)
    ensures r.stages.Keys == jobs.Keys
  {
    if order == [] then Begin(m, jobs)
    else Step(cfg, jobs, Run(cfg, jobs, m, order[..|order| - 1]), order[|order| - 1])
  }

  predicate Complete(r: Round) {
    forall id | id in r.stages :: r.stages[id].Finished?
  }

  function EventsOf(events: seq<HealthChanged>, id: string): seq<HealthChanged> {
    if events == [] then []
    else EventsOf(events[..|events| - 1], id) + if events[|events| - 1].serviceID == id then [events[|events| - 1]] else []
  }

  lemma {:induction false} EventsOfAppend(events: seq<HealthChanged>, more: seq<HealthChanged>, id: string)
    ensures EventsOf(events + more, id) == EventsOf(events, id) + EventsOf(more, id)
  {
    if more == [] {
      assert events + more == events;
    } else {
      EventsOfAppend(events, more[..|more| - 1], id);
      assert (events + more)[..|events + more| - 1] == events + more[..|more| - 1];
    }
  }

  lemma {:induction false} NewsOf(target: Target, previous: HealthStatus, finding: Finding, id: string)
    ensures EventsOf(News(target, previous, finding), id) ==
            if target.serviceID == id then News(target, previous, finding) else []
  {
    var news := News(target, previous, finding);
    if news != [] {
      assert news[..0] == [];
    }
  }

  // ----- Schedule independence -----

  /** Everything a round touches that belongs to one ID. */
  datatype Share = Share(breaker: Option<Breaker>, cached: Option<MonitoredInstance>, events: seq<HealthChanged>)

  function ShareOf(m: Monitor, id: string): Share {
    Share(Find(m.breakers, id), Find(m.cache, id), EventsOf(m.events, id))
  }

  /** The share after the whole probe. */
  function Result(cfg: Config, job: Job, s: Share): Share {
    var effect := Probed(cfg, job, s.breaker, s.cached);
    Share(Some(effect.breaker), Some(effect.entry), s.events + effect.news)
  }

  /** Where the share of `job` stands at each stage, counted from the share `s` at the start of the round. */
  ghost predicate OnTheWay(cfg: Config, job: Job, s: Share, now: Share, stage: Stage) {
    var b := if s.breaker.Some? then s.breaker.value else FRESH;
    var effect := Probed(cfg, job, s.breaker, s.cached);
    match stage
    case Fresh => now == s
    case Found => now == s.(breaker := Some(b))
    case Probing => Admits(cfg, b, job.askedAt) && now == s.(breaker := Some(AfterAllow(cfg, b, job.askedAt)))
    case Decided(f) => f == effect.finding && now == s.(breaker := Some(effect.breaker))
    case Known(f, p) => f == effect.finding && p == Previous(s.cached) && now == s.(breaker := Some(effect.breaker))
    case Stored(f, p) =>
      f == effect.finding && p == Previous(s.cached) && now == s.(breaker := Some(effect.breaker), cached := Some(effect.entry))
    case Finished => now == Result(cfg, job, s)
  }

  lemma {:induction false} OwnStep(cfg: Config, jobs: Jobs, r: Round, id: string, s: Share)
    requires id in jobs && id in r.stages && WellKeyed(jobs)
    requires OnTheWay(cfg, jobs[id], s, ShareOf(r.monitor, id), r.stages[id])
    ensures OnTheWay(cfg, jobs[id], s, ShareOf(Step(cfg, jobs, r, id).monitor, id), Step(cfg, jobs, r, id).stages[id])
  {
    if r.stages[id].Stored? {
      var finding, previous := r.stages[id].finding, r.stages[id].previous;
      EventsOfAppend(r.monitor.events, News(jobs[id].target, previous, finding), id);
      NewsOf(jobs[id].target, previous, finding, id);
    }
  }

  lemma {:induction false} OthersStep(cfg: Config, jobs: Jobs, r: Round, other: string, id: string)
    requires other in jobs && other in r.stages && WellKeyed(jobs) && other != id
    ensures ShareOf(Step(cfg, jobs, r, other).monitor, id) == ShareOf(r.monitor, id)
    ensures Find(Step(cfg, jobs, r, other).stages, id) == Find(r.stages, id)
  {
    if r.stages[other].Stored? {
      var finding, previous := r.stages[other].finding, r.stages[other].previous;
      EventsOfAppend(r.monitor.events, News(jobs[other].target, previous, finding), id);
      NewsOf(jobs[other].target, previous, finding, id);
    }
  }

  lemma {:induction false} SharesOnTheWay(cfg: Config, jobs: Jobs, m: Monitor, order: seq<string>, id: string)
    requires WellKeyed(jobs) && Schedule(jobs, order)
    ensures var r := Run(cfg, jobs, m, order);
            if id in jobs then OnTheWay(cfg, jobs[id], ShareOf(m, id), ShareOf(r.monitor, id), r.stages[id])
            else ShareOf(r.monitor, id) == ShareOf(m, id)
  {
    if order != [] {
      var before, mover := order[..|order| - 1], order[|order| - 1];
      SharesOnTheWay(cfg, jobs, m, before, id);
      var r := Run(cfg, jobs, m, before);
      if mover == id {
        OwnStep(cfg, jobs, r, id, ShareOf(m, id));
      } else {
        OthersStep(cfg, jobs, r, mover, id);
      }
    }
  }

  /**
   Schedule independence: when all goroutines of a round are done, each ID's breaker, cache entry and own events are
   those of probing that instance alone, and IDs outside the round are untouched, whatever the interleaving was.
   */
  lemma {:induction false} ScheduleDoesNotMatter(cfg: Config, jobs: Jobs, m: Monitor, order: seq<string>, id: string)
    requires WellKeyed(jobs) && Schedule(jobs, order) && Complete(Run(cfg, jobs, m, order))
    ensures ShareOf(Run(cfg, jobs, m, order).monitor, id) ==
            if id in jobs then Result(cfg, jobs[id], ShareOf(m, id)) else ShareOf(m, id)
  {
    SharesOnTheWay(cfg, jobs, m, order, id);
  }

  lemma SharesDecide(a: Monitor, b: Monitor)
    requires forall id :: ShareOf(a, id) == ShareOf(b, id)
    ensures a.breakers == b.breakers && a.cache == b.cache
    ensures forall id :: EventsOf(a.events, id) == EventsOf(b.events, id)
  {
    forall id
      ensures Find(a.breakers, id) == Find(b.breakers, id) && Find(a.cache, id) == Find(b.cache, id)
      ensures EventsOf(a.events, id) == EventsOf(b.events, id)
    {
      assert ShareOf(a, id) == ShareOf(b, id);
    }
    assert forall id :: id in a.breakers <==> Find(a.breakers, id).Some?;
    assert forall id :: id in b.breakers <==> Find(b.breakers, id).Some?;
    assert forall id :: id in a.cache <==> Find(a.cache, id).Some?;
    assert forall id :: id in b.cache <==> Find(b.cache, id).Some?;
  }

  /** Two complete interleavings of one round leave the same breakers, the same cache and the same events per ID. */
  lemma {:induction false} SchedulesAgree(cfg: Config, jobs: Jobs, m: Monitor, one: seq<string>, two: seq<string>)
    requires WellKeyed(jobs) && Schedule(jobs, one) && Schedule(jobs, two)
    requires Complete(Run(cfg, jobs, m, one)) && Complete(Run(cfg, jobs, m, two))
    ensures var a, b := Run(cfg, jobs, m, one).monitor, Run(cfg, jobs, m, two).monitor;
            && a.breakers == b.breakers && a.cache == b.cache
            && forall id :: EventsOf(a.events, id) == EventsOf(b.events, id)
  {
    var a, b := Run(cfg, jobs, m, one).monitor, Run(cfg, jobs, m, two).monitor;
    forall id
      ensures ShareOf(a, id) == ShareOf(b, id)
    {
      ScheduleDoesNotMatter(cfg, jobs, m, one, id);
      ScheduleDoesNotMatter(cfg, jobs, m, two, id);
    }
    SharesDecide(a, b);
  }

  lemma {:induction false} ProbedOnShare(cfg: Config, m: Monitor, job: Job, id: string)
    ensures ShareOf(ProbedOn(cfg, m, job), id) ==
            if job.target.serviceID == id then Result(cfg, job, ShareOf(m, id)) else ShareOf(m, id)
  {
    var at := job.target.serviceID;
    var effect := Probed(cfg, job, Find(m.breakers, at), Find(m.cache, at));
    EventsOfAppend(m.events, effect.news, id);
    NewsOf(job.target, Previous(Find(m.cache, at)), effect.finding, id);
  }

  predicate DistinctTargets(list: seq<Job>) {
    forall i, j | 0 <= i < j < |list| :: list[i].target.serviceID != list[j].target.serviceID
  }

  lemma {:induction false} UnlistedShare(cfg: Config, m: Monitor, list: seq<Job>, id: string)
    requires forall i | 0 <= i < |list| :: list[i].target.serviceID != id
    ensures ShareOf(ProbedAll(cfg, m, list), id) == ShareOf(m, id)
  {
    if list != [] {
      UnlistedShare(cfg, m, list[..|list| - 1], id);
      ProbedOnShare(cfg, ProbedAll(cfg, m, list[..|list| - 1]), list[|list| - 1], id);
    }
  }

  lemma {:induction false} ListedShare(cfg: Config, m: Monitor, list: seq<Job>, i: nat)
    requires DistinctTargets(list) && i < |list|
    ensures var id := list[i].target.serviceID;
            ShareOf(ProbedAll(cfg, m, list), id) == Result(cfg, list[i], ShareOf(m, id))
  {
    var n, id := |list| - 1, list[i].target.serviceID;
    ProbedOnShare(cfg, ProbedAll(cfg, m, list[..n]), list[n], id);
    if i == n {
      UnlistedShare(cfg, m, list[..n], id);
    } else {
      ListedShare(cfg, m, list[..n], i);
    }
  }

  /** The jobs of a list of instances with distinct IDs. */
  predicate Covers(jobs: Jobs, list: seq<Job>) {
    && (forall i | 0 <= i < |list| :: list[i].target.serviceID in jobs && jobs[list[i].target.serviceID] == list[i])
    && (forall id | id in jobs :: jobs[id] in list && jobs[id].target.serviceID == id)
  }

  /** Every complete interleaving leaves what probing the instances one by one leaves, in whatever order they are listed. */
  lemma {:induction false} InterleavingIsSequential(cfg: Config, jobs: Jobs, m: Monitor, order: seq<string>, list: seq<Job>)
    requires DistinctTargets(list) && Covers(jobs, list)
    requires Schedule(jobs, order) && Complete(Run(cfg, jobs, m, order))
    ensures var a, b := Run(cfg, jobs, m, order).monitor, ProbedAll(cfg, m, list);
            && a.breakers == b.breakers && a.cache == b.cache
            && forall id :: EventsOf(a.events, id) == EventsOf(b.events, id)
  {
    var a, b := Run(cfg, jobs, m, order).monitor, ProbedAll(cfg, m, list);
    forall id
      ensures ShareOf(a, id) == ShareOf(b, id)
    {
      ScheduleDoesNotMatter(cfg, jobs, m, order, id);
      if id in jobs {
        var i :| 0 <= i < |list| && list[i] == jobs[id];
        ListedShare(cfg, m, list, i);
      } else {
        UnlistedShare(cfg, m, list, id);
      }
    }
    SharesDecide(a, b);
  }

  // ----- Many rounds -----

  /**
   The services could not be listed, or they were, each with its instances unless those could not be listed, and the
   goroutines of all instances ran in this order.
   */
  datatype Tick = Unlisted | Probe(services: seq<Option<seq<Job>>>, order: seq<string>)

  function ByID(list: seq<Job>): Jobs {
    if list == [] then map[] else ByID(list[..|list| - 1])[list[|list| - 1].target.serviceID := list[|list| - 1]]
  }

  lemma {:induction false} ByIDContents(list: seq<Job>)
    ensures WellKeyed(ByID(list)) && ByID(list).Keys == LiveIDs(list)
    ensures forall id | id in ByID(list) :: ByID(list)[id] in list
  {
    if list != [] {
      var before, last := list[..|list| - 1], list[|list| - 1];
      ByIDContents(before);
      assert list == before + [last];
      assert LiveIDs(list) == LiveIDs(before) + {last.target.serviceID};
    }
  }

  function JobsIn(tick: Tick): Jobs {
    if tick.Unlisted? then map[] else ByID(Listed(tick.services))
  }

  ghost predicate RoundTaken(cfg: Config, m: Monitor, tick: Tick, m': Monitor) {
    match tick
    case Unlisted => m' == m
    case Probe(services, order) =>
      var jobs := JobsIn(tick);
      && DistinctTargets(Listed(services)) && Schedule(jobs, order) && Complete(Run(cfg, jobs, m, order))
      && m' == Run(cfg, jobs, m, order).monitor.(cache := Kept(Run(cfg, jobs, m, order).monitor.cache, jobs.Keys))
  }

  datatype History = History(ticks: seq<Tick>, monitors: seq<Monitor>)

  ghost predicate Legal(cfg: Config, h: History) {
    && |h.monitors| == |h.ticks| + 1
    && h.monitors[0] == Monitor(map[], map[], [])
    && forall k | 0 <= k < |h.ticks| :: RoundTaken(cfg, h.monitors[k], h.ticks[k], h.monitors[k + 1])
  }

  /** The share of an ID after a round: unchanged, probed, or without its cache entry. */
  function ShareAfter(cfg: Config, tick: Tick, id: string, s: Share): Share {
    if tick.Unlisted? then s
    else if id in JobsIn(tick) then Result(cfg, JobsIn(tick)[id], s)
    else s.(cached := None)
  }

  /** What one round does to one ID's share. */
  lemma {:induction false} RoundShare(cfg: Config, m: Monitor, tick: Tick, m': Monitor, id: string)
    requires RoundTaken(cfg, m, tick, m')
    ensures ShareOf(m', id) == ShareAfter(cfg, tick, id, ShareOf(m, id))
  {
    if tick.Probe? {
      ByIDContents(Listed(tick.services));
      ScheduleDoesNotMatter(cfg, JobsIn(tick), m, tick.order, id);
    }
  }

  lemma {:induction false} HistoryShare(cfg: Config, h: History, k: nat, id: string)
    requires Legal(cfg, h) && k < |h.ticks|
    ensures ShareOf(h.monitors[k + 1], id) == ShareAfter(cfg, h.ticks[k], id, ShareOf(h.monitors[k], id))
  {
    assert RoundTaken(cfg, h.monitors[k], h.ticks[k], h.monitors[k + 1]);
    RoundShare(cfg, h.monitors[k], h.ticks[k], h.monitors[k + 1], id);
  }

  lemma {:induction false} ListedIDs(services: seq<Option<seq<Job>>>, id: string)
    ensures id in LiveIDs(Listed(services)) <==>
            exists s :: 0 <= s < |services| && services[s].Some? && id in LiveIDs(services[s].value)
  {
    if services != [] {
      var n := |services| - 1;
      ListedIDs(services[..n], id);
      assert forall s | 0 <= s < n :: services[..n][s] == services[s];
      var last := if services[n].Some? then services[n].value else [];
      LiveIDsAppend(Listed(services[..n]), last);
    }
  }

  /** After a round that was listed, the cache holds exactly the IDs of the services whose instances were listed. */
  lemma {:induction false} CacheHoldsListedIDs(cfg: Config, m: Monitor, tick: Tick, m': Monitor, id: string)
    requires RoundTaken(cfg, m, tick, m') && tick.Probe?
    ensures id in m'.cache <==>
            exists s :: 0 <= s < |tick.services| && tick.services[s].Some? && id in LiveIDs(tick.services[s].value)
  {
    RoundShare(cfg, m, tick, m', id);
    assert Find(m'.cache, id).Some? <==> id in m'.cache;
    ByIDContents(Listed(tick.services));
    ListedIDs(tick.services, id);
  }

  lemma {:induction false} DistinctParts(a: seq<Job>, b: seq<Job>, id: string)
    requires DistinctTargets(a + b) && id in LiveIDs(a)
    ensures id !in LiveIDs(b) && DistinctTargets(a)
  {
    assert forall i | 0 <= i < |a| :: (a + b)[i] == a[i];
    assert forall j | 0 <= j < |b| :: (a + b)[|a| + j] == b[j];
  }

  lemma {:induction false} ListedDistinctly(services: seq<Option<seq<Job>>>, s: nat, t: nat, id: string)
    requires DistinctTargets(Listed(services)) && s < t < |services| && services[s].Some? && services[t].Some?
    requires id in LiveIDs(services[s].value)
    ensures id !in LiveIDs(services[t].value)
  {
    var n := |services| - 1;
    assert services[..n][s] == services[s];
    ListedIDs(services[..n], id);
    DistinctParts(Listed(services[..n]), if services[n].Some? then services[n].value else [], id);
    if t < n {
      ListedDistinctly(services[..n], s, t, id);
    }
  }

  /**
   A failed listing evicts: had the instances of service `s` been listed, `id` among them would have kept its cache entry;
   with everything else the same, it has none after a round in which they could not be listed.
   */
  lemma {:induction false} FailedListingEvicts(
    cfg: Config, m: Monitor, services: seq<Option<seq<Job>>>, s: nat, order: seq<string>, m': Monitor, id: string)
    requires DistinctTargets(Listed(services)) && s < |services| && services[s].Some? && id in LiveIDs(services[s].value)
    requires RoundTaken(cfg, m, Probe(services[s := None], order), m')
    ensures id !in m'.cache
  {
    var failed := services[s := None];
    CacheHoldsListedIDs(cfg, m, Probe(failed, order), m', id);
    forall t | 0 <= t < |failed| && failed[t].Some?
      ensures id !in LiveIDs(failed[t].value)
    {
      if s < t {
        ListedDistinctly(services, s, t, id);
      } else if id in LiveIDs(services[t].value) {
        ListedDistinctly(services, t, s, id);
      }
    }
  }

  /**
   What a round finds out about an ID it lists: what its probe found if the ID's breaker let the probe through, and
   that it is unhealthy if not.
   */
  lemma {:induction false} RoundFindings(cfg: Config, h: History, k: nat, id: string)
    requires Legal(cfg, h) && k < |h.ticks| && id in JobsIn(h.ticks[k])
    ensures id in h.monitors[k + 1].cache
    ensures var job, b, entry := JobsIn(h.ticks[k])[id], ValueOf(h.monitors[k].breakers, id), h.monitors[k + 1].cache[id];
            && entry.target == job.target && entry.lastProbe == job.storedAt
            && if Admits(cfg, b, job.askedAt) then entry.finding == job.probe
               else entry.finding.status == Unhealthy && entry.finding.probeType == "circuit-breaker"
  {
    HistoryShare(cfg, h, k, id);
    assert ShareOf(h.monitors[k + 1], id).cached.Some? <==> id in h.monitors[k + 1].cache;
    assert ShareOf(h.monitors[k], id).breaker.Some? <==> id in h.monitors[k].breakers;
  }

  /** While the break of its breaker is running, an ID that is listed is cached as unhealthy, whatever a probe would find. */
  lemma {:induction false} OpenMeansUnhealthy(cfg: Config, h: History, k: nat, id: string)
    requires Legal(cfg, h) && k < |h.ticks| && id in JobsIn(h.ticks[k])
    requires var b := ValueOf(h.monitors[k].breakers, id);
             b.state.Open? && !Elapsed(cfg, b, JobsIn(h.ticks[k])[id].askedAt)
    ensures id in h.monitors[k + 1].cache && h.monitors[k + 1].cache[id].finding.status == Unhealthy
  {
    RoundFindings(cfg, h, k, id);
  }

  /** The event of a change from `previous` to what is cached now, if `previous` was known and is another status. */
  function ChangeTo(id: string, previous: HealthStatus, entry: MonitoredInstance): seq<HealthChanged> {
    if previous == Unknown || previous == entry.finding.status then []
    else [HealthChanged(id, entry.target.serviceName, previous, entry.finding.status, entry.finding.message)]
  }

  /** A round publishes about an ID exactly the change of its cached status, if it lists the ID. */
  lemma {:induction false} RoundEvents(cfg: Config, h: History, k: nat, id: string)
    requires Legal(cfg, h) && k < |h.ticks|
    ensures id in JobsIn(h.ticks[k]) ==> id in h.monitors[k + 1].cache
    ensures EventsOf(h.monitors[k + 1].events, id) ==
            EventsOf(h.monitors[k].events, id) +
            if id in JobsIn(h.ticks[k]) then ChangeTo(id, Previous(Find(h.monitors[k].cache, id)), h.monitors[k + 1].cache[id]) else []
  {
    HistoryShare(cfg, h, k, id);
    assert ShareOf(h.monitors[k + 1], id).cached.Some? <==> id in h.monitors[k + 1].cache;
    var events := EventsOf(h.monitors[k].events, id);
    assert events + [] == events;
    if h.ticks[k].Probe? {
      ByIDContents(Listed(h.ticks[k].services));
    }
  }

  /** No round announces that an ID has become healthy unless a probe that its breaker let through found so. */
  lemma {:induction false} HealthyNewsIsProbed(cfg: Config, h: History, k: nat, id: string, e: HealthChanged)
    requires Legal(cfg, h) && k < |h.ticks| && e.current == Healthy
    requires EventsOf(h.monitors[k + 1].events, id) == EventsOf(h.monitors[k].events, id) + [e]
    ensures id in JobsIn(h.ticks[k])
    ensures var job := JobsIn(h.ticks[k])[id];
            job.probe.status == Healthy && Admits(cfg, ValueOf(h.monitors[k].breakers, id), job.askedAt)
  {
    RoundEvents(cfg, h, k, id);
    var n := |EventsOf(h.monitors[k].events, id)|;
    assert EventsOf(h.monitors[k + 1].events, id)[n] == e;
    if id in JobsIn(h.ticks[k]) {
      RoundFindings(cfg, h, k, id);
    }
  }

  /** Every event leaves a known status for a different one. */
  lemma {:induction false} EventsAreChanges(cfg: Config, h: History, k: nat, id: string)
    requires Legal(cfg, h) && k <= |h.ticks|
    ensures forall e | e in EventsOf(h.monitors[k].events, id) :: e.previous != Unknown && e.previous != e.current
  {
    if k != 0 {
      EventsAreChanges(cfg, h, k - 1, id);
      RoundEvents(cfg, h, k - 1, id);
    }
  }

  predicate KnownIn(m: Monitor, id: string) {
    Previous(Find(m.cache, id)) != Unknown
  }

  lemma QuietShare(cfg: Config, tick: Tick, s: Share, s': Share, id: string)
    requires s' == ShareAfter(cfg, tick, id, s)
    requires Previous(s.cached) != Unknown && Previous(s'.cached) != Unknown && s.events == s'.events
    ensures Previous(s'.cached) == Previous(s.cached)
  {
    if id in JobsIn(tick) {
      var effect := Probed(cfg, JobsIn(tick)[id], s.breaker, s.cached);
      assert s.events == s.events + effect.news ==> effect.news == [];
    }
  }

  /** Without an event and without a gap, the cached status of an ID does not change. */
  lemma {:induction false} QuietKeepsStatus(cfg: Config, h: History, i: nat, j: nat, id: string)
    requires Legal(cfg, h) && i <= j <= |h.ticks|
    requires forall k | i <= k <= j :: KnownIn(h.monitors[k], id)
    requires forall k | i <= k <= j :: EventsOf(h.monitors[k].events, id) == EventsOf(h.monitors[i].events, id)
    ensures Previous(Find(h.monitors[j].cache, id)) == Previous(Find(h.monitors[i].cache, id))
  {
    if i < j {
      QuietKeepsStatus(cfg, h, i, j - 1, id);
      assert KnownIn(h.monitors[j - 1], id) && KnownIn(h.monitors[j], id);
      assert EventsOf(h.monitors[j - 1].events, id) == EventsOf(h.monitors[j].events, id);
      HistoryShare(cfg, h, j - 1, id);
      QuietShare(cfg, h.ticks[j - 1], ShareOf(h.monitors[j - 1], id), ShareOf(h.monitors[j], id), id);
    }
  }

  lemma EventOfRound(cfg: Config, tick: Tick, s: Share, s': Share, id: string, e: HealthChanged)
    requires s' == ShareAfter(cfg, tick, id, s) && s'.events == s.events + [e]
    ensures e.previous == Previous(s.cached) && e.current == Previous(s'.cached)
  {
    assert |s'.events| == |s.events| + 1;
    if id in JobsIn(tick) {
      var effect := Probed(cfg, JobsIn(tick)[id], s.breaker, s.cached);
      assert s'.events[|s.events|..] == effect.news && s'.events[|s.events|..] == [e];
    }
  }

  /**
   Consecutive events of an ID join up: if round `i` and round `j` both publish about it and no round between them does,
   the later event starts where the earlier one ended, unless the ID was uncached or of unknown status in between.
   */
  lemma {:induction false} EventsJoinUp(cfg: Config, h: History, i: nat, j: nat, id: string, first: HealthChanged, second: HealthChanged)
    requires Legal(cfg, h) && i < j < |h.ticks|
    requires EventsOf(h.monitors[i + 1].events, id) == EventsOf(h.monitors[i].events, id) + [first]
    requires EventsOf(h.monitors[j + 1].events, id) == EventsOf(h.monitors[j].events, id) + [second]
    requires forall k | i + 1 <= k <= j :: EventsOf(h.monitors[k].events, id) == EventsOf(h.monitors[i + 1].events, id)
    requires forall k | i + 1 <= k <= j :: KnownIn(h.monitors[k], id)
    ensures second.previous == first.current
  {
    HistoryShare(cfg, h, i, id);
    HistoryShare(cfg, h, j, id);
    EventOfRound(cfg, h.ticks[i], ShareOf(h.monitors[i], id), ShareOf(h.monitors[i + 1], id), id, first);
    EventOfRound(cfg, h.ticks[j], ShareOf(h.monitors[j], id), ShareOf(h.monitors[j + 1], id), id, second);
    QuietKeepsStatus(cfg, h, i + 1, j, id);
  }

  // ----- The worker's breakers -----

  /** What a round tells the breaker `b` of an ID: nothing if the ID is not listed or `b` refuses. */
  function Telling(cfg: Config, tick: Tick, id: string, b: Breaker): seq<BR.Outcome> {
    if id in JobsIn(tick) && Admits(cfg, b, JobsIn(tick)[id].askedAt) then
      [if JobsIn(tick)[id].probe.status == Healthy then BR.Good else BR.Bad]
    else []
  }

  /** The outcomes of an ID's probes in the first `k` rounds. */
  function Outcomes(cfg: Config, h: History, k: nat, id: string): seq<BR.Outcome>
    requires k <= |h.ticks| < |h.monitors|
  {
    if k == 0 then []
    else Outcomes(cfg, h, k - 1, id) + Telling(cfg, h.ticks[k - 1], id, ValueOf(h.monitors[k - 1].breakers, id))
  }

  /** The last reading of the clock for an ID in the first `k` rounds, or `t0`. */
  function LastReading(h: History, k: nat, id: string, t0: Time): Time
    requires k <= |h.ticks|
  {
    if k == 0 then t0
    else if id in JobsIn(h.ticks[k - 1]) then JobsIn(h.ticks[k - 1])[id].recordedAt
    else LastReading(h, k - 1, id, t0)
  }

  /** From `t0` on, the clock does not go back between the readings made for one ID. */
  ghost predicate InOrder(h: History, id: string, t0: Time) {
    forall k | 0 <= k < |h.ticks| && id in JobsIn(h.ticks[k]) ::
      LastReading(h, k, id, t0) <= JobsIn(h.ticks[k])[id].askedAt <= JobsIn(h.ticks[k])[id].recordedAt
  }

  /** One probe of an idle breaker is one request of its run. */
  lemma {:induction false} ProbeIsRequest(
    cfg: Config, job: Job, t0: Time, b: Breaker, log: seq<BR.Outcome>, last: Time, log': seq<BR.Outcome>)
    requires BR.HasRun(cfg, t0, b, log, last) && last <= job.askedAt <= job.recordedAt
    requires log' == log + if Admits(cfg, b, job.askedAt) then [if job.probe.status == Healthy then BR.Good else BR.Bad] else []
    ensures BR.HasRun(cfg, t0, BreakerAfter(cfg, job, b), log', job.recordedAt)
  {
    BR.RequestExtendsRun(cfg, t0, b, log, last, job.askedAt, job.probe.status == Healthy, job.recordedAt);
    if !Admits(cfg, b, job.askedAt) {
      assert log' == log;
      BR.HasRunLater(cfg, t0, BreakerAfter(cfg, job, b), log, job.askedAt, job.recordedAt);
    }
  }

  lemma {:induction false} BreakerAfterRound(cfg: Config, h: History, k: nat, id: string)
    requires Legal(cfg, h) && k < |h.ticks|
    ensures var b := ValueOf(h.monitors[k].breakers, id);
            ValueOf(h.monitors[k + 1].breakers, id) ==
            if id in JobsIn(h.ticks[k]) then BreakerAfter(cfg, JobsIn(h.ticks[k])[id], b) else b
  {
    HistoryShare(cfg, h, k, id);
    assert ShareOf(h.monitors[k], id).breaker.Some? <==> id in h.monitors[k].breakers;
    assert ShareOf(h.monitors[k + 1], id).breaker.Some? <==> id in h.monitors[k + 1].breakers;
  }

  lemma {:induction false} RoundExtendsRun(cfg: Config, h: History, k: nat, id: string, t0: Time)
    requires Legal(cfg, h) && k < |h.ticks| && InOrder(h, id, t0)
    requires BR.HasRun(cfg, t0, ValueOf(h.monitors[k].breakers, id), Outcomes(cfg, h, k, id), LastReading(h, k, id, t0))
    ensures BR.HasRun(cfg, t0, ValueOf(h.monitors[k + 1].breakers, id), Outcomes(cfg, h, k + 1, id), LastReading(h, k + 1, id, t0))
  {
    BreakerAfterRound(cfg, h, k, id);
    var jobs, b, log := JobsIn(h.ticks[k]), ValueOf(h.monitors[k].breakers, id), Outcomes(cfg, h, k, id);
    if id in jobs {
      ProbeIsRequest(cfg, jobs[id], t0, b, log, LastReading(h, k, id, t0), Outcomes(cfg, h, k + 1, id));
    } else {
      assert Outcomes(cfg, h, k + 1, id) == log;
    }
  }

  /**
   Whatever the rounds and the schedules, the worker's breaker of an ID has gone through a legal run with one request at
   a time, whose outcomes are those of the ID's own probes.
   */
  lemma {:induction false} WorkerBreakersRunAlone(cfg: Config, h: History, k: nat, id: string, t0: Time)
    requires Legal(cfg, h) && k <= |h.ticks| && InOrder(h, id, t0)
    ensures BR.HasRun(cfg, t0, ValueOf(h.monitors[k].breakers, id), Outcomes(cfg, h, k, id), LastReading(h, k, id, t0))
  {
    if k == 0 {
      BR.FreshHasRun(cfg, t0);
    } else {
      WorkerBreakersRunAlone(cfg, h, k - 1, id, t0);
      RoundExtendsRun(cfg, h, k - 1, id, t0);
    }
  }

  /** Hence the worker's breakers always do what is documented, whatever their recovery threshold. */
  lemma {:induction false} WorkerBreakersAreDocumented(cfg: Config, h: History, k: nat, id: string, t0: Time)
    requires Legal(cfg, h) && k <= |h.ticks| && InOrder(h, id, t0)
    ensures exists run ::
              && BR.EndsAt(cfg, run, t0, ValueOf(h.monitors[k].breakers, id), Outcomes(cfg, h, k, id), LastReading(h, k, id, t0))
              && BR.AllDocumented(cfg, run)
  {
    WorkerBreakersRunAlone(cfg, h, k, id, t0);
    var run :| BR.EndsAt(cfg, run, t0, ValueOf(h.monitors[k].breakers, id), Outcomes(cfg, h, k, id), LastReading(h, k, id, t0));
    BR.SequentialRunsAreDocumented(cfg, run);
  }

  /** The outcomes of an ID's probes decide whether its breaker is closed, and no slot is lost between rounds. */
  lemma {:induction false} WorkerBreakersFollowLog(cfg: Config, h: History, k: nat, id: string, t0: Time)
    requires Legal(cfg, h) && k <= |h.ticks| && InOrder(h, id, t0)
    ensures var b, log := ValueOf(h.monitors[k].breakers, id), Outcomes(cfg, h, k, id);
            && (b.state.Closed? <==> !BR.TrippedByLog(cfg, log))
            && b.failureCount == BR.TrailingFailures(log)
            && !b.halfOpenUsed
  {
    WorkerBreakersRunAlone(cfg, h, k, id, t0);
    BR.LoneRunFollowsLog(cfg, t0, ValueOf(h.monitors[k].breakers, id), Outcomes(cfg, h, k, id), LastReading(h, k, id, t0));
  }

  /** An instance that keeps failing is probed the threshold's number of times, then at most once for each break that has passed. */
  lemma {:induction false} FailingInstanceBound(cfg: Config, h: History, k: nat, id: string, t0: Time)
    requires Legal(cfg, h) && k <= |h.ticks| && InOrder(h, id, t0)
    requires forall i | 0 <= i < |Outcomes(cfg, h, k, id)| :: Outcomes(cfg, h, k, id)[i].Bad?
    ensures var n := |Outcomes(cfg, h, k, id)|;
            n <= TripCount(cfg) || (n - TripCount(cfg)) * cfg.breakDuration <= LastReading(h, k, id, t0) - t0
  {
    WorkerBreakersRunAlone(cfg, h, k, id, t0);
    BR.LoneRunBound(cfg, t0, ValueOf(h.monitors[k].breakers, id), Outcomes(cfg, h, k, id), LastReading(h, k, id, t0));
  }
}
