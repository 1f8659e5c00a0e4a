/** The health cache and the probe worker of internal/healthmonitor, with network probes as inputs. */
module Health {
  import opened Common
  import opened Breakers

  /** A registered instance as the registry lists it. */
  datatype Target = Target(serviceID: string, serviceName: string, address: string, port: int, metadata: map<string, string>)

  datatype Finding = Finding(status: HealthStatus, probeType: string, message: string)

  const CIRCUIT_OPEN := Finding(Unhealthy, "circuit-breaker", "Circuit open due to repeated failures")

  /** One instance to probe, with what its probe would find and the clock readings of its own calls. */
  datatype Job = Job(target: Target, askedAt: Time, probe: Finding, recordedAt: Time, storedAt: Time)

  datatype MonitoredInstance = MonitoredInstance(target: Target, finding: Finding, lastProbe: Time)

  datatype HealthChanged = HealthChanged(serviceID: string, serviceName: string, previous: HealthStatus, current: HealthStatus, output: string)

  type CacheMap = map<string, MonitoredInstance>

  /** Every entry is filed under its own ID. */
  predicate Keyed(m: CacheMap) {
    forall id | id in m :: m[id].target.serviceID == id
  }

  function Previous(cached: Option<MonitoredInstance>): HealthStatus {
    if cached.Some? then cached.value.finding.status else Unknown
  }

  // ----- The effect of probing one instance -----

  datatype Effect = Effect(finding: Finding, breaker: Breaker, entry: MonitoredInstance, news: seq<HealthChanged>)

  /** The event for a finding, if it changes a status that was known. */
  function News(target: Target, previous: HealthStatus, finding: Finding): seq<HealthChanged> {
    if previous != finding.status && previous != Unknown then
      [HealthChanged(target.serviceID, target.serviceName, previous, finding.status, finding.message)]
    else []
  }

  /** A probe finds what it finds, unless the breaker does not let it through. */
  function FindingOf(cfg: Config, job: Job, b: Breaker): Finding {
    if Admits(cfg, b, job.askedAt) then job.probe else CIRCUIT_OPEN
  }

  function BreakerAfter(cfg: Config, job: Job, b: Breaker): Breaker {
    var asked := AfterAllow(cfg, b, job.askedAt);
    if Admits(cfg, b, job.askedAt) then Told(cfg, asked, job.probe.status == Healthy, job.recordedAt) else asked
  }

  /** What probing does to the instance's own breaker and cache entry, and what it publishes. */
  function Probed(cfg: Config, job: Job, breaker: Option<Breaker>, cached: Option<MonitoredInstance>): Effect {
    var b := if breaker.Some? then breaker.value else FRESH;
    var finding := FindingOf(cfg, job, b);
    Effect(finding, BreakerAfter(cfg, job, b), MonitoredInstance(job.target, finding, job.storedAt),
           News(job.target, Previous(cached), finding))
  }

  // ----- The monitor as a value -----

  datatype Monitor = Monitor(breakers: map<string, Breaker>, cache: CacheMap, events: seq<HealthChanged>)

  function ProbedOn(cfg: Config, m: Monitor, job: Job): Monitor {
    var id := job.target.serviceID;
    var effect := Probed(cfg, job, Find(m.breakers, id), Find(m.cache, id));
    Monitor(m.breakers[id := effect.breaker], m.cache[id := effect.entry], m.events + effect.news)
  }

  /** Probing one by one. */
  function ProbedAll(cfg: Config, m: Monitor, jobs: seq<Job>): Monitor {
    if jobs == [] then m else ProbedOn(cfg, ProbedAll(cfg, m, jobs[..|jobs| - 1]), jobs[|jobs| - 1])
  }

  function Kept(cache: CacheMap, live: set<string>): CacheMap {
    map id | id in cache && id in live :: cache[id]
  }

  function LiveIDs(jobs: seq<Job>): set<string> {
    set job | job in jobs :: job.target.serviceID
  }

  lemma {:induction false} ProbedKeys(cfg: Config, m: Monitor, jobs: seq<Job>)
    ensures ProbedAll(cfg, m, jobs).cache.Keys == m.cache.Keys + LiveIDs(jobs)
  {
    if jobs != [] {
      var before, last := jobs[..|jobs| - 1], jobs[|jobs| - 1];
      ProbedKeys(cfg, m, before);
      assert jobs == before + [last];
      assert LiveIDs(jobs) == LiveIDs(before) + {last.target.serviceID};
    }
  }

  lemma LiveIDsAppend(a: seq<Job>, b: seq<Job>)
    ensures LiveIDs(a + b) == LiveIDs(a) + LiveIDs(b)
  {
    forall id | id in LiveIDs(a) + LiveIDs(b)
      ensures id in LiveIDs(a + b)
    {
      var job :| (job in a || job in b) && job.target.serviceID == id;
      assert job in a + b;
    }
  }

  lemma {:induction false} ProbedAppend(cfg: Config, m: Monitor, a: seq<Job>, b: seq<Job>)
    ensures ProbedAll(cfg, m, a + b) == ProbedAll(cfg, ProbedAll(cfg, m, a), b)
  {
    if b == [] {
      assert a + b == a;
    } else {
      ProbedAppend(cfg, m, a, b[..|b| - 1]);
      assert (a + b)[..|a + b| - 1] == a + b[..|b| - 1];
    }
  }

  /** The instances of every service that could be listed. */
  function Listed(services: seq<Option<seq<Job>>>): seq<Job> {
    if services == [] then []
    else
      var last := services[|services| - 1];
      Listed(services[..|services| - 1]) + if last.Some? then last.value else []
  }

  // ----- The objects -----

  class Cache {
    var instances: CacheMap

    constructor ()
      ensures instances == map[]
    {
      instances := map[];
    }

    method Update(target: Target, finding: Finding, now: Time)
      modifies this
      ensures instances == old(instances)[target.serviceID := MonitoredInstance(target, finding, now)]
    {
      instances := instances[target.serviceID := MonitoredInstance(target, finding, now)];
    }

    method Remove(id: string)
      modifies this
      ensures instances == old(instances) - {id}
    {
      instances := instances - {id};
    }

    method PreviousStatus(id: string) returns (status: HealthStatus)
      ensures status == Previous(Find(instances, id))
    {
      if id in instances {
        return instances[id].finding.status;
      }
      return Unknown;
    }

    /** A snapshot of all entries, in an arbitrary order, each once. */
    method GetAll() returns (out: seq<MonitoredInstance>)
      requires Keyed(instances)
      ensures forall x :: x in out <==> x in instances.Values
      ensures forall i, j | 0 <= i < j < |out| :: out[i].target.serviceID != out[j].target.serviceID
    {
      out := [];
      var rest := instances.Keys;
      while rest != {}
        invariant rest <= instances.Keys
        invariant forall id | id in instances && id !in rest :: instances[id] in out
        invariant forall x | x in out :: x.target.serviceID in instances && x.target.serviceID !in rest && x == instances[x.target.serviceID]
        invariant forall i, j | 0 <= i < j < |out| :: out[i].target.serviceID != out[j].target.serviceID
        decreases rest
      {
        var id :| id in rest;
        out := out + [instances[id]];
        rest := rest - {id};
      }
    }
  }

  method NoteLive(instances: seq<Job>, live: set<string>) returns (live': set<string>)
    ensures live' == live + LiveIDs(instances)
  {
    live' := live;
    for i := 0 to |instances|
      invariant live' == live + LiveIDs(instances[..i])
    {
      live' := live' + {instances[i].target.serviceID};
      LiveIDsAppend(instances[..i], [instances[i]]);
      assert instances[..i + 1] == instances[..i] + [instances[i]];
    }
    assert instances[..|instances|] == instances;
  }

  class Worker {
    const cache: Cache
    const table: BreakerTable
    var published: seq<HealthChanged>

    ghost function Value(): Monitor
      reads this, cache, table, table.breakers.Values
    {
      Monitor(table.Contents(), cache.instances, published)
    }

    ghost predicate Valid()
      reads this, cache, table
    {
      table.Valid() && Keyed(cache.instances)
    }

    /** The breaker settings are those of getBreaker. */
    constructor (cache: Cache, probeInterval: Time, failureThreshold: int, recoveryThreshold: int)
      requires Keyed(cache.instances)
      ensures this.cache == cache && fresh(table) && Valid() && table.objects == {}
      ensures table.settings == Config(failureThreshold, Max(1, recoveryThreshold), probeInterval * 2)
      ensures Value() == Monitor(map[], cache.instances, [])
    {
      this.cache, published := cache, [];
      table := new BreakerTable(failureThreshold, recoveryThreshold, probeInterval * 2);
    }

    method ProbeInstance(job: Job)
      requires Valid()
      modifies this, cache, table, table.objects
      ensures Valid() && fresh(table.objects - old(table.objects))
      ensures Value() == ProbedOn(table.settings, old(Value()), job)
    {
      var finding := RunProbe(job);
      UpdateStatus(job.target, finding, job.storedAt);
    }

    /** Ask the breaker, and tell it what the probe found if it let the probe through. */
    method RunProbe(job: Job) returns (finding: Finding)
      requires table.Valid()
      modifies table, table.objects
      ensures table.Valid() && fresh(table.objects - old(table.objects))
      ensures var b := ValueOf(old(table.Contents()), job.target.serviceID);
              && finding == FindingOf(table.settings, job, b)
              && table.Contents() == old(table.Contents())[job.target.serviceID := BreakerAfter(table.settings, job, b)]
    {
      var id := job.target.serviceID;
      var cb, admitted := table.Ask(id, job.askedAt);
      if !admitted {
        return CIRCUIT_OPEN;
      }
      table.Tell(id, cb, job.probe.status == Healthy, job.recordedAt);
      return job.probe;
    }

    method UpdateStatus(target: Target, finding: Finding, now: Time)
      modifies this`published, cache
      ensures cache.instances == old(cache.instances)[target.serviceID := MonitoredInstance(target, finding, now)]
      ensures published == old(published) + News(target, Previous(Find(old(cache.instances), target.serviceID)), finding)
    {
      var previous := cache.PreviousStatus(target.serviceID);
      cache.Update(target, finding, now);
      if previous != finding.status && previous != Unknown {
        published := published + [HealthChanged(target.serviceID, target.serviceName, previous, finding.status, finding.message)];
      }
    }

    /**
     One round, its goroutines run one after the other. `listing` is the registry's answer: nothing if the services
     cannot be listed, and per service nothing if its instances cannot.
     */
    method ProbeAll(listing: Option<seq<Option<seq<Job>>>>) returns (jobs: seq<Job>)
      requires Valid()
      modifies this, cache, table, table.objects
      ensures Valid() && fresh(table.objects - old(table.objects))
      ensures listing.None? ==> Value() == old(Value())
      ensures listing.Some? ==>
                && jobs == Listed(listing.value)
                && Value() == ProbedAll(table.settings, old(Value()), jobs).(cache := cache.instances)
                && cache.instances == Kept(ProbedAll(table.settings, old(Value()), jobs).cache, LiveIDs(jobs))
                && cache.instances.Keys == LiveIDs(jobs)
    {
      jobs := [];
      if listing.None? {
        return;
      }
      var live: set<string> := {};
      for s := 0 to |listing.value|
        invariant jobs == Listed(listing.value[..s]) && live == LiveIDs(jobs)
        invariant Valid() && fresh(table.objects - old(table.objects))
        invariant Value() == ProbedAll(table.settings, old(Value()), jobs)
      {
        assert listing.value[..s + 1][..s] == listing.value[..s];
        if listing.value[s].Some? {
          var instances := listing.value[s].value;
          ProbedAppend(table.settings, old(Value()), jobs, instances);
          LiveIDsAppend(jobs, instances);
          live := ProbeService(instances, live);
          jobs := jobs + instances;
        }
      }
      assert listing.value[..|listing.value|] == listing.value;
      ProbedKeys(table.settings, old(Value()), jobs);
      EvictStale(live);
    }

    /** The goroutine of one service: note its IDs as live, then probe its instances. */
    method ProbeService(instances: seq<Job>, live: set<string>) returns (live': set<string>)
      requires Valid()
      modifies this, cache, table, table.objects
      ensures Valid() && fresh(table.objects - old(table.objects))
      ensures live' == live + LiveIDs(instances)
      ensures Value() == ProbedAll(table.settings, old(Value()), instances)
    {
      live' := NoteLive(instances, live);
      for i := 0 to |instances|
        invariant Valid() && fresh(table.objects - old(table.objects))
        invariant Value() == ProbedAll(table.settings, old(Value()), instances[..i])
      {
        ProbeInstance(instances[i]);
        assert instances[..i + 1][..i] == instances[..i];
      }
      assert instances[..|instances|] == instances;
    }

    /** Drop the cache entries of IDs that were not listed. */
    method EvictStale(live: set<string>)
      requires Keyed(cache.instances)
      modifies cache
      ensures cache.instances == Kept(old(cache.instances), live)
    {
      var all := cache.GetAll();
      for i := 0 to |all|
        invariant forall id | id in cache.instances ::
                    id in old(cache.instances) && cache.instances[id] == old(cache.instances)[id]
        invariant forall id | id in old(cache.instances) && id in live :: id in cache.instances
        invariant forall j | 0 <= j < i :: all[j].target.serviceID in cache.instances ==> all[j].target.serviceID in live
      {
        if all[i].target.serviceID !in live {
          cache.Remove(all[i].target.serviceID);
        }
      }
      forall id | id in cache.instances
        ensures id in live
      {
        assert old(cache.instances)[id] in all;
      }
    }
  }
}
