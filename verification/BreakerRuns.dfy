/**
 Runs of one breaker under any number of concurrent requests.

 Every call on the breaker holds its mutex, so a run is a sequence of whole calls in the
 order the mutex was taken. Requests are free to interleave: a run is legal as soon as the
 clock does not go back and every recorded outcome answers one earlier admission.
 */
module BreakerRuns {
  import opened Common
  import opened Breakers

  type Request = nat

  datatype Event =
    | Ask(r: Request, now: Time)
    | Succeed(r: Request, now: Time)
    | Fail(r: Request, now: Time)
    | Look(now: Time)

  datatype Outcome = Good | Bad

  /** The state in which an outstanding request was let through. */
  datatype Grant = WhileClosed | AsProbe

  /**
   The breaker together with the history needed to speak about runs: the requests let through
   and not yet reported, the request whose `Allow` last took the half-open slot, and all
   outcomes in the order they were recorded.
   */
  datatype World = World(
    breaker: Breaker, inFlight: map<Request, Grant>, holder: Option<Request>, log: seq<Outcome>, clock: Time)

  predicate Admitted(cfg: Config, w: World, e: Event) {
    e.Ask? && Admits(cfg, w.breaker, e.now)
  }

  predicate Records(e: Event) {
    e.Succeed? || e.Fail?
  }

  predicate Enabled(w: World, e: Event) {
    && w.clock <= e.now
    && (e.Ask? ==> e.r !in w.inFlight)
    && (Records(e) ==> e.r in w.inFlight)
  }

  function Step(cfg: Config, w: World, e: Event): World {
    match e
    case Ask(r, now) =>
      var b := AfterAllow(cfg, w.breaker, now);
      if !Admits(cfg, w.breaker, now) then w.(breaker := b, clock := now)
      else if b.state.HalfOpen? then
        w.(breaker := b, inFlight := w.inFlight[r := AsProbe], holder := Some(r), clock := now)
      else
        w.(breaker := b, inFlight := w.inFlight[r := WhileClosed], clock := now)
    case Succeed(r, now) =>
      w.(breaker := AfterSuccess(cfg, w.breaker), inFlight := w.inFlight - {r}, log := w.log + [Good], clock := now)
    case Fail(r, now) =>
      w.(breaker := AfterFailure(cfg, w.breaker, now), inFlight := w.inFlight - {r}, log := w.log + [Bad], clock := now)
    case Look(now) =>
      w.(breaker := AfterLook(cfg, w.breaker, now), clock := now)
  }

  predicate Moves(cfg: Config, w: World, e: Event, w': World) {
    Enabled(w, e) && w' == Step(cfg, w, e)
  }

  function Start(t0: Time): World {
    World(FRESH, map[], None, [], t0)
  }

  /** A run of a fresh breaker: `worlds[k]` is the world before `events[k]`. */
  datatype Run = Run(t0: Time, events: seq<Event>, worlds: seq<World>)

  ghost predicate Legal(cfg: Config, run: Run) {
    && |run.worlds| == |run.events| + 1
    && run.worlds[0] == Start(run.t0)
    && forall k | 0 <= k < |run.events| :: Moves(cfg, run.worlds[k], run.events[k], run.worlds[k + 1])
  }

  // ----- The history the counters stand for -----

  function TrailingFailures(log: seq<Outcome>): nat {
    if log == [] || log[|log| - 1].Good? then 0 else 1 + TrailingFailures(log[..|log| - 1])
  }

  function TrailingSuccesses(log: seq<Outcome>): nat {
    if log == [] || log[|log| - 1].Bad? then 0 else 1 + TrailingSuccesses(log[..|log| - 1])
  }

  lemma {:induction false} TrailingAppend(log: seq<Outcome>, o: Outcome)
    ensures TrailingFailures(log + [o]) == if o.Good? then 0 else TrailingFailures(log) + 1
    ensures TrailingSuccesses(log + [o]) == if o.Bad? then 0 else TrailingSuccesses(log) + 1
  {
    assert (log + [o])[..|log|] == log;
  }

  /** What the counters are when the log ends in `failures` failures, or in `successes` successes. */
  predicate Tallies(cfg: Config, b: Breaker, failures: nat, successes: nat) {
    && b.failureCount == failures
    && (b.state.Closed? ==> failures < TripCount(cfg) && b.recoveryCount == 0)
    && (!b.state.Closed? ==> b.recoveryCount == successes < cfg.recoveryThreshold)
    && (b.state.Open? ==> successes == 0)
  }

  ghost predicate CountsHistory(cfg: Config, b: Breaker, log: seq<Outcome>) {
    Tallies(cfg, b, TrailingFailures(log), TrailingSuccesses(log))
  }

  predicate SlotHeld(w: World) {
    w.breaker.halfOpenUsed ==>
      && w.breaker.state.HalfOpen?
      && w.holder.Some? && w.holder.value in w.inFlight && w.inFlight[w.holder.value].AsProbe?
  }

  predicate Timed(cfg: Config, b: Breaker, clock: Time) {
    && (!b.state.Closed? ==> b.openedAt <= clock)
    && (b.state.HalfOpen? ==> Elapsed(cfg, b, clock))
  }

  /** What holds in every state of every run. */
  ghost predicate Inv(cfg: Config, w: World) {
    CountsHistory(cfg, w.breaker, w.log) && SlotHeld(w) && Timed(cfg, w.breaker, w.clock)
  }

  lemma CallsKeepTallies(cfg: Config, b: Breaker, failures: nat, successes: nat, now: Time)
    requires Tallies(cfg, b, failures, successes)
    ensures Tallies(cfg, AfterAllow(cfg, b, now), failures, successes)
    ensures Tallies(cfg, AfterLook(cfg, b, now), failures, successes)
    ensures Tallies(cfg, AfterSuccess(cfg, b), 0, successes + 1)
    ensures Tallies(cfg, AfterFailure(cfg, b, now), failures + 1, 0)
  {
  }

  lemma {:induction false} StepKeepsCounts(cfg: Config, w: World, e: Event)
    requires CountsHistory(cfg, w.breaker, w.log)
    ensures CountsHistory(cfg, Step(cfg, w, e).breaker, Step(cfg, w, e).log)
  {
    CallsKeepTallies(cfg, w.breaker, TrailingFailures(w.log), TrailingSuccesses(w.log), e.now);
    TrailingAppend(w.log, Good);
    TrailingAppend(w.log, Bad);
  }

  lemma StepKeepsSlotHeld(cfg: Config, w: World, e: Event)
    requires SlotHeld(w) && Enabled(w, e)
    ensures SlotHeld(Step(cfg, w, e))
  {
  }

  lemma StepKeepsTimed(cfg: Config, w: World, e: Event)
    requires Timed(cfg, w.breaker, w.clock) && Enabled(w, e)
    ensures Timed(cfg, Step(cfg, w, e).breaker, Step(cfg, w, e).clock)
  {
  }

  lemma {:induction false} StepKeepsInv(cfg: Config, w: World, e: Event)
    requires Inv(cfg, w) && Enabled(w, e)
    ensures Inv(cfg, Step(cfg, w, e))
  {
    StepKeepsCounts(cfg, w, e);
    StepKeepsSlotHeld(cfg, w, e);
    StepKeepsTimed(cfg, w, e);
  }

  lemma {:induction false} RunInv(cfg: Config, run: Run, k: nat)
    requires Legal(cfg, run) && k <= |run.events|
    ensures Inv(cfg, run.worlds[k])
  {
    if k != 0 {
      RunInv(cfg, run, k - 1);
      assert Moves(cfg, run.worlds[k - 1], run.events[k - 1], run.worlds[k]);
      StepKeepsInv(cfg, run.worlds[k - 1], run.events[k - 1]);
    }
  }

  // ----- No lost probe slot -----

  /**
   The slot is taken only while the request whose `Allow` took it is still outstanding, so with
   nothing outstanding the only refusal left is the one of an open breaker whose break is running.
   */
  lemma {:induction false} NoLostProbeSlot(cfg: Config, run: Run, k: nat, now: Time)
    requires Legal(cfg, run) && k <= |run.events|
    ensures var w := run.worlds[k];
            && (w.breaker.halfOpenUsed ==> w.holder.Some? && w.holder.value in w.inFlight)
            && (w.inFlight == map[] ==>
                  (Admits(cfg, w.breaker, now) <==> (w.breaker.state.Open? ==> Elapsed(cfg, w.breaker, now))))
  {
    RunInv(cfg, run, k);
  }

  // ----- The counters and the state as functions of the history -----

  /** In every run `failureCount` is the trailing failure run, and a closed breaker opens exactly when it reaches the threshold. */
  lemma {:induction false} OpensExactlyAtThreshold(cfg: Config, run: Run, k: nat)
    requires Legal(cfg, run) && k < |run.events|
    ensures run.worlds[k].breaker.failureCount == TrailingFailures(run.worlds[k].log)
    ensures run.worlds[k].breaker.state.Closed? ==>
              (run.worlds[k + 1].breaker.state.Open? <==>
               run.events[k].Fail? && TrailingFailures(run.worlds[k + 1].log) == TripCount(cfg))
  {
    RunInv(cfg, run, k);
    assert Moves(cfg, run.worlds[k], run.events[k], run.worlds[k + 1]);
    TrailingAppend(run.worlds[k].log, Bad);
  }

  /**
   What a log of outcomes says by itself, whenever they were recorded: the breaker trips when the trailing failures
   reach the threshold and recovers when `recoveryThreshold` successes follow each other.
   */
  predicate TrippedByLog(cfg: Config, log: seq<Outcome>) {
    log != [] &&
    if TrippedByLog(cfg, log[..|log| - 1]) then TrailingSuccesses(log) < cfg.recoveryThreshold
    else TripCount(cfg) <= TrailingFailures(log)
  }

  predicate Tripped(w: World) {
    !w.breaker.state.Closed?
  }

  predicate FollowsLog(cfg: Config, w: World) {
    Tripped(w) <==> TrippedByLog(cfg, w.log)
  }

  /** A success recorded after the breaker opened, by a request let through before. */
  predicate LateSuccess(w: World, e: Event) {
    e.Succeed? && w.breaker.state.Open?
  }

  lemma {:induction false} TrippedAppend(cfg: Config, log: seq<Outcome>, o: Outcome)
    ensures TrippedByLog(cfg, log + [o]) <==>
            if TrippedByLog(cfg, log) then o.Bad? || TrailingSuccesses(log) + 1 < cfg.recoveryThreshold
            else o.Bad? && TripCount(cfg) <= TrailingFailures(log) + 1
  {
    TrailingAppend(log, o);
    assert (log + [o])[..|log|] == log;
  }

  lemma {:induction false} StepFollowsLog(cfg: Config, w: World, e: Event)
    requires CountsHistory(cfg, w.breaker, w.log) && FollowsLog(cfg, w)
    ensures FollowsLog(cfg, Step(cfg, w, e)) <==> cfg.recoveryThreshold == 1 || !LateSuccess(w, e)
  {
    if e.Succeed? {
      TrippedAppend(cfg, w.log, Good);
    } else if e.Fail? {
      TrippedAppend(cfg, w.log, Bad);
    }
  }

  ghost predicate NoLateSuccess(run: Run)
    requires |run.events| < |run.worlds|
  {
    forall k | 0 <= k < |run.events| :: !LateSuccess(run.worlds[k], run.events[k])
  }

  lemma {:induction false} FollowsLogUpTo(cfg: Config, run: Run, k: nat)
    requires Legal(cfg, run) && k <= |run.events|
    requires cfg.recoveryThreshold == 1 || NoLateSuccess(run)
    ensures FollowsLog(cfg, run.worlds[k])
  {
    if k != 0 {
      FollowsLogUpTo(cfg, run, k - 1);
      RunInv(cfg, run, k - 1);
      assert Moves(cfg, run.worlds[k - 1], run.events[k - 1], run.worlds[k]);
      StepFollowsLog(cfg, run.worlds[k - 1], run.events[k - 1]);
    }
  }

  /**
   The outcome log alone decides throughout a run whether the breaker is closed, exactly when no success is recorded
   while the breaker is open, or one success is enough to recover.
   */
  lemma {:induction false} FollowsLogUnlessLateSuccess(cfg: Config, run: Run)
    requires Legal(cfg, run)
    ensures (forall k | 0 <= k < |run.worlds| :: FollowsLog(cfg, run.worlds[k]))
            <==> (cfg.recoveryThreshold == 1 || NoLateSuccess(run))
  {
    if cfg.recoveryThreshold == 1 || NoLateSuccess(run) {
      forall k | 0 <= k < |run.worlds|
        ensures FollowsLog(cfg, run.worlds[k])
      {
        FollowsLogUpTo(cfg, run, k);
      }
    } else {
      var k :| 0 <= k < |run.events| && LateSuccess(run.worlds[k], run.events[k]);
      RunInv(cfg, run, k);
      assert Moves(cfg, run.worlds[k], run.events[k], run.worlds[k + 1]);
      if FollowsLog(cfg, run.worlds[k]) {
        StepFollowsLog(cfg, run.worlds[k], run.events[k]);
      }
    }
  }

  /** Requests never overlap: one is let through only when no other is outstanding. */
  ghost predicate OneAtATime(cfg: Config, run: Run)
    requires |run.events| < |run.worlds|
  {
    forall k | 0 <= k < |run.events| ::
      Admitted(cfg, run.worlds[k], run.events[k]) ==> run.worlds[k].inFlight == map[]
  }

  /** Without overlap at most one request is outstanding, and none while the breaker is open. */
  ghost predicate Lone(w: World) {
    && (forall q, r | q in w.inFlight && r in w.inFlight :: q == r)
    && (w.breaker.state.Open? ==> w.inFlight == map[])
    && (w.breaker.state.HalfOpen? && !w.breaker.halfOpenUsed ==> w.inFlight == map[])
  }

  lemma {:induction false} OneAtATimeIsLone(cfg: Config, run: Run, k: nat)
    requires Legal(cfg, run) && OneAtATime(cfg, run) && k <= |run.events|
    ensures Lone(run.worlds[k])
  {
    if k != 0 {
      OneAtATimeIsLone(cfg, run, k - 1);
      RunInv(cfg, run, k - 1);
      assert Moves(cfg, run.worlds[k - 1], run.events[k - 1], run.worlds[k]);
    }
  }

  lemma {:induction false} OneAtATimeIsNeverLate(cfg: Config, run: Run)
    requires Legal(cfg, run) && OneAtATime(cfg, run)
    ensures NoLateSuccess(run)
  {
    forall j | 0 <= j < |run.events|
      ensures !LateSuccess(run.worlds[j], run.events[j])
    {
      OneAtATimeIsLone(cfg, run, j);
      assert Moves(cfg, run.worlds[j], run.events[j], run.worlds[j + 1]);
    }
  }

  /** When requests do not overlap, the outcome log alone decides whether the breaker is closed. */
  lemma {:induction false} SequentialRunsFollowLog(cfg: Config, run: Run, k: nat)
    requires Legal(cfg, run) && OneAtATime(cfg, run) && k <= |run.events|
    ensures FollowsLog(cfg, run.worlds[k])
  {
    OneAtATimeIsNeverLate(cfg, run);
    FollowsLogUpTo(cfg, run, k);
  }

  /** Add one event at the end of a run. */
  lemma {:induction false} Extend(cfg: Config, run: Run, e: Event, w: World) returns (longer: Run)
    requires Legal(cfg, run) && Moves(cfg, run.worlds[|run.events|], e, w)
    ensures Legal(cfg, longer)
    ensures longer == Run(run.t0, run.events + [e], run.worlds + [w])
  {
    longer := Run(run.t0, run.events + [e], run.worlds + [w]);
    forall k | 0 <= k < |longer.events|
      ensures Moves(cfg, longer.worlds[k], longer.events[k], longer.worlds[k + 1])
    {
      if k < |run.events| {
        assert Moves(cfg, run.worlds[k], run.events[k], run.worlds[k + 1]);
      }
    }
  }

  /** Add one event at the end of a run without overlaps. */
  lemma {:induction false} ExtendAlone(cfg: Config, run: Run, e: Event) returns (longer: Run)
    requires Legal(cfg, run) && OneAtATime(cfg, run) && Enabled(run.worlds[|run.events|], e)
    requires e.Ask? ==> run.worlds[|run.events|].inFlight == map[]
    ensures Legal(cfg, longer) && OneAtATime(cfg, longer)
    ensures longer == Run(run.t0, run.events + [e], run.worlds + [Step(cfg, run.worlds[|run.events|], e)])
  {
    longer := Extend(cfg, run, e, Step(cfg, run.worlds[|run.events|], e));
    forall k | 0 <= k < |longer.events|
      ensures Admitted(cfg, longer.worlds[k], longer.events[k]) ==> longer.worlds[k].inFlight == map[]
    {
      if k < |run.events| {
        assert longer.worlds[k] == run.worlds[k] && longer.events[k] == run.events[k];
      }
    }
  }

  lemma {:induction false} OneFailureOneSuccess(cfg: Config)
    requires cfg.failureThreshold <= 1 && 2 <= cfg.recoveryThreshold
    ensures TrippedByLog(cfg, [Bad, Good])
  {
    assert [Bad][..0] == [] && [Bad, Good][..1] == [Bad];
    assert TrailingFailures([Bad]) == 1 && TrailingSuccesses([Bad, Good]) == 1;
  }

  /** The log is not followed after an overlap: two requests let through while closed, one failing and one succeeding late. */
  lemma {:induction false} LateSuccessClosesAtOnce(cfg: Config) returns (run: Run)
    requires cfg.failureThreshold <= 1 && 2 <= cfg.recoveryThreshold
    ensures Legal(cfg, run) && run.events == [Ask(0, 0), Ask(1, 0), Fail(0, 1), Succeed(1, 2)]
    ensures !Tripped(run.worlds[4]) && TrippedByLog(cfg, run.worlds[4].log)
  {
    run := Run(0, [], [Start(0)]);
    run := Extend(cfg, run, Ask(0, 0), World(FRESH, map[0 := WhileClosed], None, [], 0));
    run := Extend(cfg, run, Ask(1, 0), World(FRESH, map[0 := WhileClosed, 1 := WhileClosed], None, [], 0));
    assert map[0 := WhileClosed, 1 := WhileClosed] - {0} == map[1 := WhileClosed];
    run := Extend(cfg, run, Fail(0, 1), World(Breaker(Open, 1, 0, 1, false), map[1 := WhileClosed], None, [Bad], 1));
    assert map[1 := WhileClosed] - {1} == map[];
    run := Extend(cfg, run, Succeed(1, 2), World(Breaker(Closed, 0, 0, 1, false), map[], None, [Bad, Good], 2));
    OneFailureOneSuccess(cfg);
  }

  // ----- The documented life of a breaker -----

  /** The successes recorded in half-open since the last failure or the last success recorded elsewhere. */
  function HalfOpenStreak(run: Run, k: nat): nat
    requires k <= |run.events| < |run.worlds|
  {
    if k == 0 then 0
    else
      match run.events[k - 1]
      case Succeed(_, _) => if run.worlds[k - 1].breaker.state.HalfOpen? then HalfOpenStreak(run, k - 1) + 1 else 0
      case Fail(_, _) => 0
      case _ => HalfOpenStreak(run, k - 1)
  }

  /**
   Event `k` does what the breaker is documented to do. Closed, it opens exactly when the consecutive failures reach the
   threshold. Open, it lets nothing through and stays open until its break is over, and does not close. Half-open, it
   closes exactly when `recoveryThreshold` consecutive successes have been recorded in half-open.
   */
  predicate Documented(cfg: Config, run: Run, k: nat)
    requires k < |run.events| < |run.worlds|
  {
    var w, e, w' := run.worlds[k], run.events[k], run.worlds[k + 1];
    match w.breaker.state
    case Closed =>
      && !w'.breaker.state.HalfOpen?
      && (w'.breaker.state.Open? <==> e.Fail? && TrailingFailures(w'.log) == TripCount(cfg))
    case Open =>
      && !w'.breaker.state.Closed?
      && (!Elapsed(cfg, w.breaker, e.now) ==> w'.breaker.state.Open? && !Admitted(cfg, w, e))
    case HalfOpen =>
      w'.breaker.state.Closed? <==> e.Succeed? && HalfOpenStreak(run, k + 1) == cfg.recoveryThreshold
  }

  lemma {:induction false} RecoveryCountsHalfOpen(cfg: Config, run: Run, k: nat)
    requires Legal(cfg, run) && k <= |run.events|
    ensures Tripped(run.worlds[k]) ==> run.worlds[k].breaker.recoveryCount == HalfOpenStreak(run, k)
  {
    if k != 0 {
      RecoveryCountsHalfOpen(cfg, run, k - 1);
      RunInv(cfg, run, k - 1);
      assert Moves(cfg, run.worlds[k - 1], run.events[k - 1], run.worlds[k]);
    }
  }

  /** Whatever the recovery threshold, an event does what is documented if and only if it is not a late success. */
  lemma {:induction false} StepAsDocumented(cfg: Config, run: Run, k: nat)
    requires Legal(cfg, run) && k < |run.events|
    ensures Documented(cfg, run, k) <==> !LateSuccess(run.worlds[k], run.events[k])
  {
    RunInv(cfg, run, k);
    RecoveryCountsHalfOpen(cfg, run, k);
    OpensExactlyAtThreshold(cfg, run, k);
    assert Moves(cfg, run.worlds[k], run.events[k], run.worlds[k + 1]);
  }

  ghost predicate AllDocumented(cfg: Config, run: Run)
    requires |run.events| < |run.worlds|
  {
    forall k | 0 <= k < |run.events| :: Documented(cfg, run, k)
  }

  /** A whole run is as documented if and only if no success is recorded while the breaker is open. */
  lemma {:induction false} DocumentedUnlessLateSuccess(cfg: Config, run: Run)
    requires Legal(cfg, run)
    ensures AllDocumented(cfg, run) <==> NoLateSuccess(run)
  {
    forall k | 0 <= k < |run.events|
      ensures Documented(cfg, run, k) <==> !LateSuccess(run.worlds[k], run.events[k])
    {
      StepAsDocumented(cfg, run, k);
    }
  }

  /** When requests do not overlap, the breaker always does what is documented. */
  lemma {:induction false} SequentialRunsAreDocumented(cfg: Config, run: Run)
    requires Legal(cfg, run) && OneAtATime(cfg, run)
    ensures AllDocumented(cfg, run)
  {
    OneAtATimeIsNeverLate(cfg, run);
    DocumentedUnlessLateSuccess(cfg, run);
  }

  // ----- Breaks -----

  /** During its break an open breaker lets nothing through, and stays open unless a late success is recorded. */
  lemma StepDuringBreak(cfg: Config, w: World, e: Event)
    requires Timed(cfg, w.breaker, w.clock) && Enabled(w, e) && w.breaker.state.Open? && !Elapsed(cfg, w.breaker, e.now)
    ensures !Admitted(cfg, w, e)
    ensures Step(cfg, w, e).breaker.state.Open? <==> !LateSuccess(w, e)
    ensures w.breaker.openedAt <= Step(cfg, w, e).breaker.openedAt
  {
  }

  ghost predicate OpenThroughout(run: Run, i: nat, j: nat)
    requires i <= j < |run.worlds|
  {
    forall k | i <= k <= j :: run.worlds[k].breaker.state.Open?
  }

  ghost predicate NoLateSuccessIn(run: Run, i: nat, j: nat)
    requires i <= j <= |run.events| < |run.worlds|
  {
    forall k | i <= k < j :: !LateSuccess(run.worlds[k], run.events[k])
  }

  lemma {:induction false} ClockMoves(cfg: Config, run: Run, i: nat, j: nat)
    requires Legal(cfg, run) && i <= j <= |run.events|
    ensures run.worlds[i].clock <= run.worlds[j].clock
    ensures i < j ==> run.events[j - 1].now == run.worlds[j].clock
  {
    if i < j {
      ClockMoves(cfg, run, i, j - 1);
      assert Moves(cfg, run.worlds[j - 1], run.events[j - 1], run.worlds[j - 1 + 1]);
    }
  }

  lemma {:induction false} OpenSoFar(cfg: Config, run: Run, i: nat, j: nat)
    requires Legal(cfg, run) && i <= j <= |run.events| && run.worlds[i].breaker.state.Open?
    requires run.worlds[j].clock < run.worlds[i].breaker.openedAt + cfg.breakDuration && NoLateSuccessIn(run, i, j)
    ensures OpenThroughout(run, i, j) && run.worlds[i].breaker.openedAt <= run.worlds[j].breaker.openedAt
    ensures i < j ==> !Admitted(cfg, run.worlds[j - 1], run.events[j - 1])
  {
    if i < j {
      ClockMoves(cfg, run, j - 1, j);
      OpenSoFar(cfg, run, i, j - 1);
      RunInv(cfg, run, j - 1);
      assert Moves(cfg, run.worlds[j - 1], run.events[j - 1], run.worlds[j - 1 + 1]);
      StepDuringBreak(cfg, run.worlds[j - 1], run.events[j - 1]);
    }
  }

  /**
   An open breaker stays open for its whole break if and only if no late success is recorded in it, and until one is,
   nothing is let through.
   */
  lemma {:induction false} BreakIsKept(cfg: Config, run: Run, i: nat, j: nat)
    requires Legal(cfg, run) && i <= j <= |run.events| && run.worlds[i].breaker.state.Open?
    requires run.worlds[j].clock < run.worlds[i].breaker.openedAt + cfg.breakDuration
    ensures OpenThroughout(run, i, j) <==> NoLateSuccessIn(run, i, j)
    ensures NoLateSuccessIn(run, i, j) ==> forall k | i <= k < j :: !Admitted(cfg, run.worlds[k], run.events[k])
  {
    if NoLateSuccessIn(run, i, j) {
      OpenSoFar(cfg, run, i, j);
      forall k | i <= k < j
        ensures !Admitted(cfg, run.worlds[k], run.events[k])
      {
        ClockMoves(cfg, run, k + 1, j);
        OpenSoFar(cfg, run, i, k + 1);
      }
    } else {
      var k :| i <= k < j && LateSuccess(run.worlds[k], run.events[k]);
      assert Moves(cfg, run.worlds[k], run.events[k], run.worlds[k + 1]);
    }
  }

  /** Event `k` is a failure that opens the breaker, or opens it anew: one in half-open, or one at or above the threshold. */
  predicate Opens(cfg: Config, run: Run, k: nat)
    requires k < |run.events| < |run.worlds|
  {
    && run.events[k].Fail?
    && (run.worlds[k].breaker.state.HalfOpen? || TripCount(cfg) <= TrailingFailures(run.worlds[k + 1].log))
  }

  /** Exactly such failures start a break, each a whole new one, even if the breaker is open already. */
  lemma {:induction false} FailuresStartBreaks(cfg: Config, run: Run, k: nat)
    requires Legal(cfg, run) && k < |run.events|
    ensures Opens(cfg, run, k) ==> run.worlds[k + 1].breaker.state.Open? && run.worlds[k + 1].breaker.openedAt == run.events[k].now
    ensures !Opens(cfg, run, k) ==> run.worlds[k + 1].breaker.openedAt == run.worlds[k].breaker.openedAt
  {
    RunInv(cfg, run, k);
    assert Moves(cfg, run.worlds[k], run.events[k], run.worlds[k + 1]);
    TrailingAppend(run.worlds[k].log, Bad);
  }

  /** When the last of the failures that start a break was recorded, among the first `k` events. */
  function LastBreak(cfg: Config, run: Run, k: nat): Option<Time>
    requires k <= |run.events| < |run.worlds|
  {
    if k == 0 then None
    else if Opens(cfg, run, k - 1) then Some(run.events[k - 1].now)
    else LastBreak(cfg, run, k - 1)
  }

  /** In every run the break of a tripped breaker is counted from the last failure that started one. */
  lemma {:induction false} BreakCountsFromLastFailure(cfg: Config, run: Run, k: nat)
    requires Legal(cfg, run) && k <= |run.events|
    ensures Tripped(run.worlds[k]) ==> LastBreak(cfg, run, k) == Some(run.worlds[k].breaker.openedAt)
    ensures LastBreak(cfg, run, k).Some? ==> LastBreak(cfg, run, k).value == run.worlds[k].breaker.openedAt
  {
    if k != 0 {
      BreakCountsFromLastFailure(cfg, run, k - 1);
      FailuresStartBreaks(cfg, run, k - 1);
      RunInv(cfg, run, k - 1);
      assert Moves(cfg, run.worlds[k - 1], run.events[k - 1], run.worlds[k - 1 + 1]);
    }
  }

  /**
   A failure that opens the breaker, or fails beside it while it is open, keeps it open for a whole break from then on
   if and only if no late success is recorded, and until one is, nothing is let through.
   */
  lemma {:induction false} FailureIsFollowedByBreak(cfg: Config, run: Run, i: nat, j: nat)
    requires Legal(cfg, run) && i < j <= |run.events| && Opens(cfg, run, i)
    requires run.worlds[j].clock < run.events[i].now + cfg.breakDuration
    ensures OpenThroughout(run, i + 1, j) <==> NoLateSuccessIn(run, i + 1, j)
    ensures NoLateSuccessIn(run, i + 1, j) ==> forall k | i < k < j :: !Admitted(cfg, run.worlds[k], run.events[k])
  {
    FailuresStartBreaks(cfg, run, i);
    BreakIsKept(cfg, run, i + 1, j);
  }

  /** A look at an open breaker finds it half-open if and only if its break is over, and then the slot is free. */
  lemma {:induction false} LookFindsHalfOpen(cfg: Config, run: Run, k: nat)
    requires Legal(cfg, run) && k < |run.events| && run.events[k].Look? && run.worlds[k].breaker.state.Open?
    ensures var b, b' := run.worlds[k].breaker, run.worlds[k + 1].breaker;
            && (b'.state.HalfOpen? <==> Elapsed(cfg, b, run.events[k].now))
            && (b'.state.Open? <==> !Elapsed(cfg, b, run.events[k].now))
            && (b'.state.HalfOpen? ==> Admits(cfg, b', run.events[k].now))
  {
    RunInv(cfg, run, k);
    assert Moves(cfg, run.worlds[k], run.events[k], run.worlds[k + 1]);
  }

  /** `longer` goes on from `run`. */
  ghost predicate GoesOn(run: Run, longer: Run)
    requires |run.events| < |run.worlds| && |longer.events| < |longer.worlds|
  {
    && |run.events| <= |longer.events| && |run.worlds| <= |longer.worlds|
    && longer.events[..|run.events|] == run.events && longer.worlds[..|run.worlds|] == run.worlds
  }

  /** Something can be let through before the break that is running at the end of `run` is over. */
  ghost predicate CanCutShort(cfg: Config, run: Run)
    requires Legal(cfg, run)
  {
    var w := run.worlds[|run.events|];
    exists longer, k ::
      && Legal(cfg, longer) && GoesOn(run, longer) && |run.events| <= k < |longer.events|
      && Admitted(cfg, longer.worlds[k], longer.events[k])
      && longer.events[k].now < w.breaker.openedAt + cfg.breakDuration
  }

  lemma {:induction false} IdleBreakIsQuiet(cfg: Config, run: Run, longer: Run, k: nat)
    requires Legal(cfg, run) && Legal(cfg, longer) && GoesOn(run, longer) && |run.events| <= k <= |longer.events|
    requires var w := run.worlds[|run.events|];
             && w.breaker.state.Open? && w.inFlight == map[]
             && longer.worlds[k].clock < w.breaker.openedAt + cfg.breakDuration
    ensures longer.worlds[k].breaker == run.worlds[|run.events|].breaker && longer.worlds[k].inFlight == map[]
  {
    var n := |run.events|;
    if k == n {
      assert longer.worlds[n] == longer.worlds[..|run.worlds|][n];
    } else {
      ClockMoves(cfg, longer, k - 1, k);
      IdleBreakIsQuiet(cfg, run, longer, k - 1);
      assert Moves(cfg, longer.worlds[k - 1], longer.events[k - 1], longer.worlds[k - 1 + 1]);
    }
  }

  lemma {:induction false} StragglerCutsShort(cfg: Config, run: Run, straggler: Request) returns (longer: Run)
    requires Legal(cfg, run)
    requires var w := run.worlds[|run.events|]; w.breaker.state.Open? && straggler in w.inFlight
    ensures Legal(cfg, longer) && GoesOn(run, longer) && |longer.events| == |run.events| + 2
    ensures Admitted(cfg, longer.worlds[|run.events| + 1], longer.events[|run.events| + 1])
    ensures longer.events[|run.events| + 1].now == run.worlds[|run.events|].clock
  {
    var w := run.worlds[|run.events|];
    var newcomer := FreshNumber(w.inFlight.Keys);
    var closed := Step(cfg, w, Succeed(straggler, w.clock));
    longer := Extend(cfg, run, Succeed(straggler, w.clock), closed);
    longer := Extend(cfg, longer, Ask(newcomer, w.clock), Step(cfg, closed, Ask(newcomer, w.clock)));
    assert longer.events[..|run.events|] == run.events && longer.worlds[..|run.worlds|] == run.worlds;
  }

  /**
   Exactly when the documented break can fail, whatever the thresholds: while a break is running, something can still be
   let through before it is over if and only if a request is outstanding.
   */
  lemma {:induction false} OnlyStragglersCutBreaksShort(cfg: Config, run: Run)
    requires Legal(cfg, run)
    requires var w := run.worlds[|run.events|]; w.breaker.state.Open? && !Elapsed(cfg, w.breaker, w.clock)
    ensures CanCutShort(cfg, run) <==> run.worlds[|run.events|].inFlight != map[]
  {
    var w := run.worlds[|run.events|];
    if w.inFlight != map[] {
      var straggler :| straggler in w.inFlight;
      var longer := StragglerCutsShort(cfg, run, straggler);
    } else {
      forall longer, k | Legal(cfg, longer) && GoesOn(run, longer) && |run.events| <= k < |longer.events| &&
                         longer.events[k].now < w.breaker.openedAt + cfg.breakDuration
        ensures !Admitted(cfg, longer.worlds[k], longer.events[k])
      {
        ClockMoves(cfg, longer, k, k + 1);
        IdleBreakIsQuiet(cfg, run, longer, k);
      }
    }
  }

  /** A break cut short, for any recovery threshold: opened at 1, closed by a late success at 2, and a request let through at 3. */
  lemma {:induction false} LateSuccessCutsBreakShort(cfg: Config) returns (run: Run)
    requires cfg.failureThreshold <= 1 && 2 < cfg.breakDuration
    ensures Legal(cfg, run) && run.events == [Ask(0, 0), Ask(1, 0), Fail(0, 1), Succeed(1, 2), Ask(2, 3)]
    ensures run.worlds[3].breaker.state.Open? && run.worlds[3].breaker.openedAt == 1
    ensures Admitted(cfg, run.worlds[4], run.events[4]) && run.events[4].now < 1 + cfg.breakDuration
  {
    run := Run(0, [], [Start(0)]);
    run := Extend(cfg, run, Ask(0, 0), World(FRESH, map[0 := WhileClosed], None, [], 0));
    run := Extend(cfg, run, Ask(1, 0), World(FRESH, map[0 := WhileClosed, 1 := WhileClosed], None, [], 0));
    assert map[0 := WhileClosed, 1 := WhileClosed] - {0} == map[1 := WhileClosed];
    run := Extend(cfg, run, Fail(0, 1), World(Breaker(Open, 1, 0, 1, false), map[1 := WhileClosed], None, [Bad], 1));
    assert map[1 := WhileClosed] - {1} == map[];
    var closed := World(Breaker(Closed, 0, 0, 1, false), map[], None, [Bad, Good], 2);
    run := Extend(cfg, run, Succeed(1, 2), closed);
    run := Extend(cfg, run, Ask(2, 3), closed.(inFlight := map[2 := WhileClosed], clock := 3));
  }

  // ----- Probe exclusivity -----

  predicate ProbeAdmission(cfg: Config, w: World, e: Event) {
    Admitted(cfg, w, e) && !w.breaker.state.Closed?
  }

  /** Once taken, the slot stays taken until some outcome is recorded. */
  lemma {:induction false} SlotStaysTaken(cfg: Config, run: Run, i: nat, j: nat)
    requires Legal(cfg, run) && i < j <= |run.events|
    requires ProbeAdmission(cfg, run.worlds[i], run.events[i])
    requires forall k | i < k < j :: !Records(run.events[k])
    ensures run.worlds[j].breaker.halfOpenUsed
  {
    assert Moves(cfg, run.worlds[j - 1], run.events[j - 1], run.worlds[j]);
    if i < j - 1 {
      SlotStaysTaken(cfg, run, i, j - 1);
      RunInv(cfg, run, j - 1);
    }
  }

  /** In every run, two requests let through in half-open have a recorded outcome between them. */
  lemma {:induction false} ProbesAreSeparated(cfg: Config, run: Run, i: nat, j: nat)
    requires Legal(cfg, run) && i < j < |run.events|
    requires ProbeAdmission(cfg, run.worlds[i], run.events[i])
    requires ProbeAdmission(cfg, run.worlds[j], run.events[j])
    ensures exists k :: i < k < j && Records(run.events[k])
  {
    if forall k | i < k < j :: !Records(run.events[k]) {
      SlotStaysTaken(cfg, run, i, j);
      RunInv(cfg, run, j);
      assert false;
    }
  }

  predicate LeavesOpenForHalfOpen(w: World, w': World) {
    w.breaker.state.Open? && w'.breaker.state.HalfOpen?
  }

  predicate NoneFromClosed(w: World) {
    forall r | r in w.inFlight :: !w.inFlight[r].WhileClosed?
  }

  /** Only the holder of the slot is outstanding in half-open, and no probe is outstanding elsewhere. */
  ghost predicate ProbesExclusive(w: World) {
    if w.breaker.state.HalfOpen? then
      && NoneFromClosed(w)
      && (if w.breaker.halfOpenUsed then
            w.holder.Some? && w.inFlight.Keys == {w.holder.value}
          else w.inFlight == map[])
    else forall r | r in w.inFlight :: !w.inFlight[r].AsProbe?
  }

  lemma {:induction false} StepKeepsExclusive(cfg: Config, w: World, e: Event)
    requires SlotHeld(w) && Enabled(w, e) && ProbesExclusive(w)
    requires LeavesOpenForHalfOpen(w, Step(cfg, w, e)) ==> NoneFromClosed(w)
    ensures ProbesExclusive(Step(cfg, w, e))
  {
    if LeavesOpenForHalfOpen(w, Step(cfg, w, e)) {
      assert w.inFlight == map[] by {
        if r :| r in w.inFlight { assert false; }
      }
    }
    if w.breaker.state.HalfOpen? && Records(e) {
      assert w.inFlight - {e.r} == map[];
    }
  }

  /** If no request let through while closed is outstanding whenever the breaker turns half-open, at most one probe is ever in flight. */
  lemma {:induction false} AtMostOneProbe(cfg: Config, run: Run, k: nat)
    requires Legal(cfg, run) && k <= |run.events|
    requires forall j | 0 <= j < |run.events| ::
               LeavesOpenForHalfOpen(run.worlds[j], run.worlds[j + 1]) ==> NoneFromClosed(run.worlds[j])
    ensures ProbesExclusive(run.worlds[k])
  {
    if k != 0 {
      AtMostOneProbe(cfg, run, k - 1);
      RunInv(cfg, run, k - 1);
      assert Moves(cfg, run.worlds[k - 1], run.events[k - 1], run.worlds[k - 1 + 1]);
      StepKeepsExclusive(cfg, run.worlds[k - 1], run.events[k - 1]);
    }
  }

  predicate TwoProbes(w: World) {
    exists q, r :: q in w.inFlight && r in w.inFlight && q != r && w.inFlight[q].AsProbe? && w.inFlight[r].AsProbe?
  }

  /** `longer` goes on from `run`, and lets nothing through while the breaker is closed. */
  ghost predicate Continues(cfg: Config, run: Run, longer: Run)
    requires Legal(cfg, run) && Legal(cfg, longer)
  {
    && GoesOn(run, longer)
    && forall k | |run.events| <= k < |longer.events| ::
         Admitted(cfg, longer.worlds[k], longer.events[k]) ==> Tripped(longer.worlds[k])
  }

  /** A request is outstanding that does not hold the half-open slot. */
  ghost predicate HasStraggler(w: World) {
    exists r :: r in w.inFlight && !(w.breaker.halfOpenUsed && w.holder == Some(r))
  }

  ghost predicate CanDoubleProbe(cfg: Config, run: Run)
    requires Legal(cfg, run)
  {
    exists longer :: Legal(cfg, longer) && Continues(cfg, run, longer) && TwoProbes(longer.worlds[|longer.events|])
  }

  lemma {:induction false} NoStragglerIsExclusive(cfg: Config, w: World)
    requires Inv(cfg, w) && Tripped(w) && !HasStraggler(w)
    ensures ProbesExclusive(w) && NoneFromClosed(w)
  {
    if w.breaker.halfOpenUsed {
      assert w.inFlight.Keys == {w.holder.value};
    } else {
      assert w.inFlight == map[] by {
        if r :| r in w.inFlight { assert false; }
      }
    }
  }

  /** Without a straggler a tripped breaker stays exclusive for as long as nothing is let through while closed. */
  lemma {:induction false} ContinuationIsExclusive(cfg: Config, run: Run, longer: Run, k: nat)
    requires Legal(cfg, run) && Legal(cfg, longer) && Continues(cfg, run, longer)
    requires Tripped(run.worlds[|run.events|]) && !HasStraggler(run.worlds[|run.events|])
    requires |run.events| <= k <= |longer.events|
    ensures ProbesExclusive(longer.worlds[k]) && NoneFromClosed(longer.worlds[k])
  {
    if k == |run.events| {
      assert longer.worlds[k] == longer.worlds[..|run.worlds|][k];
      RunInv(cfg, run, k);
      NoStragglerIsExclusive(cfg, run.worlds[k]);
    } else {
      var w, e := longer.worlds[k - 1], longer.events[k - 1];
      ContinuationIsExclusive(cfg, run, longer, k - 1);
      RunInv(cfg, longer, k - 1);
      assert Moves(cfg, w, e, longer.worlds[k - 1 + 1]);
      StepKeepsExclusive(cfg, w, e);
    }
  }

  lemma {:induction false} ContinueBy(cfg: Config, run: Run, so: Run, e: Event) returns (longer: Run)
    requires Legal(cfg, run) && Legal(cfg, so) && Continues(cfg, run, so)
    requires Enabled(so.worlds[|so.events|], e)
    requires Admitted(cfg, so.worlds[|so.events|], e) ==> Tripped(so.worlds[|so.events|])
    ensures Legal(cfg, longer) && Continues(cfg, run, longer)
    ensures longer.events == so.events + [e]
    ensures longer.worlds[|longer.events|] == Step(cfg, so.worlds[|so.events|], e)
  {
    longer := Extend(cfg, so, e, Step(cfg, so.worlds[|so.events|], e));
    assert longer.events[..|run.events|] == so.events[..|run.events|];
    assert longer.worlds[..|run.worlds|] == so.worlds[..|run.worlds|];
    forall k | |run.events| <= k < |longer.events|
      ensures Admitted(cfg, longer.worlds[k], longer.events[k]) ==> Tripped(longer.worlds[k])
    {
      if k < |so.events| {
        assert longer.worlds[k] == so.worlds[k] && longer.events[k] == so.events[k];
      }
    }
  }

  /** The slot is taken in the end, by a request other than `straggler`, which stays outstanding. */
  lemma {:induction false} TakeSlot(cfg: Config, run: Run, straggler: Request) returns (longer: Run)
    requires Legal(cfg, run) && Tripped(run.worlds[|run.events|])
    requires var w := run.worlds[|run.events|];
             straggler in w.inFlight && !(w.breaker.halfOpenUsed && w.holder == Some(straggler))
    ensures Legal(cfg, longer) && Continues(cfg, run, longer)
    ensures var w := longer.worlds[|longer.events|];
            w.breaker.halfOpenUsed && straggler in w.inFlight && w.holder != Some(straggler)
  {
    var w := run.worlds[|run.events|];
    longer := run;
    if !w.breaker.halfOpenUsed {
      var r := FreshNumber(w.inFlight.Keys);
      longer := ContinueBy(cfg, run, run, Ask(r, Max(w.clock, w.breaker.openedAt + cfg.breakDuration)));
    }
  }

  /** With the slot taken, the failure of a straggler and one more break let a second probe in beside the first. */
  lemma {:induction false} StragglerAdmitsSecondProbe(cfg: Config, run: Run, so: Run, straggler: Request) returns (longer: Run)
    requires Legal(cfg, run) && Legal(cfg, so) && Continues(cfg, run, so)
    requires var w := so.worlds[|so.events|];
             w.breaker.halfOpenUsed && w.holder != Some(straggler) && straggler in w.inFlight
    ensures Legal(cfg, longer) && Continues(cfg, run, longer) && TwoProbes(longer.worlds[|longer.events|])
  {
    var w := so.worlds[|so.events|];
    RunInv(cfg, so, |so.events|);
    var newcomer := FreshNumber(w.inFlight.Keys);
    longer := ContinueBy(cfg, run, so, Fail(straggler, w.clock));
    longer := ContinueBy(cfg, run, longer, Ask(newcomer, Max(w.clock, w.clock + cfg.breakDuration)));
    var last := longer.worlds[|longer.events|];
    var holder := w.holder.value;
    assert holder in last.inFlight && newcomer in last.inFlight && holder != newcomer;
  }

  /**
   Exactly when the documented "one probe at a time" can fail: from a tripped breaker two probes can come to be in flight,
   with nothing let through while closed in the meantime, if and only if a request is outstanding now that does not hold the slot.
   */
  lemma {:induction false} SecondProbeNeedsStraggler(cfg: Config, run: Run)
    requires Legal(cfg, run) && Tripped(run.worlds[|run.events|])
    ensures CanDoubleProbe(cfg, run) <==> HasStraggler(run.worlds[|run.events|])
  {
    var w := run.worlds[|run.events|];
    if HasStraggler(w) {
      var straggler :| straggler in w.inFlight && !(w.breaker.halfOpenUsed && w.holder == Some(straggler));
      var so := TakeSlot(cfg, run, straggler);
      var longer := StragglerAdmitsSecondProbe(cfg, run, so, straggler);
    } else {
      forall longer | Legal(cfg, longer) && Continues(cfg, run, longer)
        ensures !TwoProbes(longer.worlds[|longer.events|])
      {
        ContinuationIsExclusive(cfg, run, longer, |longer.events|);
      }
    }
  }

  /** A run of a fresh breaker with two probes in flight at its end: the second request to be let through fails late. */
  lemma {:induction false} TwoProbesAtOnce(cfg: Config) returns (run: Run)
    requires cfg.failureThreshold <= 1
    ensures var b := Max(0, cfg.breakDuration);
            run.events == [Ask(0, 0), Ask(1, 0), Fail(0, 0), Ask(2, b), Fail(1, b), Ask(3, b + b)]
    ensures Legal(cfg, run) && TwoProbes(run.worlds[6])
  {
    var b := Max(0, cfg.breakDuration);
    run := Run(0, [], [Start(0)]);
    run := Extend(cfg, run, Ask(0, 0), World(FRESH, map[0 := WhileClosed], None, [], 0));
    run := Extend(cfg, run, Ask(1, 0), World(FRESH, map[0 := WhileClosed, 1 := WhileClosed], None, [], 0));
    assert map[0 := WhileClosed, 1 := WhileClosed] - {0} == map[1 := WhileClosed];
    run := Extend(cfg, run, Fail(0, 0), World(Breaker(Open, 1, 0, 0, false), map[1 := WhileClosed], None, [Bad], 0));
    run := Extend(cfg, run, Ask(2, b),
                  World(Breaker(HalfOpen, 1, 0, 0, true), map[1 := WhileClosed, 2 := AsProbe], Some(2), [Bad], b));
    assert map[1 := WhileClosed, 2 := AsProbe] - {1} == map[2 := AsProbe];
    run := Extend(cfg, run, Fail(1, b), World(Breaker(Open, 2, 0, b, false), map[2 := AsProbe], Some(2), [Bad, Bad], b));
    var last := World(Breaker(HalfOpen, 2, 0, b, true), map[2 := AsProbe, 3 := AsProbe], Some(3), [Bad, Bad], b + b);
    run := Extend(cfg, run, Ask(3, b + b), last);
    assert 2 in last.inFlight && 3 in last.inFlight;
  }

  /** Request 0 is let through and stays out while request 1 is let through and fails `n` times. */
  lemma {:induction false} StragglerRun(cfg: Config, n: nat) returns (run: Run)
    requires n <= TripCount(cfg)
    ensures Legal(cfg, run)
    ensures var w := run.worlds[|run.events|];
            && w.breaker == Breaker(if n < TripCount(cfg) then Closed else Open, n, 0, 0, false)
            && w.inFlight == map[0 := WhileClosed] && w.holder == None && w.clock == 0
  {
    if n == 0 {
      run := Extend(cfg, Run(0, [], [Start(0)]), Ask(0, 0), World(FRESH, map[0 := WhileClosed], None, [], 0));
    } else {
      run := StragglerRun(cfg, n - 1);
      var w := run.worlds[|run.events|];
      var asked := Step(cfg, w, Ask(1, 0));
      run := Extend(cfg, run, Ask(1, 0), asked);
      assert map[0 := WhileClosed, 1 := WhileClosed] - {1} == map[0 := WhileClosed];
      run := Extend(cfg, run, Fail(1, 0), Step(cfg, asked, Fail(1, 0)));
    }
  }

  /** Whatever its settings, a fresh breaker has a run that ends with two probes in flight. */
  lemma {:induction false} EveryBreakerCanDoubleProbe(cfg: Config) returns (run: Run)
    ensures Legal(cfg, run) && TwoProbes(run.worlds[|run.events|])
  {
    var start := StragglerRun(cfg, TripCount(cfg));
    assert 0 in start.worlds[|start.events|].inFlight;
    SecondProbeNeedsStraggler(cfg, start);
    run :| Legal(cfg, run) && Continues(cfg, start, run) && TwoProbes(run.worlds[|run.events|]);
  }

  // ----- A failing backend -----

  /** How many of the first `k` events let a request through. */
  function Admissions(cfg: Config, run: Run, k: nat): nat
    requires k <= |run.events| <= |run.worlds|
  {
    if k == 0 then 0
    else Admissions(cfg, run, k - 1) + if Admitted(cfg, run.worlds[k - 1], run.events[k - 1]) then 1 else 0
  }

  predicate AllFail(run: Run) {
    forall k | 0 <= k < |run.events| :: !run.events[k].Succeed?
  }

  /** The instant up to which every admission so far is paid for by a full break. */
  function Paid(w: World): Time {
    if w.breaker.state.Open? || (w.breaker.state.HalfOpen? && w.inFlight == map[]) then w.breaker.openedAt else w.clock
  }

  /** The breaks that must have passed before `n` admissions of a failing backend. */
  function BreaksFor(cfg: Config, n: nat): Time {
    if n <= TripCount(cfg) then 0 else BreaksFor(cfg, n - 1) + cfg.breakDuration
  }

  lemma {:induction false} BreaksForIsProduct(cfg: Config, n: nat)
    requires TripCount(cfg) <= n
    ensures BreaksFor(cfg, n) == (n - TripCount(cfg)) * cfg.breakDuration
  {
    if TripCount(cfg) < n {
      BreaksForIsProduct(cfg, n - 1);
    }
  }

  /** After `n` admissions, all of whose outcomes so far were failures. */
  ghost predicate PaidFor(cfg: Config, t0: Time, w: World, n: nat) {
    && t0 <= w.clock
    && n == |w.log| + |w.inFlight|
    && w.breaker.failureCount == |w.log|
    && (w.breaker.state.Closed? ==> n <= TripCount(cfg))
    && (!w.breaker.state.Closed? ==> TripCount(cfg) <= n && BreaksFor(cfg, n) <= Paid(w) - t0)
  }

  lemma LoneLeaves(w: World, r: Request)
    requires Lone(w) && r in w.inFlight
    ensures |w.inFlight| == 1 && w.inFlight - {r} == map[]
  {
    assert w.inFlight.Keys == {r};
    assert |w.inFlight| == |w.inFlight.Keys|;
  }

  lemma {:induction false} StepKeepsPaidFor(cfg: Config, t0: Time, w: World, n: nat, e: Event)
    requires Inv(cfg, w) && Lone(w) && Enabled(w, e) && PaidFor(cfg, t0, w, n)
    requires !e.Succeed? && (Admitted(cfg, w, e) ==> w.inFlight == map[])
    ensures PaidFor(cfg, t0, Step(cfg, w, e), if Admitted(cfg, w, e) then n + 1 else n)
  {
    if e.Fail? {
      LoneLeaves(w, e.r);
    }
  }

  lemma {:induction false} FailurePays(cfg: Config, run: Run, k: nat, n: nat, n': nat)
    requires Legal(cfg, run) && OneAtATime(cfg, run) && k < |run.events| && !run.events[k].Succeed?
    requires PaidFor(cfg, run.t0, run.worlds[k], n)
    requires n' == if Admitted(cfg, run.worlds[k], run.events[k]) then n + 1 else n
    ensures PaidFor(cfg, run.t0, run.worlds[k + 1], n')
  {
    RunInv(cfg, run, k);
    OneAtATimeIsLone(cfg, run, k);
    assert Moves(cfg, run.worlds[k], run.events[k], run.worlds[k + 1]);
    StepKeepsPaidFor(cfg, run.t0, run.worlds[k], n, run.events[k]);
  }

  lemma {:induction false} FailuresPayForAdmissions(cfg: Config, run: Run, k: nat)
    requires Legal(cfg, run) && OneAtATime(cfg, run) && AllFail(run) && k <= |run.events|
    ensures PaidFor(cfg, run.t0, run.worlds[k], Admissions(cfg, run, k))
  {
    if k != 0 {
      FailuresPayForAdmissions(cfg, run, k - 1);
      FailurePays(cfg, run, k - 1, Admissions(cfg, run, k - 1), Admissions(cfg, run, k));
    }
  }

  lemma {:induction false} AdmissionsAreLogged(cfg: Config, run: Run, k: nat)
    requires Legal(cfg, run) && OneAtATime(cfg, run) && AllFail(run) && k <= |run.events|
    ensures Admissions(cfg, run, k) == |run.worlds[k].log| + |run.worlds[k].inFlight|
  {
    FailuresPayForAdmissions(cfg, run, k);
  }

  lemma {:induction false} BreaksHavePassed(cfg: Config, run: Run, k: nat)
    requires Legal(cfg, run) && OneAtATime(cfg, run) && AllFail(run) && k <= |run.events|
    ensures var n := Admissions(cfg, run, k);
            n <= TripCount(cfg) || BreaksFor(cfg, n) <= run.worlds[k].clock - run.t0
  {
    FailuresPayForAdmissions(cfg, run, k);
    RunInv(cfg, run, k);
  }

  /** A backend that keeps failing sees the threshold's worth of requests, then at most one for each break that has passed. */
  lemma {:induction false} FailingBackendBound(cfg: Config, run: Run, k: nat)
    requires Legal(cfg, run) && OneAtATime(cfg, run) && AllFail(run) && k <= |run.events|
    ensures var n := Admissions(cfg, run, k);
            n <= TripCount(cfg) || (n - TripCount(cfg)) * cfg.breakDuration <= run.worlds[k].clock - run.t0
  {
    BreaksHavePassed(cfg, run, k);
    if TripCount(cfg) <= Admissions(cfg, run, k) {
      BreaksForIsProduct(cfg, Admissions(cfg, run, k));
    }
  }

  /** The same bound on the outcomes recorded by a run at its end, by any time not before its last event. */
  lemma {:induction false} FailingLogBound(cfg: Config, run: Run, n: nat, last: Time)
    requires Legal(cfg, run) && OneAtATime(cfg, run) && AllFail(run)
    requires var w := run.worlds[|run.events|]; n == |w.log| && w.inFlight == map[] && w.clock <= last
    ensures n <= TripCount(cfg) || (n - TripCount(cfg)) * cfg.breakDuration <= last - run.t0
  {
    AdmissionsAreLogged(cfg, run, |run.events|);
    BreaksHavePassed(cfg, run, |run.events|);
    if TripCount(cfg) <= n {
      BreaksForIsProduct(cfg, n);
    }
  }

  /** How many of the first `k` events let a probe through. */
  function Probes(cfg: Config, run: Run, k: nat): nat
    requires k <= |run.events| <= |run.worlds|
  {
    if k == 0 then 0
    else Probes(cfg, run, k - 1) + if ProbeAdmission(cfg, run.worlds[k - 1], run.events[k - 1]) then 1 else 0
  }

  /** `due`, the breaks that `n` probes take, have passed: by now if a probe is out, else by the time the breaker last opened. */
  predicate ProbesPaid(t0: Time, w: World, n: nat, due: Time) {
    && t0 <= w.clock
    && if w.breaker.state.Closed? then n == 0
       else due <= (if w.breaker.halfOpenUsed then w.clock else w.breaker.openedAt) - t0
  }

  lemma StepKeepsProbesPaid(cfg: Config, t0: Time, w: World, e: Event, n: nat, due: Time, n': nat, due': Time)
    requires SlotHeld(w) && Timed(cfg, w.breaker, w.clock) && Enabled(w, e) && !e.Succeed?
    requires ProbesPaid(t0, w, n, due) && (n == 0 ==> due == 0)
    requires if ProbeAdmission(cfg, w, e) then n' == n + 1 && due' == due + cfg.breakDuration else n' == n && due' == due
    ensures ProbesPaid(t0, Step(cfg, w, e), n', due')
  {
  }

  /** The length of `n` breaks. */
  function BreaksOf(cfg: Config, n: nat): Time {
    if n == 0 then 0 else BreaksOf(cfg, n - 1) + cfg.breakDuration
  }

  lemma {:induction false} BreaksOfIsProduct(cfg: Config, n: nat)
    ensures BreaksOf(cfg, n) == n * cfg.breakDuration
  {
    if n != 0 {
      BreaksOfIsProduct(cfg, n - 1);
    }
  }

  lemma {:induction false} FailuresPayForProbes(cfg: Config, run: Run, k: nat)
    requires Legal(cfg, run) && AllFail(run) && k <= |run.events|
    ensures ProbesPaid(run.t0, run.worlds[k], Probes(cfg, run, k), BreaksOf(cfg, Probes(cfg, run, k)))
  {
    if k != 0 {
      var n, n' := Probes(cfg, run, k - 1), Probes(cfg, run, k);
      FailuresPayForProbes(cfg, run, k - 1);
      RunInv(cfg, run, k - 1);
      assert Moves(cfg, run.worlds[k - 1], run.events[k - 1], run.worlds[k - 1 + 1]);
      StepKeepsProbesPaid(cfg, run.t0, run.worlds[k - 1], run.events[k - 1], n, BreaksOf(cfg, n), n', BreaksOf(cfg, n'));
    }
  }

  /** However its requests overlap, a backend that keeps failing sees at most one probe for each break that has passed. */
  lemma {:induction false} FailingProbesBound(cfg: Config, run: Run, k: nat)
    requires Legal(cfg, run) && AllFail(run) && k <= |run.events|
    ensures Probes(cfg, run, k) * cfg.breakDuration <= run.worlds[k].clock - run.t0
  {
    FailuresPayForProbes(cfg, run, k);
    RunInv(cfg, run, k);
    BreaksOfIsProduct(cfg, Probes(cfg, run, k));
  }

  // ----- A breaker with one request at a time -----

  /** `run` is a run with one request at a time, from `t0` to `last`, that ends idle at `b` after these outcomes. */
  ghost predicate EndsAt(cfg: Config, run: Run, t0: Time, b: Breaker, log: seq<Outcome>, last: Time) {
    && Legal(cfg, run) && OneAtATime(cfg, run) && run.t0 == t0
    && run.worlds[|run.events|].breaker == b && run.worlds[|run.events|].inFlight == map[]
    && run.worlds[|run.events|].log == log && run.worlds[|run.events|].clock <= last
    && ((forall i | 0 <= i < |log| :: log[i].Bad?) ==> AllFail(run))
  }

  ghost predicate HasRun(cfg: Config, t0: Time, b: Breaker, log: seq<Outcome>, last: Time) {
    exists run :: EndsAt(cfg, run, t0, b, log, last)
  }

  lemma {:induction false} FreshHasRun(cfg: Config, t0: Time)
    ensures HasRun(cfg, t0, FRESH, [], t0)
  {
    var run := Run(t0, [], [Start(t0)]);
    assert EndsAt(cfg, run, t0, FRESH, [], t0);
  }

  lemma {:induction false} HasRunLater(cfg: Config, t0: Time, b: Breaker, log: seq<Outcome>, last: Time, later: Time)
    requires HasRun(cfg, t0, b, log, last) && last <= later
    ensures HasRun(cfg, t0, b, log, later)
  {
    var run :| EndsAt(cfg, run, t0, b, log, last);
    assert EndsAt(cfg, run, t0, b, log, later);
  }

  lemma {:induction false} AskEnds(cfg: Config, run: Run, t0: Time, b: Breaker, log: seq<Outcome>, last: Time, now: Time)
    returns (longer: Run)
    requires EndsAt(cfg, run, t0, b, log, last) && last <= now
    ensures Legal(cfg, longer) && OneAtATime(cfg, longer)
    ensures longer == Run(t0, run.events + [Ask(0, now)], run.worlds + [Step(cfg, run.worlds[|run.events|], Ask(0, now))])
    ensures !Admits(cfg, b, now) ==> EndsAt(cfg, longer, t0, AfterAllow(cfg, b, now), log, now)
  {
    longer := ExtendAlone(cfg, run, Ask(0, now));
  }

  /** One more request: it is refused, or let through and told a success or a failure. */
  lemma {:induction false} RequestExtendsRun(
    cfg: Config, t0: Time, b: Breaker, log: seq<Outcome>, last: Time, askedAt: Time, success: bool, endedAt: Time)
    requires HasRun(cfg, t0, b, log, last) && last <= askedAt && (Admits(cfg, b, askedAt) ==> askedAt <= endedAt)
    ensures var asked := AfterAllow(cfg, b, askedAt);
            if !Admits(cfg, b, askedAt) then HasRun(cfg, t0, asked, log, askedAt)
            else if success then HasRun(cfg, t0, AfterSuccess(cfg, asked), log + [Good], endedAt)
            else HasRun(cfg, t0, AfterFailure(cfg, asked, endedAt), log + [Bad], endedAt)
  {
    var run :| EndsAt(cfg, run, t0, b, log, last);
    var longer := AskEnds(cfg, run, t0, b, log, last, askedAt);
    if Admits(cfg, b, askedAt) {
      var asked, log' := AfterAllow(cfg, b, askedAt), log + [if success then Good else Bad];
      assert longer.worlds[|longer.events|].inFlight - {0} == map[];
      longer := ExtendAlone(cfg, longer, if success then Succeed(0, endedAt) else Fail(0, endedAt));
      assert log'[|log|] == if success then Good else Bad;
      assert forall i | 0 <= i < |log| :: log'[i] == log[i];
      assert EndsAt(cfg, longer, t0, if success then AfterSuccess(cfg, asked) else AfterFailure(cfg, asked, endedAt), log', endedAt);
    }
  }

  lemma {:induction false} LoneRunFollowsLog(cfg: Config, t0: Time, b: Breaker, log: seq<Outcome>, last: Time)
    requires HasRun(cfg, t0, b, log, last)
    ensures b.state.Closed? <==> !TrippedByLog(cfg, log)
    ensures b.failureCount == TrailingFailures(log) && !b.halfOpenUsed
  {
    var run :| EndsAt(cfg, run, t0, b, log, last);
    SequentialRunsFollowLog(cfg, run, |run.events|);
    RunInv(cfg, run, |run.events|);
  }

  lemma {:induction false} LoneRunBound(cfg: Config, t0: Time, b: Breaker, log: seq<Outcome>, last: Time)
    requires HasRun(cfg, t0, b, log, last) && forall i | 0 <= i < |log| :: log[i].Bad?
    ensures |log| <= TripCount(cfg) || (|log| - TripCount(cfg)) * cfg.breakDuration <= last - t0
  {
    var run :| EndsAt(cfg, run, t0, b, log, last);
    FailingLogBound(cfg, run, |log|, last);
  }
}
