/**
 The whole gateway: any number of requests run the retry loop at the same time and share the breakers.

 A request's own variables are private, so its turn is two atomic steps, the breaker's `Allow` and the
 breaker's `Record` call; everything else may happen in between.
 */
module Gateways {
  import opened Common
  import opened Breakers
  import opened Proxies
  import BR = BreakerRuns

  type Request = BR.Request

  datatype Phase = Ready(p: Progress) | Waiting(p: Progress) | Replied(reply: Reply)

  /** Each breaker comes with its history, and each request with its attempts so far. */
  datatype Gateway = Gateway(
    worlds: map<string, BR.World>, requests: map<Request, Phase>, histories: map<Request, seq<Attempt>>, clock: Time)

  datatype Event =
    | Arrive(r: Request, backend: Backend, now: Time)
    | TurnStarts(r: Request, lookup: Option<Backend>, now: Time)
    | TurnEnds(r: Request, response: Option<Response>, now: Time)

  function WorldOf(g: Gateway, id: string, now: Time): BR.World {
    if id in g.worlds then g.worlds[id] else BR.Start(now)
  }

  /** Another turn, or the reply when there is none left. */
  function Settle(retryCount: int, p: Progress): Phase {
    if p.attempt < retryCount + 1 then Ready(p) else Replied(Fallback(p))
  }

  predicate WaitsOn(g: Gateway, r: Request, id: string) {
    r in g.requests && g.requests[r].Waiting? && g.requests[r].p.backend.serviceID == id
  }

  predicate Enabled(g: Gateway, e: Event) {
    && g.clock <= e.now
    && match e
       case Arrive(r, _, _) => r !in g.requests
       case TurnStarts(r, _, _) => r in g.requests && g.requests[r].Ready? && r in g.histories
       case TurnEnds(r, _, _) =>
         r in g.requests && g.requests[r].Waiting? && r in g.histories && g.requests[r].p.backend.serviceID in g.worlds
  }

  function Step(cfg: Config, retryCount: int, g: Gateway, e: Event): Gateway
    requires Enabled(g, e)
  {
    match e
    case Arrive(r, backend, now) =>
      g.(requests := g.requests[r := Settle(retryCount, Begin(backend))], histories := g.histories[r := []], clock := now)
    case TurnStarts(r, lookup, now) =>
      var p := Rerouted(g.requests[r].p, lookup);
      var id := p.backend.serviceID;
      var w := WorldOf(g, id, now);
      var asked := g.(worlds := g.worlds[id := BR.Step(cfg, w, BR.Ask(r, now))], clock := now);
      if Admits(cfg, w.breaker, now) then
        asked.(requests := g.requests[r := Waiting(p)])
      else
        asked.(requests := g.requests[r := Settle(retryCount, AfterRefusal(p))],
               histories := g.histories[r := g.histories[r] + [Refused]])
    case TurnEnds(r, response, now) =>
      var p := g.requests[r].p;
      var id := p.backend.serviceID;
      var attempt := AttemptOf(response);
      var outcome := if Good(attempt) then BR.Succeed(r, now) else BR.Fail(r, now);
      var phase := if Good(attempt) then Replied(Forwarded(attempt.response))
                   else Settle(retryCount, AfterBadForward(p, response));
      Gateway(g.worlds[id := BR.Step(cfg, g.worlds[id], outcome)], g.requests[r := phase],
              g.histories[r := g.histories[r] + [attempt]], now)
  }

  datatype Run = Run(events: seq<Event>, states: seq<Gateway>)

  predicate Moves(cfg: Config, retryCount: int, g: Gateway, e: Event, g': Gateway) {
    Enabled(g, e) && g' == Step(cfg, retryCount, g, e)
  }

  ghost predicate Legal(cfg: Config, retryCount: int, run: Run) {
    && |run.states| == |run.events| + 1
    && run.states[0].worlds == map[] && run.states[0].requests == map[] && run.states[0].histories == map[]
    && forall k | 0 <= k < |run.events| :: Moves(cfg, retryCount, run.states[k], run.events[k], run.states[k + 1])
  }

  // ----- Invariants -----

  /** `w` is where some legal run of the breaker on its own ends. */
  ghost predicate Reached(cfg: Config, w: BR.World) {
    exists run :: BR.Legal(cfg, run) && run.worlds[|run.events|] == w
  }

  lemma {:induction false} StartIsReached(cfg: Config, t0: Time)
    ensures Reached(cfg, BR.Start(t0))
  {
    var run := BR.Run(t0, [], [BR.Start(t0)]);
    assert BR.Legal(cfg, run) && run.worlds[|run.events|] == BR.Start(t0);
  }

  lemma {:induction false} ReachedSteps(cfg: Config, w: BR.World, e: BR.Event)
    requires Reached(cfg, w) && BR.Enabled(w, e)
    ensures Reached(cfg, BR.Step(cfg, w, e))
  {
    var run :| BR.Legal(cfg, run) && run.worlds[|run.events|] == w;
    var w' := BR.Step(cfg, w, e);
    var longer := BR.Extend(cfg, run, e, w');
    assert longer.worlds[|longer.events|] == w';
  }

  ghost predicate BreakerSound(cfg: Config, g: Gateway, id: string) {
    id in g.worlds ==> Reached(cfg, g.worlds[id]) && g.worlds[id].clock <= g.clock
  }

  /** A request is outstanding at a breaker exactly while its loop waits for that backend's answer. */
  predicate FlightsAgree(g: Gateway, id: string, r: Request) {
    WaitsOn(g, r, id) <==> id in g.worlds && r in g.worlds[id].inFlight
  }

  ghost predicate RequestSound(retryCount: int, g: Gateway, r: Request) {
    r in g.requests ==>
      && r in g.histories
      && match g.requests[r]
         case Ready(p) => Tracks(p, g.histories[r]) && p.attempt < retryCount + 1
         case Waiting(p) => Tracks(p, g.histories[r]) && p.attempt < retryCount + 1
         case Replied(reply) => OwedReply(retryCount, g.histories[r], reply)
  }

  lemma InFlightAfter(cfg: Config, w: BR.World, e: BR.Event, r: Request)
    ensures r in BR.Step(cfg, w, e).inFlight <==>
            || (BR.Admitted(cfg, w, e) && e.r == r)
            || (r in w.inFlight && !(BR.Records(e) && e.r == r))
  {
  }

  lemma StepKeepsFlights(cfg: Config, retryCount: int, g: Gateway, e: Event, id: string, r: Request)
    requires Enabled(g, e) && FlightsAgree(g, id, r)
    ensures FlightsAgree(Step(cfg, retryCount, g, e), id, r)
  {
    match e
    case Arrive(_, _, _) =>
    case TurnStarts(q, lookup, now) =>
      var at := Rerouted(g.requests[q].p, lookup).backend.serviceID;
      InFlightAfter(cfg, WorldOf(g, at, now), BR.Ask(q, now), r);
    case TurnEnds(q, response, now) =>
      var at := g.requests[q].p.backend.serviceID;
      InFlightAfter(cfg, g.worlds[at], BR.Succeed(q, now), r);
      InFlightAfter(cfg, g.worlds[at], BR.Fail(q, now), r);
  }

  lemma {:induction false} StepKeepsBreakers(cfg: Config, retryCount: int, g: Gateway, e: Event, id: string)
    requires Enabled(g, e) && BreakerSound(cfg, g, id) && FlightsAgree(g, id, e.r)
    ensures BreakerSound(cfg, Step(cfg, retryCount, g, e), id)
  {
    match e
    case Arrive(_, _, _) =>
    case TurnStarts(r, lookup, now) =>
      if id == Rerouted(g.requests[r].p, lookup).backend.serviceID {
        StartIsReached(cfg, now);
        ReachedSteps(cfg, WorldOf(g, id, now), BR.Ask(r, now));
      }
    case TurnEnds(r, response, now) =>
      if id == g.requests[r].p.backend.serviceID {
        ReachedSteps(cfg, g.worlds[id], if Good(AttemptOf(response)) then BR.Succeed(r, now) else BR.Fail(r, now));
      }
  }

  lemma SettleIsSound(retryCount: int, p: Progress, h: seq<Attempt>)
    requires Tracks(p, h) && p.attempt <= Turns(retryCount)
    ensures match Settle(retryCount, p)
            case Ready(q) => q == p && p.attempt < retryCount + 1
            case Waiting(_) => false
            case Replied(reply) => OwedReply(retryCount, h, reply)
  {
    if retryCount + 1 <= p.attempt {
      FallbackIsOwed(retryCount, p, h);
    }
  }

  lemma StepKeepsRequests(cfg: Config, retryCount: int, g: Gateway, e: Event, r: Request)
    requires Enabled(g, e) && RequestSound(retryCount, g, r)
    ensures RequestSound(retryCount, Step(cfg, retryCount, g, e), r)
  {
    if r == e.r {
      match e
      case Arrive(_, backend, _) =>
        SettleIsSound(retryCount, Begin(backend), []);
      case TurnStarts(_, lookup, _) =>
        var p := Rerouted(g.requests[r].p, lookup);
        RefusalTracks(p, g.histories[r]);
        SettleIsSound(retryCount, AfterRefusal(p), g.histories[r] + [Refused]);
      case TurnEnds(_, response, _) =>
        var p := g.requests[r].p;
        if !Good(AttemptOf(response)) {
          BadTurnTracks(p, g.histories[r], response);
          SettleIsSound(retryCount, AfterBadForward(p, response), g.histories[r] + [AttemptOf(response)]);
        }
    }
  }

  lemma {:induction false} RunInvariants(cfg: Config, retryCount: int, run: Run, k: nat, id: string, r: Request)
    requires Legal(cfg, retryCount, run) && k <= |run.events|
    ensures FlightsAgree(run.states[k], id, r)
    ensures RequestSound(retryCount, run.states[k], r)
  {
    if k != 0 {
      RunInvariants(cfg, retryCount, run, k - 1, id, r);
      assert Moves(cfg, retryCount, run.states[k - 1], run.events[k - 1], run.states[k]);
      StepKeepsFlights(cfg, retryCount, run.states[k - 1], run.events[k - 1], id, r);
      StepKeepsRequests(cfg, retryCount, run.states[k - 1], run.events[k - 1], r);
    }
  }

  // ----- What every interleaving keeps -----

  /** Whatever the gateway's requests do to a breaker is a legal run of that breaker, so all that holds of such runs holds here. */
  lemma {:induction false} BreakersRunLegally(cfg: Config, retryCount: int, run: Run, k: nat, id: string)
    requires Legal(cfg, retryCount, run) && k <= |run.events|
    ensures BreakerSound(cfg, run.states[k], id)
  {
    if k != 0 {
      var g, e := run.states[k - 1], run.events[k - 1];
      BreakersRunLegally(cfg, retryCount, run, k - 1, id);
      RunInvariants(cfg, retryCount, run, k - 1, id, e.r);
      assert Moves(cfg, retryCount, g, e, run.states[k]);
      StepKeepsBreakers(cfg, retryCount, g, e, id);
    }
  }

  /** Every reply ever written is the one owed for the attempts that led to it. */
  lemma {:induction false} RepliesAreOwed(cfg: Config, retryCount: int, run: Run, k: nat, r: Request)
    requires Legal(cfg, retryCount, run) && k <= |run.events|
    requires r in run.states[k].requests && run.states[k].requests[r].Replied?
    ensures r in run.states[k].histories
    ensures OwedReply(retryCount, run.states[k].histories[r], run.states[k].requests[r].reply)
    ensures forall id | id in run.states[k].worlds :: r !in run.states[k].worlds[id].inFlight
  {
    RunInvariants(cfg, retryCount, run, k, "", r);
    forall id | id in run.states[k].worlds
      ensures r !in run.states[k].worlds[id].inFlight
    {
      RunInvariants(cfg, retryCount, run, k, id, r);
    }
  }

  /** No request is ever stuck: until its reply it can start a turn or, while it waits, end one. */
  lemma {:induction false} RequestsCanProceed(
    cfg: Config, retryCount: int, run: Run, k: nat, r: Request, lookup: Option<Backend>, response: Option<Response>, now: Time)
    requires Legal(cfg, retryCount, run) && k <= |run.events| && run.states[k].clock <= now
    requires r in run.states[k].requests && !run.states[k].requests[r].Replied?
    ensures Enabled(run.states[k], TurnStarts(r, lookup, now)) || Enabled(run.states[k], TurnEnds(r, response, now))
  {
    var phase := run.states[k].requests[r];
    RunInvariants(cfg, retryCount, run, k, phase.p.backend.serviceID, r);
  }

  /** With no request waiting on a backend, its breaker refuses only while a break is running. */
  lemma {:induction false} IdleBackendIsAdmitted(cfg: Config, retryCount: int, run: Run, k: nat, id: string, now: Time)
    requires Legal(cfg, retryCount, run) && k <= |run.events| && id in run.states[k].worlds
    requires forall r :: !WaitsOn(run.states[k], r, id)
    ensures var b := run.states[k].worlds[id].breaker;
            Admits(cfg, b, now) <==> (b.state.Open? ==> Elapsed(cfg, b, now))
  {
    var w := run.states[k].worlds[id];
    BreakersRunLegally(cfg, retryCount, run, k, id);
    var own :| BR.Legal(cfg, own) && own.worlds[|own.events|] == w;
    assert w.inFlight == map[] by {
      forall r ensures r !in w.inFlight {
        RunInvariants(cfg, retryCount, run, k, id, r);
      }
    }
    BR.NoLostProbeSlot(cfg, own, |own.events|, now);
  }

  /** The gateway's breakers recover after one success, so here the outcome log alone decides under every interleaving whether they are closed. */
  lemma {:induction false} BreakersFollowLog(cfg: Config, retryCount: int, run: Run, k: nat, id: string)
    requires Legal(cfg, retryCount, run) && k <= |run.events| && id in run.states[k].worlds
    requires cfg.recoveryThreshold == 1
    ensures BR.FollowsLog(cfg, run.states[k].worlds[id])
  {
    BreakersRunLegally(cfg, retryCount, run, k, id);
    var own :| BR.Legal(cfg, own) && own.worlds[|own.events|] == run.states[k].worlds[id];
    BR.FollowsLogUpTo(cfg, own, |own.events|);
  }

  // ----- Breaks -----

  predicate OpenAt(g: Gateway, id: string) {
    id in g.worlds && g.worlds[id].breaker.state.Open?
  }

  /** The event sends a request to backend `id`. */
  predicate Forwards(cfg: Config, g: Gateway, e: Event, id: string)
    requires Enabled(g, e)
  {
    && e.TurnStarts? && Rerouted(g.requests[e.r].p, e.lookup).backend.serviceID == id
    && Admits(cfg, WorldOf(g, id, e.now).breaker, e.now)
  }

  /** A good response comes from a backend whose breaker has opened meanwhile. */
  predicate LateGood(g: Gateway, e: Event, id: string) {
    e.TurnEnds? && WaitsOn(g, e.r, id) && OpenAt(g, id) && Good(AttemptOf(e.response))
  }

  lemma {:induction false} StepDuringBreak(cfg: Config, retryCount: int, g: Gateway, e: Event, id: string)
    requires Enabled(g, e) && OpenAt(g, id) && FlightsAgree(g, id, e.r) && g.worlds[id].clock <= g.clock
    requires BR.Timed(cfg, g.worlds[id].breaker, g.worlds[id].clock) && !Elapsed(cfg, g.worlds[id].breaker, e.now)
    ensures !Forwards(cfg, g, e, id)
    ensures var g' := Step(cfg, retryCount, g, e);
            && id in g'.worlds && g.worlds[id].breaker.openedAt <= g'.worlds[id].breaker.openedAt
            && (OpenAt(g', id) <==> !LateGood(g, e, id))
  {
    match e
    case Arrive(_, _, _) =>
    case TurnStarts(r, lookup, now) =>
      BR.StepDuringBreak(cfg, g.worlds[id], BR.Ask(r, now));
    case TurnEnds(r, response, now) =>
      if WaitsOn(g, r, id) {
        BR.StepDuringBreak(cfg, g.worlds[id], if Good(AttemptOf(response)) then BR.Succeed(r, now) else BR.Fail(r, now));
      }
  }

  lemma {:induction false} RunDuringBreak(cfg: Config, retryCount: int, run: Run, k: nat, id: string)
    requires Legal(cfg, retryCount, run) && k < |run.events| && OpenAt(run.states[k], id)
    requires !Elapsed(cfg, run.states[k].worlds[id].breaker, run.events[k].now)
    ensures Enabled(run.states[k], run.events[k]) && !Forwards(cfg, run.states[k], run.events[k], id)
    ensures id in run.states[k + 1].worlds
    ensures run.states[k].worlds[id].breaker.openedAt <= run.states[k + 1].worlds[id].breaker.openedAt
    ensures OpenAt(run.states[k + 1], id) <==> !LateGood(run.states[k], run.events[k], id)
  {
    assert Moves(cfg, retryCount, run.states[k], run.events[k], run.states[k + 1]);
    RunInvariants(cfg, retryCount, run, k, id, run.events[k].r);
    BreakersRunLegally(cfg, retryCount, run, k, id);
    var own :| BR.Legal(cfg, own) && own.worlds[|own.events|] == run.states[k].worlds[id];
    BR.RunInv(cfg, own, |own.events|);
    StepDuringBreak(cfg, retryCount, run.states[k], run.events[k], id);
  }

  ghost predicate NoLateGood(run: Run, i: nat, j: nat, id: string)
    requires i <= j <= |run.events| < |run.states|
  {
    forall k | i <= k < j :: !LateGood(run.states[k], run.events[k], id)
  }

  ghost predicate OpenThroughout(run: Run, i: nat, j: nat, id: string)
    requires i <= j < |run.states|
  {
    forall k | i <= k <= j :: OpenAt(run.states[k], id)
  }

  lemma {:induction false} ClockMoves(cfg: Config, retryCount: int, run: Run, i: nat, j: nat)
    requires Legal(cfg, retryCount, run) && i <= j <= |run.events|
    ensures run.states[i].clock <= run.states[j].clock
    ensures i < j ==> run.events[j - 1].now == run.states[j].clock
  {
    if i < j {
      ClockMoves(cfg, retryCount, run, i, j - 1);
      assert Moves(cfg, retryCount, run.states[j - 1], run.events[j - 1], run.states[j - 1 + 1]);
    }
  }

  lemma {:induction false} OpenSoFar(cfg: Config, retryCount: int, run: Run, i: nat, j: nat, id: string)
    requires Legal(cfg, retryCount, run) && i <= j <= |run.events| && OpenAt(run.states[i], id)
    requires run.states[j].clock < run.states[i].worlds[id].breaker.openedAt + cfg.breakDuration && NoLateGood(run, i, j, id)
    ensures OpenThroughout(run, i, j, id)
    ensures run.states[i].worlds[id].breaker.openedAt <= run.states[j].worlds[id].breaker.openedAt
    ensures i < j ==> Enabled(run.states[j - 1], run.events[j - 1]) && !Forwards(cfg, run.states[j - 1], run.events[j - 1], id)
  {
    if i < j {
      ClockMoves(cfg, retryCount, run, j - 1, j);
      OpenSoFar(cfg, retryCount, run, i, j - 1, id);
      RunDuringBreak(cfg, retryCount, run, j - 1, id);
    }
  }

  lemma {:induction false} LateGoodCloses(cfg: Config, retryCount: int, run: Run, k: nat, id: string)
    requires Legal(cfg, retryCount, run) && k < |run.events| && LateGood(run.states[k], run.events[k], id)
    ensures !OpenAt(run.states[k + 1], id)
  {
    assert Moves(cfg, retryCount, run.states[k], run.events[k], run.states[k + 1]);
  }

  /**
   Under every interleaving an open breaker stays open for its whole break if and only if no request waiting on its backend
   gets a good response in it, and until one does, nothing is sent to that backend.
   */
  lemma {:induction false} BreaksAreKept(cfg: Config, retryCount: int, run: Run, i: nat, j: nat, id: string)
    requires Legal(cfg, retryCount, run) && i <= j <= |run.events| && OpenAt(run.states[i], id)
    requires run.states[j].clock < run.states[i].worlds[id].breaker.openedAt + cfg.breakDuration
    ensures OpenThroughout(run, i, j, id) <==> NoLateGood(run, i, j, id)
    ensures NoLateGood(run, i, j, id) ==>
              forall k | i <= k < j :: Enabled(run.states[k], run.events[k]) && !Forwards(cfg, run.states[k], run.events[k], id)
  {
    if NoLateGood(run, i, j, id) {
      OpenSoFar(cfg, retryCount, run, i, j, id);
      forall k | i <= k < j
        ensures Enabled(run.states[k], run.events[k]) && !Forwards(cfg, run.states[k], run.events[k], id)
      {
        ClockMoves(cfg, retryCount, run, k + 1, j);
        OpenSoFar(cfg, retryCount, run, i, k + 1, id);
      }
    } else {
      var k :| i <= k < j && LateGood(run.states[k], run.events[k], id);
      LateGoodCloses(cfg, retryCount, run, k, id);
    }
  }

  lemma {:induction false} Extend(cfg: Config, retryCount: int, run: Run, e: Event) returns (longer: Run)
    requires Legal(cfg, retryCount, run) && Enabled(run.states[|run.events|], e)
    ensures Legal(cfg, retryCount, longer)
    ensures longer == Run(run.events + [e], run.states + [Step(cfg, retryCount, run.states[|run.events|], e)])
  {
    longer := Run(run.events + [e], run.states + [Step(cfg, retryCount, run.states[|run.events|], e)]);
    forall k | 0 <= k < |longer.events|
      ensures Moves(cfg, retryCount, longer.states[k], longer.events[k], longer.states[k + 1])
    {
      if k < |run.events| {
        assert Moves(cfg, retryCount, run.states[k], run.events[k], run.states[k + 1]);
      }
    }
  }

  /** Two requests are sent to one backend at time 0. */
  lemma {:induction false} TwoRequestsOut(cfg: Config, retryCount: int, backend: Backend) returns (run: Run)
    requires 0 <= retryCount
    ensures Legal(cfg, retryCount, run)
    ensures run.events == [Arrive(0, backend, 0), Arrive(1, backend, 0), TurnStarts(0, None, 0), TurnStarts(1, None, 0)]
    ensures var g, p := run.states[4], Begin(backend);
            && g.requests == map[0 := Waiting(p), 1 := Waiting(p)] && g.histories == map[0 := [], 1 := []] && g.clock == 0
            && g.worlds == map[backend.serviceID := BR.World(FRESH, map[0 := BR.WhileClosed, 1 := BR.WhileClosed], None, [], 0)]
  {
    run := Run([], [Gateway(map[], map[], map[], 0)]);
    run := Extend(cfg, retryCount, run, Arrive(0, backend, 0));
    run := Extend(cfg, retryCount, run, Arrive(1, backend, 0));
    assert run.states[2] == Gateway(map[], map[0 := Ready(Begin(backend)), 1 := Ready(Begin(backend))], map[0 := [], 1 := []], 0);
    run := Extend(cfg, retryCount, run, TurnStarts(0, None, 0));
    run := Extend(cfg, retryCount, run, TurnStarts(1, None, 0));
  }

  /**
   A gateway run with a break cut short: two requests are out, one fails and opens the breaker at 1, the other gets its
   response at 2, and at 3 a third request is sent to the backend although the break lasts longer.
   */
  lemma {:induction false} GoodResponseCutsBreakShort(cfg: Config, retryCount: int, backend: Backend, ok: Response) returns (run: Run)
    requires 0 <= retryCount && ok.statusCode < 500 && cfg.failureThreshold <= 1 && 2 < cfg.breakDuration
    ensures Legal(cfg, retryCount, run)
    ensures run.events == [Arrive(0, backend, 0), Arrive(1, backend, 0), TurnStarts(0, None, 0), TurnStarts(1, None, 0),
                           TurnEnds(0, None, 1), TurnEnds(1, Some(ok), 2), Arrive(2, backend, 3), TurnStarts(2, None, 3)]
    ensures OpenAt(run.states[5], backend.serviceID) && run.states[5].worlds[backend.serviceID].breaker.openedAt == 1
    ensures Enabled(run.states[7], run.events[7]) && Forwards(cfg, run.states[7], run.events[7], backend.serviceID)
    ensures 3 < 1 + cfg.breakDuration
  {
    var id := backend.serviceID;
    run := TwoRequestsOut(cfg, retryCount, backend);
    run := Extend(cfg, retryCount, run, TurnEnds(0, None, 1));
    assert map[0 := BR.WhileClosed, 1 := BR.WhileClosed] - {0} == map[1 := BR.WhileClosed];
    assert run.states[5].worlds[id].breaker == Breaker(Open, 1, 0, 1, false) && WaitsOn(run.states[5], 1, id);
    run := Extend(cfg, retryCount, run, TurnEnds(1, Some(ok), 2));
    assert run.states[6].worlds[id].breaker == Breaker(Closed, 0, 0, 1, false) && 2 !in run.states[6].requests;
    run := Extend(cfg, retryCount, run, Arrive(2, backend, 3));
    assert run.states[7].requests[2] == Ready(Begin(backend));
    run := Extend(cfg, retryCount, run, TurnStarts(2, None, 3));
  }
}
