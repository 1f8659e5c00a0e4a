/** The retry loop and the breaker map of internal/gateway/proxy.go. */
module Proxies {
  import opened Common
  import opened Breakers
  import BR = BreakerRuns

  datatype Backend = Backend(serviceID: string, address: string)

  datatype Response = Response(statusCode: int, body: string)

  /** How one turn of the loop ended: no admission, a response from upstream, or no response at all. */
  datatype Attempt = Refused | Answered(response: Response) | Broken

  datatype Reply = Forwarded(response: Response) | Error(status: int)

  /** The routing table's answer for the request: no service in the path, no backend, or one. */
  datatype Route = NoService | NoBackend | To(backend: Backend)

  predicate Good(a: Attempt) {
    a.Answered? && a.response.statusCode < 500
  }

  /** The turns the loop may take. */
  function Turns(retryCount: int): nat {
    Max(0, retryCount + 1)
  }

  // ----- What the client must get -----

  /** Response `i` is the last one received in `h`. */
  predicate LastAnswer(h: seq<Attempt>, i: int) {
    0 <= i < |h| && h[i].Answered? && forall j | i < j < |h| :: !h[j].Answered?
  }

  /**
   The reply owed for a history of attempts: the first response below 500, which ends the loop; else, after all
   turns, the last response received; else 503 if a breaker refused some attempt; else 502.
   */
  ghost predicate OwedReply(retryCount: int, h: seq<Attempt>, reply: Reply) {
    && |h| <= Turns(retryCount)
    && (forall i | 0 <= i < |h| - 1 :: !Good(h[i]))
    && if h != [] && Good(h[|h| - 1]) then reply == Forwarded(h[|h| - 1].response)
       else
         && |h| == Turns(retryCount)
         && (forall i | LastAnswer(h, i) :: reply == Forwarded(h[i].response))
         && ((forall i | 0 <= i < |h| :: !h[i].Answered?) ==> reply == Error(if Refused in h then 503 else 502))
  }

  lemma {:induction false} FindLastAnswer(h: seq<Attempt>) returns (i: nat)
    requires exists k :: 0 <= k < |h| && h[k].Answered?
    ensures LastAnswer(h, i)
  {
    var n := |h| - 1;
    if h[n].Answered? {
      i := n;
    } else {
      var k :| 0 <= k < |h| && h[k].Answered?;
      assert h[..n][k].Answered?;
      i := FindLastAnswer(h[..n]);
    }
  }

  /** Every history of a finished request owes exactly one reply. */
  lemma OwedReplyIsUnique(retryCount: int, h: seq<Attempt>, one: Reply, other: Reply)
    requires OwedReply(retryCount, h, one) && OwedReply(retryCount, h, other)
    ensures one == other
  {
    if exists i :: 0 <= i < |h| && h[i].Answered? {
      var i := FindLastAnswer(h);
    }
  }

  /** A request that gets no response below 500 is tried once and then retried `retryCount` times. */
  lemma {:induction false} RetriesAreUsedUp(retryCount: nat, h: seq<Attempt>, reply: Reply)
    requires OwedReply(retryCount, h, reply)
    requires forall i | 0 <= i < |h| :: !(h[i].Answered? && h[i].response.statusCode < 500)
    ensures |h| == retryCount + 1
  {
    assert h != [] ==> !Good(h[|h| - 1]);
  }

  // ----- The loop's variables -----

  datatype Progress = Progress(attempt: nat, backend: Backend, lastStatus: int, lastResp: Option<Response>)

  function Begin(backend: Backend): Progress {
    Progress(0, backend, 0, None)
  }

  /** A turn after the first looks the route up again and keeps the old backend if there is none. */
  function Rerouted(p: Progress, lookup: Option<Backend>): Progress {
    if 0 < p.attempt && lookup.Some? then p.(backend := lookup.value) else p
  }

  function AfterRefusal(p: Progress): Progress {
    p.(attempt := p.attempt + 1, lastStatus := 503)
  }

  function AfterBadForward(p: Progress, response: Option<Response>): Progress {
    if response.None? then p.(attempt := p.attempt + 1)
    else p.(attempt := p.attempt + 1, lastStatus := response.value.statusCode, lastResp := response)
  }

  function AttemptOf(response: Option<Response>): Attempt {
    if response.None? then Broken else Answered(response.value)
  }

  /** What is written when all turns are used up. */
  function Fallback(p: Progress): Reply {
    if p.lastResp.Some? then Forwarded(p.lastResp.value)
    else Error(if p.lastStatus == 0 then 502 else p.lastStatus)
  }

  /** The loop's variables after the turns `h`, none of which was good. */
  ghost predicate Tracks(p: Progress, h: seq<Attempt>) {
    && p.attempt == |h|
    && (forall i | 0 <= i < |h| :: !Good(h[i]))
    && (forall i | LastAnswer(h, i) :: p.lastResp == Some(h[i].response))
    && (p.lastResp.Some? ==> exists i :: 0 <= i < |h| && h[i].Answered?)
    && (p.lastResp.None? ==> p.lastStatus == if Refused in h then 503 else 0)
  }

  lemma BadTurnTracks(p: Progress, h: seq<Attempt>, response: Option<Response>)
    requires Tracks(p, h) && !Good(AttemptOf(response))
    ensures Tracks(AfterBadForward(p, response), h + [AttemptOf(response)])
  {
    var h' := h + [AttemptOf(response)];
    if response.Some? {
      assert h'[|h|].Answered?;
    } else {
      forall i | LastAnswer(h', i) ensures LastAnswer(h, i) {
        assert forall j | i < j < |h| :: h'[j] == h[j];
      }
      if p.lastResp.Some? {
        var i :| 0 <= i < |h| && h[i].Answered?;
        assert h'[i].Answered?;
      }
    }
  }

  lemma RefusalTracks(p: Progress, h: seq<Attempt>)
    requires Tracks(p, h)
    ensures Tracks(AfterRefusal(p), h + [Refused])
  {
    var h' := h + [Refused];
    forall i | LastAnswer(h', i) ensures LastAnswer(h, i) {
      assert forall j | i < j < |h| :: h'[j] == h[j];
    }
    if p.lastResp.Some? {
      var i :| 0 <= i < |h| && h[i].Answered?;
      assert h'[i].Answered?;
    }
    assert h'[|h|] == Refused;
  }

  lemma FallbackIsOwed(retryCount: int, p: Progress, h: seq<Attempt>)
    requires Tracks(p, h) && |h| == Turns(retryCount)
    ensures OwedReply(retryCount, h, Fallback(p))
  {
    if p.lastResp.Some? {
      var i := FindLastAnswer(h);
    }
  }

  // ----- One request on its own -----

  /** What the world does during one turn: the route looked up, the upstream's answer, and the clock at both breaker calls. */
  datatype Turn = Turn(lookup: Option<Backend>, askedAt: Time, response: Option<Response>, endedAt: Time)

  /** A turn as it went: the backend whose breaker was asked, and how the attempt ended. */
  datatype Done = Done(id: string, askedAt: Time, attempt: Attempt, endedAt: Time)

  /** The breaker of the turn's backend is asked, and told one outcome if and only if it admitted the attempt. */
  function AfterTurn(cfg: Config, breakers: BreakerMap, d: Done): BreakerMap {
    var asked := AfterAllow(cfg, ValueOf(breakers, d.id), d.askedAt);
    breakers[d.id := if d.attempt.Refused? then asked
                     else Told(cfg, asked, Good(d.attempt), d.endedAt)]
  }

  function AfterTurns(cfg: Config, breakers: BreakerMap, done: seq<Done>): BreakerMap {
    if done == [] then breakers
    else AfterTurn(cfg, AfterTurns(cfg, breakers, done[..|done| - 1]), done[|done| - 1])
  }

  predicate Truthful(cfg: Config, breakers: BreakerMap, d: Done) {
    d.attempt.Refused? <==> !Admits(cfg, ValueOf(breakers, d.id), d.askedAt)
  }

  /** Attempts are refused exactly when the breaker asked says so. */
  ghost predicate AllTruthful(cfg: Config, breakers: BreakerMap, done: seq<Done>) {
    forall i | 0 <= i < |done| :: Truthful(cfg, AfterTurns(cfg, breakers, done[..i]), done[i])
  }

  function Attempts(done: seq<Done>): seq<Attempt> {
    if done == [] then [] else Attempts(done[..|done| - 1]) + [done[|done| - 1].attempt]
  }

  lemma {:induction false} OneMoreTurn(cfg: Config, breakers: BreakerMap, done: seq<Done>, d: Done)
    requires AllTruthful(cfg, breakers, done) && Truthful(cfg, AfterTurns(cfg, breakers, done), d)
    ensures AllTruthful(cfg, breakers, done + [d])
    ensures AfterTurns(cfg, breakers, done + [d]) == AfterTurn(cfg, AfterTurns(cfg, breakers, done), d)
    ensures Attempts(done + [d]) == Attempts(done) + [d.attempt]
  {
    var longer := done + [d];
    assert longer[..|done|] == done;
    forall i | 0 <= i < |longer|
      ensures Truthful(cfg, AfterTurns(cfg, breakers, longer[..i]), longer[i])
    {
      if i < |done| {
        assert longer[..i] == done[..i];
      }
    }
  }

  /** The backend of turn `i`: the one last found by a lookup. */
  function BackendAt(first: Backend, turns: seq<Turn>, i: nat): Backend
    requires i < |turns|
  {
    if i == 0 then first
    else if turns[i].lookup.Some? then turns[i].lookup.value
    else BackendAt(first, turns, i - 1)
  }

  /** Turn `i` asks the breaker of its own backend at its own time and ends as the upstream answered, unless it is refused. */
  predicate FollowsAt(first: Backend, turns: seq<Turn>, d: Done, i: nat)
    requires i < |turns|
  {
    && d.id == BackendAt(first, turns, i).serviceID
    && d.askedAt == turns[i].askedAt && d.endedAt == turns[i].endedAt
    && (d.attempt.Refused? || d.attempt == AttemptOf(turns[i].response))
  }

  predicate Follows(first: Backend, turns: seq<Turn>, done: seq<Done>) {
    |done| <= |turns| && forall i | 0 <= i < |done| :: FollowsAt(first, turns, done[i], i)
  }

  /** The turns `done`, taken from a table that held `before`, have brought the loop to turn `n`, last at `backend`. */
  ghost predicate Underway(
    cfg: Config, before: BreakerMap, first: Backend, turns: seq<Turn>, n: nat, backend: Backend, done: seq<Done>)
  {
    && n == |done| && Follows(first, turns, done)
    && backend == (if n == 0 then first else BackendAt(first, turns, n - 1))
    && AllTruthful(cfg, before, done)
  }

  /** What the loop must have done by the time it writes `reply`. */
  ghost predicate Served(
    cfg: Config, before: BreakerMap, retryCount: int, first: Backend, turns: seq<Turn>,
    done: seq<Done>, reply: Reply, after: BreakerMap)
  {
    && Follows(first, turns, done)
    && AllTruthful(cfg, before, done)
    && after == AfterTurns(cfg, before, done)
    && OwedReply(retryCount, Attempts(done), reply)
  }

  lemma {:induction false} TurnFollows(
    cfg: Config, before: BreakerMap, first: Backend, turns: seq<Turn>, p: Progress, done: seq<Done>, d: Done)
    requires p.attempt < |turns| && Underway(cfg, before, first, turns, p.attempt, p.backend, done)
    requires FollowsAt(Rerouted(p, turns[p.attempt].lookup).backend, [turns[p.attempt]], d, 0)
    requires Truthful(cfg, AfterTurns(cfg, before, done), d)
    ensures Underway(cfg, before, first, turns, p.attempt + 1, Rerouted(p, turns[p.attempt].lookup).backend, done + [d])
    ensures AfterTurns(cfg, before, done + [d]) == AfterTurn(cfg, AfterTurns(cfg, before, done), d)
    ensures Attempts(done + [d]) == Attempts(done) + [d.attempt]
  {
    OneMoreTurn(cfg, before, done, d);
    assert FollowsAt(first, turns, d, |done|);
  }

  function AfterBadTurn(p: Progress, attempt: Attempt, response: Option<Response>): Progress {
    if attempt.Refused? then AfterRefusal(p) else AfterBadForward(p, response)
  }

  lemma {:induction false} BadTurnTracksOn(p: Progress, h: seq<Attempt>, attempt: Attempt, response: Option<Response>, h': seq<Attempt>)
    requires Tracks(p, h) && !Good(attempt) && (attempt.Refused? || attempt == AttemptOf(response)) && h' == h + [attempt]
    ensures Tracks(AfterBadTurn(p, attempt, response), h')
  {
    if attempt.Refused? {
      RefusalTracks(p, h);
    } else {
      BadTurnTracks(p, h, response);
    }
  }

  /** The loop stands at `p` after the turns `done`, which left the table at `now`. */
  ghost predicate Looping(
    cfg: Config, before: BreakerMap, retryCount: int, first: Backend, turns: seq<Turn>,
    p: Progress, done: seq<Done>, now: BreakerMap)
  {
    && p.attempt <= Turns(retryCount) <= |turns|
    && Underway(cfg, before, first, turns, p.attempt, p.backend, done)
    && Tracks(p, Attempts(done))
    && now == AfterTurns(cfg, before, done)
  }

  /** `d` is how the turn of a loop at `p` goes on a table at `now`. */
  ghost predicate NextTurn(cfg: Config, turn: Turn, p: Progress, now: BreakerMap, d: Done) {
    FollowsAt(Rerouted(p, turn.lookup).backend, [turn], d, 0) && Truthful(cfg, now, d)
  }

  lemma {:induction false} GoodTurnEnds(retryCount: int, p: Progress, h: seq<Attempt>, last: Attempt, h': seq<Attempt>)
    requires Tracks(p, h) && p.attempt < Turns(retryCount) && Good(last) && h' == h + [last]
    ensures OwedReply(retryCount, h', Forwarded(last.response))
  {
  }

  lemma {:induction false} GoodTurnServes(
    cfg: Config, before: BreakerMap, retryCount: int, first: Backend, turns: seq<Turn>,
    p: Progress, done: seq<Done>, now: BreakerMap, d: Done)
    requires Looping(cfg, before, retryCount, first, turns, p, done, now) && p.attempt < Turns(retryCount)
    requires NextTurn(cfg, turns[p.attempt], p, now, d) && Good(d.attempt)
    ensures Served(cfg, before, retryCount, first, turns, done + [d], Forwarded(d.attempt.response), AfterTurn(cfg, now, d))
  {
    TurnFollows(cfg, before, first, turns, p, done, d);
    GoodTurnEnds(retryCount, p, Attempts(done), d.attempt, Attempts(done + [d]));
  }

  lemma {:induction false} BadTurnLoops(
    cfg: Config, before: BreakerMap, retryCount: int, first: Backend, turns: seq<Turn>,
    p: Progress, done: seq<Done>, now: BreakerMap, d: Done, p': Progress)
    requires Looping(cfg, before, retryCount, first, turns, p, done, now) && p.attempt < Turns(retryCount)
    requires NextTurn(cfg, turns[p.attempt], p, now, d) && !Good(d.attempt)
    requires p' == AfterBadTurn(Rerouted(p, turns[p.attempt].lookup), d.attempt, turns[p.attempt].response)
    ensures Looping(cfg, before, retryCount, first, turns, p', done + [d], AfterTurn(cfg, now, d))
  {
    TurnFollows(cfg, before, first, turns, p, done, d);
    assert p'.attempt == p.attempt + 1 && p'.backend == Rerouted(p, turns[p.attempt].lookup).backend;
    assert Tracks(p', Attempts(done + [d])) by {
      BadTurnTracksOn(Rerouted(p, turns[p.attempt].lookup), Attempts(done), d.attempt, turns[p.attempt].response, Attempts(done + [d]));
    }
  }

  lemma {:induction false} FallbackServes(
    cfg: Config, before: BreakerMap, retryCount: int, first: Backend, turns: seq<Turn>,
    p: Progress, done: seq<Done>, now: BreakerMap)
    requires Looping(cfg, before, retryCount, first, turns, p, done, now) && p.attempt == Turns(retryCount)
    ensures Served(cfg, before, retryCount, first, turns, done, Fallback(p), now)
  {
    FallbackIsOwed(retryCount, p, Attempts(done));
  }

  // ----- What a request does to the breakers -----

  /** A turn is the calls of one request on one breaker: a response below 500 is a success, anything else a failure. */
  lemma {:induction false} TurnIsRequest(cfg: Config, breakers: BreakerMap, d: Done, w: BR.World, r: BR.Request)
    requires Truthful(cfg, breakers, d) && w.breaker == ValueOf(breakers, d.id)
    ensures var asked := BR.Step(cfg, w, BR.Ask(r, d.askedAt));
            AfterTurn(cfg, breakers, d)[d.id] ==
            match d.attempt
            case Refused => asked.breaker
            case Broken => BR.Step(cfg, asked, BR.Fail(r, d.endedAt)).breaker
            case Answered(response) =>
              if response.statusCode < 500 then BR.Step(cfg, asked, BR.Succeed(r, d.endedAt)).breaker
              else BR.Step(cfg, asked, BR.Fail(r, d.endedAt)).breaker
    ensures AfterTurn(cfg, breakers, d).Keys == breakers.Keys + {d.id}
    ensures forall id | id in breakers && id != d.id :: AfterTurn(cfg, breakers, d)[id] == breakers[id]
  {
  }

  /** The outcome a turn at backend `id` has, if it was let through. */
  function OutcomeTo(d: Done, id: string): seq<BR.Outcome> {
    if d.id != id || d.attempt.Refused? then []
    else if d.attempt.Answered? && d.attempt.response.statusCode < 500 then [BR.Good]
    else [BR.Bad]
  }

  function OutcomesTo(done: seq<Done>, id: string): seq<BR.Outcome> {
    if done == [] then [] else OutcomesTo(done[..|done| - 1], id) + OutcomeTo(done[|done| - 1], id)
  }

  /** The last reading of the clock in a turn. */
  function EndOf(d: Done): Time {
    if d.attempt.Refused? then d.askedAt else d.endedAt
  }

  function LastReading(done: seq<Done>, start: Time): Time {
    if done == [] then start else EndOf(done[|done| - 1])
  }

  /** From `start` on, the clock does not go back. */
  ghost predicate InOrder(done: seq<Done>, start: Time) {
    forall i | 0 <= i < |done| :: LastReading(done[..i], start) <= done[i].askedAt <= EndOf(done[i])
  }

  lemma {:induction false} TurnExtendsRun(
    cfg: Config, t0: Time, breakers: BreakerMap, d: Done, id: string, log: seq<BR.Outcome>, last: Time)
    requires BR.HasRun(cfg, t0, ValueOf(breakers, id), log, last)
    requires Truthful(cfg, breakers, d) && last <= d.askedAt <= EndOf(d)
    ensures BR.HasRun(cfg, t0, ValueOf(AfterTurn(cfg, breakers, d), id), log + OutcomeTo(d, id), EndOf(d))
  {
    assert log + [] == log;
    if d.id == id {
      BR.RequestExtendsRun(cfg, t0, ValueOf(breakers, id), log, last, d.askedAt,
                           d.attempt.Answered? && d.attempt.response.statusCode < 500, d.endedAt);
    } else {
      BR.HasRunLater(cfg, t0, ValueOf(breakers, id), log, last, EndOf(d));
    }
  }

  lemma {:induction false} TurnsBefore(cfg: Config, before: BreakerMap, done: seq<Done>, start: Time)
    requires done != [] && AllTruthful(cfg, before, done) && InOrder(done, start)
    ensures var most, d := done[..|done| - 1], done[|done| - 1];
            && AllTruthful(cfg, before, most) && Truthful(cfg, AfterTurns(cfg, before, most), d)
            && InOrder(most, start) && LastReading(most, start) <= d.askedAt <= EndOf(d)
  {
    var most := done[..|done| - 1];
    assert forall i | 0 <= i < |most| :: most[..i] == done[..i] && most[i] == done[i];
  }

  /**
   The turns of a request carry every breaker of the table from the end of one legal run, with one request at a time, to
   the end of a longer one, whose further outcomes are those of the turns at its backend.
   */
  lemma {:induction false} TurnsExtendRuns(
    cfg: Config, t0: Time, before: BreakerMap, done: seq<Done>, id: string, log: seq<BR.Outcome>, start: Time)
    requires BR.HasRun(cfg, t0, ValueOf(before, id), log, start) && AllTruthful(cfg, before, done) && InOrder(done, start)
    ensures BR.HasRun(cfg, t0, ValueOf(AfterTurns(cfg, before, done), id), log + OutcomesTo(done, id), LastReading(done, start))
  {
    if done == [] {
      assert log + [] == log;
    } else {
      var n := |done| - 1;
      var most, d := done[..n], done[n];
      TurnsBefore(cfg, before, done, start);
      TurnsExtendRuns(cfg, t0, before, most, id, log, start);
      TurnExtendsRun(cfg, t0, AfterTurns(cfg, before, most), d, id, log + OutcomesTo(most, id), LastReading(most, start));
      assert log + OutcomesTo(most, id) + OutcomeTo(d, id) == log + OutcomesTo(done, id);
    }
  }

  /** Hence what a served request leaves of a breaker is decided by its outcomes, and a failing backend gets only so many requests. */
  lemma {:induction false} ServedBreakersFollowLog(
    cfg: Config, before: BreakerMap, retryCount: int, first: Backend, turns: seq<Turn>, done: seq<Done>, reply: Reply, after: BreakerMap,
    id: string, t0: Time, log: seq<BR.Outcome>, start: Time)
    requires Served(cfg, before, retryCount, first, turns, done, reply, after) && InOrder(done, start)
    requires BR.HasRun(cfg, t0, ValueOf(before, id), log, start)
    ensures var log' := log + OutcomesTo(done, id);
            && (ValueOf(after, id).state.Closed? <==> !BR.TrippedByLog(cfg, log'))
            && ValueOf(after, id).failureCount == BR.TrailingFailures(log')
            && ((forall i | 0 <= i < |log'| :: log'[i].Bad?) ==>
                  |log'| <= TripCount(cfg) || (|log'| - TripCount(cfg)) * cfg.breakDuration <= LastReading(done, start) - t0)
  {
    var log', last := log + OutcomesTo(done, id), LastReading(done, start);
    TurnsExtendRuns(cfg, t0, before, done, id, log, start);
    BR.LoneRunFollowsLog(cfg, t0, ValueOf(after, id), log', last);
    if forall i | 0 <= i < |log'| :: log'[i].Bad? {
      BR.LoneRunBound(cfg, t0, ValueOf(after, id), log', last);
    }
  }

  class Proxy {
    const retryCount: int
    const table: BreakerTable

    constructor (retryCount: int, threshold: int, duration: Time)
      ensures this.retryCount == retryCount && fresh(table)
      ensures table.Valid() && table.objects == {} && table.Contents() == map[]
      ensures table.settings == Config(threshold, 1, duration)
    {
      this.retryCount := retryCount;
      table := new BreakerTable(threshold, 1, duration);
    }

    /** `turns` is what the world does in each turn the loop may take, `done` the turns it took. */
    method ServeHTTP(route: Route, turns: seq<Turn>) returns (reply: Reply, done: seq<Done>)
      requires table.Valid() && Turns(retryCount) <= |turns|
      modifies table, table.objects
      ensures table.Valid() && fresh(table.objects - old(table.objects))
      ensures route.To? ==>
                Served(table.settings, old(table.Contents()), retryCount, route.backend, turns, done, reply, table.Contents())
      ensures !route.To? ==> reply == Error(if route.NoService? then 404 else 502) && done == []
      ensures !route.To? ==> table.Contents() == old(table.Contents())
    {
      if route.NoService? {
        return Error(404), [];
      }
      if route.NoBackend? {
        return Error(502), [];
      }
      reply, done := Retry(route.backend, turns);
    }

    /** The retry loop. */
    method Retry(first: Backend, turns: seq<Turn>) returns (reply: Reply, done: seq<Done>)
      requires table.Valid() && Turns(retryCount) <= |turns|
      modifies table, table.objects
      ensures table.Valid() && fresh(table.objects - old(table.objects))
      ensures Served(table.settings, old(table.Contents()), retryCount, first, turns, done, reply, table.Contents())
    {
      ghost var before := table.Contents();
      ghost var now := before;
      var p := Begin(first);
      done := [];
      while p.attempt < retryCount + 1
        invariant table.Valid() && fresh(table.objects - old(table.objects)) && table.Contents() == now
        invariant Looping(table.settings, before, retryCount, first, turns, p, done, now)
        decreases Turns(retryCount) - p.attempt
      {
        var turn := turns[p.attempt];
        var d := TakeTurn(Rerouted(p, turn.lookup).backend.serviceID, turn);
        if Good(d.attempt) {
          GoodTurnServes(table.settings, before, retryCount, first, turns, p, done, now, d);
          return Forwarded(d.attempt.response), done + [d];
        }
        var next := AfterBadTurn(Rerouted(p, turn.lookup), d.attempt, turn.response);
        BadTurnLoops(table.settings, before, retryCount, first, turns, p, done, now, d, next);
        p, done, now := next, done + [d], AfterTurn(table.settings, now, d);
      }
      FallbackServes(table.settings, before, retryCount, first, turns, p, done, now);
      reply := Fallback(p);
    }

    /** The breaker check, the forward, and the recording of its outcome. */
    method TakeTurn(id: string, turn: Turn) returns (d: Done)
      requires table.Valid()
      modifies table, table.objects
      ensures table.Valid() && fresh(table.objects - old(table.objects))
      ensures table.Contents() == AfterTurn(table.settings, old(table.Contents()), d)
      ensures Truthful(table.settings, old(table.Contents()), d)
      ensures d.id == id && d.askedAt == turn.askedAt && d.endedAt == turn.endedAt
      ensures d.attempt.Refused? || d.attempt == AttemptOf(turn.response)
    {
      var cb, admitted := table.Ask(id, turn.askedAt);
      if !admitted {
        return Done(id, turn.askedAt, Refused, turn.endedAt);
      }
      var success := turn.response.Some? && turn.response.value.statusCode < 500;
      table.Tell(id, cb, success, turn.endedAt);
      d := Done(id, turn.askedAt, AttemptOf(turn.response), turn.endedAt);
    }
  }
}
