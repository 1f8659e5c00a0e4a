/**
 The tracking table and the event log of internal/discovery/server.go.

 A handler call takes the tracking lock several times and publishes after the last one, so calls may interleave.
 The log holds the events in the order they are handed to the publisher, whose failures are only logged.
 */
module Discovery {
  import opened Common

  datatype TrackingInfo = TrackingInfo(
    serviceName: string, registeredAt: Time, deregisteredAt: Option<Time>, lastUpdated: Time,
    status: HealthStatus, lastHealthCheck: Option<Time>)

  type Tracking = map<string, TrackingInfo>

  datatype Event =
    | Registered(id: string, serviceName: string)
    | Deregistered(id: string, serviceName: string)
    | HealthChanged(id: string, serviceName: string, previous: HealthStatus, current: HealthStatus)

  // ----- Replaying the log -----

  /** The status an event leaves its service with, given the one before. */
  function AfterEvent(status: Option<HealthStatus>, e: Event): Option<HealthStatus> {
    match e
    case Registered(_, _) => Some(Healthy)
    case Deregistered(_, _) => status
    case HealthChanged(_, _, _, current) => Some(current)
  }

  function Replay(log: seq<Event>, id: string): Option<HealthStatus> {
    if log == [] then None
    else
      var before := Replay(log[..|log| - 1], id);
      if log[|log| - 1].id == id then AfterEvent(before, log[|log| - 1]) else before
  }

  lemma {:induction false} ReplayAppend(log: seq<Event>, e: Event, id: string)
    ensures Replay(log + [e], id) == if e.id == id then AfterEvent(Replay(log, id), e) else Replay(log, id)
  {
    assert (log + [e])[..|log|] == log;
  }

  function StatusIn(tracking: Tracking, id: string): Option<HealthStatus> {
    if id in tracking then Some(tracking[id].status) else None
  }

  /** The log replays to exactly the tracked status. */
  predicate Synced(tracking: Tracking, log: seq<Event>, id: string) {
    Replay(log, id) == StatusIn(tracking, id)
  }

  /** The name under which a service was last registered. */
  function NameReplay(log: seq<Event>, id: string): Option<string> {
    if log == [] then None
    else
      var e := log[|log| - 1];
      if e.id == id && e.Registered? then Some(e.serviceName) else NameReplay(log[..|log| - 1], id)
  }

  lemma {:induction false} NameReplayAppend(log: seq<Event>, e: Event, id: string)
    ensures NameReplay(log + [e], id) == if e.id == id && e.Registered? then Some(e.serviceName) else NameReplay(log, id)
  {
    assert (log + [e])[..|log|] == log;
  }

  function NameIn(tracking: Tracking, id: string): Option<string> {
    if id in tracking then Some(tracking[id].serviceName) else None
  }

  predicate NameSynced(tracking: Tracking, log: seq<Event>, id: string) {
    NameReplay(log, id) == NameIn(tracking, id)
  }

  /** The log replays to the tracked status and the tracked name. */
  predicate InStep(tracking: Tracking, log: seq<Event>, id: string) {
    Synced(tracking, log, id) && NameSynced(tracking, log, id)
  }

  /**
   An event fits the log before it: a change starts from the replayed status and changes it, and it names the service as
   last registered; so does a deregistration, with an empty name for a service that never was.
   */
  predicate Fits(log: seq<Event>, e: Event) {
    match e
    case Registered(_, _) => true
    case Deregistered(id, name) => name == if NameReplay(log, id).Some? then NameReplay(log, id).value else ""
    case HealthChanged(id, name, previous, current) =>
      Some(previous) == Replay(log, id) && previous != current && Some(name) == NameReplay(log, id)
  }

  /** Every event fits the log before it. */
  ghost predicate ChainsUp(log: seq<Event>) {
    forall i | 0 <= i < |log| :: Fits(log[..i], log[i])
  }

  lemma {:induction false} ChainAppend(log: seq<Event>, e: Event)
    requires ChainsUp(log) && Fits(log, e)
    ensures ChainsUp(log + [e])
  {
    var longer := log + [e];
    forall i | 0 <= i < |longer|
      ensures Fits(longer[..i], longer[i])
    {
      if i < |log| {
        assert longer[..i] == log[..i] && longer[i] == log[i];
      } else {
        assert longer[..i] == log;
      }
    }
  }

  // ----- The pieces of a handler -----

  function Registering(tracking: Tracking, id: string, name: string, now: Time): Tracking {
    tracking[id := TrackingInfo(name, now, None, now, Healthy, None)]
  }

  function Deregistering(tracking: Tracking, id: string, now: Time): Tracking {
    if id in tracking then tracking[id := tracking[id].(deregisteredAt := Some(now), lastUpdated := now)] else tracking
  }

  function Reporting(tracking: Tracking, id: string, status: HealthStatus, now: Time): Tracking {
    if id in tracking then
      tracking[id := tracking[id].(status := status, lastHealthCheck := Some(now), lastUpdated := now)]
    else tracking
  }

  function ChangeOf(id: string, seen: Option<TrackingInfo>, status: HealthStatus): seq<Event> {
    if seen.Some? && seen.value.status != status then
      [HealthChanged(id, seen.value.serviceName, seen.value.status, status)]
    else []
  }

  // ----- Interleaved handlers -----

  type CallID = nat

  /** Where a handler call stands, and what it has read. */
  datatype Pending =
    | PublishingRegistration(id: string, name: string)
    | Deregister(id: string, seen: Option<TrackingInfo>)
    | PublishingDeregistration(id: string, seen: Option<TrackingInfo>)
    | Report(id: string, status: HealthStatus, seen: Option<TrackingInfo>)
    | PublishingReport(id: string, status: HealthStatus, seen: Option<TrackingInfo>)

  datatype State = State(tracking: Tracking, log: seq<Event>, active: map<CallID, Pending>)

  /** A call begins once the registry has answered it or, before that, has looked up what is tracked; it then advances or gives up. */
  datatype Move =
    | BeginRegister(c: CallID, id: string, name: string, now: Time)
    | BeginDeregister(c: CallID, id: string)
    | BeginReport(c: CallID, id: string, status: HealthStatus)
    | Advance(c: CallID, now: Time)
    | GiveUp(c: CallID)

  predicate Begins(move: Move) {
    !move.Advance? && !move.GiveUp?
  }

  predicate Enabled(s: State, move: Move) {
    if Begins(move) then move.c !in s.active
    else move.c in s.active && (move.GiveUp? ==> s.active[move.c].Deregister? || s.active[move.c].Report?)
  }

  function Step(s: State, move: Move): State
    requires Enabled(s, move)
  {
    match move
    case BeginRegister(c, id, name, now) =>
      s.(tracking := Registering(s.tracking, id, name, now), active := s.active[c := PublishingRegistration(id, name)])
    case BeginDeregister(c, id) => s.(active := s.active[c := Deregister(id, Find(s.tracking, id))])
    case BeginReport(c, id, status) => s.(active := s.active[c := Report(id, status, Find(s.tracking, id))])
    case GiveUp(c) => s.(active := s.active - {c})
    case Advance(c, now) =>
      match s.active[c]
      case PublishingRegistration(id, name) => s.(log := s.log + [Registered(id, name)], active := s.active - {c})
      case Deregister(id, seen) =>
        s.(tracking := Deregistering(s.tracking, id, now), active := s.active[c := PublishingDeregistration(id, seen)])
      case PublishingDeregistration(id, seen) =>
        s.(log := s.log + [Deregistered(id, if seen.Some? then seen.value.serviceName else "")], active := s.active - {c})
      case Report(id, status, seen) =>
        s.(tracking := Reporting(s.tracking, id, status, now), active := s.active[c := PublishingReport(id, status, seen)])
      case PublishingReport(id, status, seen) =>
        s.(log := s.log + ChangeOf(id, seen, status), active := s.active - {c})
  }

  datatype Run = Run(moves: seq<Move>, states: seq<State>)

  predicate Moves(s: State, move: Move, s': State) {
    Enabled(s, move) && s' == Step(s, move)
  }

  ghost predicate Legal(run: Run) {
    && |run.states| == |run.moves| + 1
    && run.states[0] == State(map[], [], map[])
    && forall k | 0 <= k < |run.moves| :: Moves(run.states[k], run.moves[k], run.states[k + 1])
  }

  predicate Busy(s: State, id: string) {
    exists c :: c in s.active && s.active[c].id == id
  }

  /** A call on a service begins only when no other call on it is under way; calls on different services are free to overlap. */
  ghost predicate NoOverlap(run: Run)
    requires |run.moves| <= |run.states|
  {
    forall k | 0 <= k < |run.moves| :: Begins(run.moves[k]) ==> !Busy(run.states[k], run.moves[k].id)
  }

  function NameSeen(seen: Option<TrackingInfo>): Option<string> {
    if seen.Some? then Some(seen.value.serviceName) else None
  }

  /** What holds of the status while call `c` is where it is. */
  predicate StatusSound(s: State, c: CallID)
    requires c in s.active
  {
    match s.active[c]
    case PublishingRegistration(id, _) => StatusIn(s.tracking, id) == Some(Healthy)
    case Deregister(id, _) => Synced(s.tracking, s.log, id)
    case PublishingDeregistration(id, _) => Synced(s.tracking, s.log, id)
    case Report(id, _, seen) => Synced(s.tracking, s.log, id) && seen == Find(s.tracking, id)
    case PublishingReport(id, status, seen) =>
      && Replay(s.log, id) == (if seen.Some? then Some(seen.value.status) else None)
      && StatusIn(s.tracking, id) == (if seen.Some? then Some(status) else None)
  }

  /** What holds of the name. */
  predicate NameSound(s: State, c: CallID)
    requires c in s.active
  {
    var p := s.active[c];
    if p.PublishingRegistration? then NameIn(s.tracking, p.id) == Some(p.name)
    else NameSynced(s.tracking, s.log, p.id) && NameSeen(p.seen) == NameIn(s.tracking, p.id)
  }

  predicate CallSound(s: State, c: CallID)
    requires c in s.active
  {
    StatusSound(s, c) && NameSound(s, c)
  }

  ghost predicate Sound(s: State, id: string) {
    && (forall c, d | c in s.active && d in s.active && s.active[c].id == id && s.active[d].id == id :: c == d)
    && (forall c | c in s.active && s.active[c].id == id :: CallSound(s, c))
    && (!Busy(s, id) ==> InStep(s.tracking, s.log, id))
  }

  function TouchedID(s: State, move: Move): string
    requires Enabled(s, move)
  {
    if Begins(move) then move.id else s.active[move.c].id
  }

  /** A move publishes at most one event, about the service it works on. */
  lemma LogGrows(s: State, move: Move)
    requires Enabled(s, move)
    ensures var log := Step(s, move).log;
            log == s.log ||
            (|log| == |s.log| + 1 && log == s.log + [log[|s.log|]] && log[|s.log|].id == TouchedID(s, move))
  {
  }

  lemma OtherTrackingKeeps(s: State, move: Move, id: string)
    requires Enabled(s, move) && TouchedID(s, move) != id
    ensures Find(Step(s, move).tracking, id) == Find(s.tracking, id)
  {
  }

  lemma {:induction false} OtherIDsKeep(s: State, move: Move, id: string)
    requires Enabled(s, move) && TouchedID(s, move) != id
    ensures Find(Step(s, move).tracking, id) == Find(s.tracking, id)
    ensures Replay(Step(s, move).log, id) == Replay(s.log, id) && NameReplay(Step(s, move).log, id) == NameReplay(s.log, id)
  {
    var log := Step(s, move).log;
    LogGrows(s, move);
    if log != s.log {
      ReplayAppend(s.log, log[|s.log|], id);
      NameReplayAppend(s.log, log[|s.log|], id);
    }
    OtherTrackingKeeps(s, move, id);
  }

  lemma {:induction false} OtherCallsKeep(s: State, move: Move, id: string, c: CallID)
    requires Enabled(s, move) && TouchedID(s, move) != id
    ensures (c in Step(s, move).active && Step(s, move).active[c].id == id) <==> (c in s.active && s.active[c].id == id)
    ensures c in s.active && s.active[c].id == id ==> Step(s, move).active[c] == s.active[c]
  {
  }

  lemma {:induction false} OtherStaysSound(s: State, move: Move, id: string)
    requires Enabled(s, move) && TouchedID(s, move) != id && Sound(s, id)
    ensures Sound(Step(s, move), id)
  {
    var s' := Step(s, move);
    OtherIDsKeep(s, move, id);
    forall c
      ensures (c in s'.active && s'.active[c].id == id) <==> (c in s.active && s.active[c].id == id)
      ensures c in s.active && s.active[c].id == id ==> s'.active[c] == s.active[c]
    {
      OtherCallsKeep(s, move, id, c);
    }
    assert StatusIn(s'.tracking, id) == StatusIn(s.tracking, id) && NameIn(s'.tracking, id) == NameIn(s.tracking, id) by {
      assert StatusIn(s.tracking, id).Some? <==> Find(s.tracking, id).Some?;
    }
    forall c | c in s'.active && s'.active[c].id == id
      ensures CallSound(s', c)
    {
      assert CallSound(s, c);
    }
    if Busy(s, id) {
      var c :| c in s.active && s.active[c].id == id;
      assert c in s'.active && s'.active[c].id == id;
    }
  }

  lemma {:induction false} BeginStaysSound(s: State, move: Move)
    requires Enabled(s, move) && Begins(move) && !Busy(s, move.id) && Sound(s, move.id)
    ensures Sound(Step(s, move), move.id)
  {
    var s' := Step(s, move);
    assert s'.active[move.c].id == move.id;
    assert forall c | c in s'.active && s'.active[c].id == move.id :: c == move.c;
  }

  lemma {:induction false} StatusGoesOn(s: State, move: Move)
    requires Enabled(s, move) && !Begins(move) && StatusSound(s, move.c)
    ensures var s' := Step(s, move);
            if move.c in s'.active then s'.active[move.c].id == s.active[move.c].id && StatusSound(s', move.c)
            else Synced(s'.tracking, s'.log, s.active[move.c].id)
  {
    var s' := Step(s, move);
    if s'.log != s.log {
      var e := s'.log[|s.log|];
      assert s'.log == s.log + [e];
      ReplayAppend(s.log, e, s.active[move.c].id);
    }
  }

  lemma {:induction false} NameGoesOn(s: State, move: Move)
    requires Enabled(s, move) && !Begins(move) && NameSound(s, move.c)
    ensures var s' := Step(s, move);
            if move.c in s'.active then s'.active[move.c].id == s.active[move.c].id && NameSound(s', move.c)
            else NameSynced(s'.tracking, s'.log, s.active[move.c].id)
  {
    var s' := Step(s, move);
    if s'.log != s.log {
      var e := s'.log[|s.log|];
      assert s'.log == s.log + [e];
      NameReplayAppend(s.log, e, s.active[move.c].id);
    }
  }

  /** The only call on its service goes on: afterwards it is sound, or gone with everything in step. */
  lemma {:induction false} CallGoesOn(s: State, move: Move)
    requires Enabled(s, move) && !Begins(move) && CallSound(s, move.c)
    ensures var s' := Step(s, move);
            if move.c in s'.active then s'.active[move.c].id == s.active[move.c].id && CallSound(s', move.c)
            else InStep(s'.tracking, s'.log, s.active[move.c].id)
  {
    StatusGoesOn(s, move);
    NameGoesOn(s, move);
  }

  lemma {:induction false} OwnStaysSound(s: State, move: Move)
    requires Enabled(s, move) && !Begins(move) && Sound(s, s.active[move.c].id)
    ensures Sound(Step(s, move), s.active[move.c].id)
  {
    var s', id := Step(s, move), s.active[move.c].id;
    CallGoesOn(s, move);
    assert forall c | c in s'.active && s'.active[c].id == id :: c == move.c;
  }

  lemma {:induction false} StepKeepsChain(s: State, move: Move)
    requires Enabled(s, move) && ChainsUp(s.log) && Sound(s, TouchedID(s, move))
    ensures ChainsUp(Step(s, move).log)
  {
    var s' := Step(s, move);
    if s'.log != s.log {
      assert CallSound(s, move.c);
      ChainAppend(s.log, s'.log[|s.log|]);
      assert s'.log == s.log + [s'.log[|s.log|]];
    }
  }

  lemma {:induction false} RunIsSound(run: Run, k: nat, id: string)
    requires Legal(run) && NoOverlap(run) && k <= |run.moves|
    ensures Sound(run.states[k], id)
  {
    if k != 0 {
      var s, move := run.states[k - 1], run.moves[k - 1];
      RunIsSound(run, k - 1, id);
      assert Moves(s, move, run.states[k]);
      if TouchedID(s, move) != id {
        OtherStaysSound(s, move, id);
      } else if Begins(move) {
        BeginStaysSound(s, move);
      } else {
        OwnStaysSound(s, move);
      }
    }
  }

  /** Without overlaps every event fits the log before it. */
  lemma {:induction false} ChangesChainUp(run: Run, k: nat)
    requires Legal(run) && NoOverlap(run) && k <= |run.moves|
    ensures ChainsUp(run.states[k].log)
  {
    if k != 0 {
      var s, move := run.states[k - 1], run.moves[k - 1];
      ChangesChainUp(run, k - 1);
      assert Moves(s, move, run.states[k]);
      RunIsSound(run, k - 1, TouchedID(s, move));
      StepKeepsChain(s, move);
    }
  }

  // ----- What is tracked -----

  /** The kinds of writes to the table. */
  datatype Write = Registers | Deregisters | Reports

  /** What move `k` writes to the entry of a service, and when. */
  function WriteAt(run: Run, k: nat, id: string): Option<(Write, Time)>
    requires k < |run.moves| < |run.states|
  {
    var s, move := run.states[k], run.moves[k];
    if move.BeginRegister? && move.id == id then Some((Registers, move.now))
    else if move.Advance? && move.c in s.active && s.active[move.c].id == id && s.active[move.c].Deregister? then
      Some((Deregisters, move.now))
    else if move.Advance? && move.c in s.active && s.active[move.c].id == id && s.active[move.c].Report? then
      Some((Reports, move.now))
    else None
  }

  /** When the service was last written in this way, since it was last registered. */
  function LastWrite(run: Run, k: nat, id: string, kind: Write): Option<Time>
    requires k <= |run.moves| < |run.states|
  {
    if k == 0 then None
    else
      var before, w := LastWrite(run, k - 1, id, kind), WriteAt(run, k - 1, id);
      if w.None? then before
      else if w.value.0 == kind then Some(w.value.1)
      else if w.value.0 == Registers then None
      else before
  }

  /** When the service was last written in any way. */
  function LastUpdate(run: Run, k: nat, id: string): Option<Time>
    requires k <= |run.moves| < |run.states|
  {
    if k == 0 then None
    else if WriteAt(run, k - 1, id).Some? then Some(WriteAt(run, k - 1, id).value.1)
    else LastUpdate(run, k - 1, id)
  }

  /** Under every interleaving an entry tells when its service was registered and, since then, deregistered, checked and updated last. */
  lemma {:induction false} TrackedTimes(run: Run, k: nat, id: string)
    requires Legal(run) && k <= |run.moves|
    ensures id in run.states[k].tracking <==> LastWrite(run, k, id, Registers).Some?
    ensures id in run.states[k].tracking ==>
              var info := run.states[k].tracking[id];
              && LastWrite(run, k, id, Registers) == Some(info.registeredAt)
              && LastWrite(run, k, id, Deregisters) == info.deregisteredAt
              && LastWrite(run, k, id, Reports) == info.lastHealthCheck
              && LastUpdate(run, k, id) == Some(info.lastUpdated)
  {
    if k != 0 {
      TrackedTimes(run, k - 1, id);
      assert Moves(run.states[k - 1], run.moves[k - 1], run.states[k - 1 + 1]);
    }
  }

  // ----- Overlapping calls -----

  /** The status a call stores in the table, if it stores any. */
  function StoredBy(p: Pending): Option<HealthStatus> {
    match p
    case PublishingRegistration(_, _) => Some(Healthy)
    case Deregister(_, _) => None
    case PublishingDeregistration(_, _) => None
    case Report(_, status, _) => Some(status)
    case PublishingReport(_, status, _) => Some(status)
  }

  /** The calls under way on a service do not store different statuses. */
  ghost predicate Agree(s: State, id: string) {
    forall c, d | c in s.active && d in s.active && s.active[c].id == id && s.active[d].id == id ::
      StoredBy(s.active[c]).Some? && StoredBy(s.active[d]).Some? ==> StoredBy(s.active[c]) == StoredBy(s.active[d])
  }

  /** The call has an event left to publish that sets a status. */
  predicate WillPublish(p: Pending) {
    || p.PublishingRegistration?
    || (p.PublishingReport? && p.seen.Some? && p.seen.value.status != p.status)
  }

  /** What holds of a call on the service, given the tracked status. */
  predicate CallSettles(tracked: Option<HealthStatus>, p: Pending) {
    match p
    case PublishingRegistration(_, _) => tracked == Some(Healthy)
    case Report(_, status, seen) =>
      tracked == Some(status) || tracked == (if seen.Some? then Some(seen.value.status) else None)
    case PublishingReport(_, status, seen) => seen.Some? ==> tracked == Some(status)
    case _ => true
  }

  ghost predicate CallsSettle(s: State, id: string) {
    forall c | c in s.active && s.active[c].id == id :: CallSettles(StatusIn(s.tracking, id), s.active[c])
  }

  ghost predicate PublisherActive(s: State, id: string) {
    exists c :: c in s.active && s.active[c].id == id && WillPublish(s.active[c])
  }

  /** The log is in step with the table, or some call is about to bring it in step. */
  ghost predicate Settles(s: State, id: string) {
    CallsSettle(s, id) && (Synced(s.tracking, s.log, id) || PublisherActive(s, id))
  }

  /** Another call on the service is not disturbed by a step that stores the same status. */
  lemma {:induction false} OthersSettle(s: State, move: Move, c: CallID)
    requires Enabled(s, move) && CallsSettle(s, TouchedID(s, move)) && Agree(s, TouchedID(s, move))
    requires Agree(Step(s, move), TouchedID(s, move))
    requires c in s.active && c != move.c && s.active[c].id == TouchedID(s, move)
    ensures c in Step(s, move).active && Step(s, move).active[c] == s.active[c]
    ensures CallSettles(StatusIn(Step(s, move).tracking, s.active[c].id), s.active[c])
  {
    var s' := Step(s, move);
    assert CallSettles(StatusIn(s.tracking, s.active[c].id), s.active[c]);
    if move.BeginRegister? {
      assert StoredBy(s'.active[move.c]) == Some(Healthy);
    } else if move.Advance? && s.active[move.c].Report? {
      assert StoredBy(s.active[move.c]) == Some(s.active[move.c].status);
    }
  }

  lemma {:induction false} MoverSettles(s: State, move: Move)
    requires Enabled(s, move) && CallsSettle(s, TouchedID(s, move))
    ensures var s', id := Step(s, move), TouchedID(s, move);
            move.c in s'.active ==> s'.active[move.c].id == id && CallSettles(StatusIn(s'.tracking, id), s'.active[move.c])
  {
    if !Begins(move) {
      assert CallSettles(StatusIn(s.tracking, TouchedID(s, move)), s.active[move.c]);
    }
  }

  /** After a step the log is in step, or the mover is a publisher, or what was so before still is. */
  lemma {:induction false} MoverKeepsStep(s: State, move: Move)
    requires Enabled(s, move) && CallsSettle(s, TouchedID(s, move))
    ensures var s', id := Step(s, move), TouchedID(s, move);
            || Synced(s'.tracking, s'.log, id)
            || (move.c in s'.active && WillPublish(s'.active[move.c]))
            || (!Synced(s.tracking, s.log, id) && (Begins(move) || !WillPublish(s.active[move.c])))
  {
    var s', id := Step(s, move), TouchedID(s, move);
    LogGrows(s, move);
    if s'.log != s.log {
      ReplayAppend(s.log, s'.log[|s.log|], id);
    }
    if !Begins(move) {
      assert CallSettles(StatusIn(s.tracking, id), s.active[move.c]);
    }
  }

  lemma {:induction false} OwnSettles(s: State, move: Move, id: string)
    requires Enabled(s, move) && TouchedID(s, move) == id && Settles(s, id) && Agree(s, id) && Agree(Step(s, move), id)
    ensures Settles(Step(s, move), id)
  {
    var s' := Step(s, move);
    MoverSettles(s, move);
    forall c | c in s'.active && s'.active[c].id == id
      ensures CallSettles(StatusIn(s'.tracking, id), s'.active[c])
    {
      if c != move.c {
        OthersSettle(s, move, c);
      }
    }
    MoverKeepsStep(s, move);
    if !Synced(s.tracking, s.log, id) {
      var c :| c in s.active && s.active[c].id == id && WillPublish(s.active[c]);
      if c != move.c {
        OthersSettle(s, move, c);
      }
    }
  }

  lemma {:induction false} OtherSettles(s: State, move: Move, id: string)
    requires Enabled(s, move) && TouchedID(s, move) != id && Settles(s, id)
    ensures Settles(Step(s, move), id)
  {
    var s' := Step(s, move);
    OtherIDsKeep(s, move, id);
    assert StatusIn(s'.tracking, id) == StatusIn(s.tracking, id) by {
      assert StatusIn(s.tracking, id).Some? <==> Find(s.tracking, id).Some?;
    }
    forall c
      ensures (c in s'.active && s'.active[c].id == id) <==> (c in s.active && s.active[c].id == id)
      ensures c in s.active && s.active[c].id == id ==> s'.active[c] == s.active[c]
    {
      OtherCallsKeep(s, move, id, c);
    }
    if PublisherActive(s, id) {
      var c :| c in s.active && s.active[c].id == id && WillPublish(s.active[c]);
      assert c in s'.active && s'.active[c].id == id;
    }
  }

  lemma {:induction false} RunSettles(run: Run, i: nat, k: nat, id: string)
    requires Legal(run) && i <= k <= |run.moves| && Settles(run.states[i], id)
    requires forall m | i <= m <= k :: Agree(run.states[m], id)
    ensures Settles(run.states[k], id)
  {
    if i < k {
      RunSettles(run, i, k - 1, id);
      var s, move := run.states[k - 1], run.moves[k - 1];
      assert Moves(s, move, run.states[k - 1 + 1]);
      assert Agree(run.states[k - 1], id) && Agree(run.states[k], id);
      if TouchedID(s, move) == id {
        OwnSettles(s, move, id);
      } else {
        OtherSettles(s, move, id);
      }
    }
  }

  /**
   Replay: in every run whose overlapping calls on a service never store different statuses, whenever no call on it is
   under way the log replays to its tracked status.
   */
  lemma {:induction false} LogReplays(run: Run, k: nat, id: string)
    requires Legal(run) && k <= |run.moves| && !Busy(run.states[k], id)
    requires forall m | 0 <= m <= k :: Agree(run.states[m], id)
    ensures Synced(run.states[k].tracking, run.states[k].log, id)
  {
    RunSettles(run, 0, k, id);
  }

  /** Calls that do not overlap agree. */
  lemma {:induction false} NoOverlapAgrees(run: Run, k: nat, id: string)
    requires Legal(run) && NoOverlap(run) && k <= |run.moves|
    ensures Agree(run.states[k], id)
  {
    RunIsSound(run, k, id);
  }

  // ----- When calls can get out of step -----

  lemma {:induction false} Extend(run: Run, move: Move, s: State) returns (longer: Run)
    requires Legal(run) && Moves(run.states[|run.moves|], move, s)
    ensures Legal(longer) && longer == Run(run.moves + [move], run.states + [s])
  {
    longer := Run(run.moves + [move], run.states + [s]);
    forall k | 0 <= k < |longer.moves|
      ensures Moves(longer.states[k], longer.moves[k], longer.states[k + 1])
    {
      if k < |run.moves| {
        assert Moves(run.states[k], run.moves[k], run.states[k + 1]);
      }
    }
  }

  /** Two reports on a tracked service have read its entry and stored their statuses, the second one last. */
  lemma {:induction false} BothStore(
    run: Run, id: string, c: CallID, a: HealthStatus, d: CallID, b: HealthStatus, now: Time) returns (longer: Run)
    requires Legal(run) && c != d
    requires var s := run.states[|run.moves|]; id in s.tracking && c !in s.active && d !in s.active
    ensures Legal(longer)
    ensures longer.moves == run.moves + [BeginReport(c, id, a), BeginReport(d, id, b), Advance(c, now), Advance(d, now)]
    ensures longer.states[..|run.states|] == run.states
    ensures var s, s' := run.states[|run.moves|], longer.states[|longer.moves|];
            var seen := Some(s.tracking[id]);
            && StatusIn(s'.tracking, id) == Some(b) && s'.log == s.log
            && s'.active == s.active[c := PublishingReport(id, a, seen)][d := PublishingReport(id, b, seen)]
  {
    var s := run.states[|run.moves|];
    var s1 := Step(s, BeginReport(c, id, a));
    var s2 := Step(s1, BeginReport(d, id, b));
    var s3 := Step(s2, Advance(c, now));
    var s4 := Step(s3, Advance(d, now));
    longer := Extend(run, BeginReport(c, id, a), s1);
    longer := Extend(longer, BeginReport(d, id, b), s2);
    longer := Extend(longer, Advance(c, now), s3);
    longer := Extend(longer, Advance(d, now), s4);
  }

  /**
   Wherever a service is tracked, two overlapping reports of different statuses can store one and announce the other last,
   as long as the one announced last is new; the other may repeat the tracked status and announce nothing.
   */
  lemma {:induction false} OverlapBreaksReplay(
    run: Run, id: string, c: CallID, a: HealthStatus, d: CallID, b: HealthStatus, now: Time) returns (longer: Run)
    requires Legal(run) && c != d && a != b
    requires var s := run.states[|run.moves|];
             id in s.tracking && s.tracking[id].status != a && c !in s.active && d !in s.active
    ensures Legal(longer)
    ensures longer.moves == run.moves + [BeginReport(c, id, a), BeginReport(d, id, b), Advance(c, now), Advance(d, now),
                                         Advance(d, now), Advance(c, now)]
    ensures longer.states[..|run.states|] == run.states
    ensures longer.states[|longer.moves|].active == run.states[|run.moves|].active
    ensures !Synced(longer.states[|longer.moves|].tracking, longer.states[|longer.moves|].log, id)
  {
    var stored := BothStore(run, id, c, a, d, b, now);
    var s := stored.states[|stored.moves|];
    var s1 := Step(s, Advance(d, now));
    var s2 := Step(s1, Advance(c, now));
    longer := Extend(stored, Advance(d, now), s1);
    longer := Extend(longer, Advance(c, now), s2);
    var seen := run.states[|run.moves|].tracking[id];
    ReplayAppend(s1.log, HealthChanged(id, seen.serviceName, seen.status, a), id);
    assert longer.states[..|run.states|] == stored.states[..|run.states|];
  }

  /** A whole report on a tracked service, with another call under way beside it. */
  lemma {:induction false} ReportPasses(run: Run, id: string, c: CallID, d: CallID, b: HealthStatus, now: Time) returns (longer: Run)
    requires Legal(run) && c != d
    requires var s := run.states[|run.moves|]; c in s.active && d !in s.active && id in s.tracking
    ensures Legal(longer) && longer.moves == run.moves + [BeginReport(d, id, b), Advance(d, now), Advance(d, now)]
    ensures longer.states[..|run.states|] == run.states
    ensures longer.states[|longer.moves|].active == run.states[|run.moves|].active
    ensures StatusIn(longer.states[|longer.moves|].tracking, id) == Some(b)
  {
    var s := run.states[|run.moves|];
    var s1 := Step(s, BeginReport(d, id, b));
    var s2 := Step(s1, Advance(d, now));
    var s3 := Step(s2, Advance(d, now));
    longer := Extend(run, BeginReport(d, id, b), s1);
    longer := Extend(longer, Advance(d, now), s2);
    longer := Extend(longer, Advance(d, now), s3);
  }

  /** Whether a service is tracked or not, a registration and an overlapping report of another status than healthy can do the same. */
  lemma {:induction false} RegistrationBreaksReplay(
    run: Run, id: string, name: string, c: CallID, d: CallID, b: HealthStatus, now: Time) returns (longer: Run)
    requires Legal(run) && c != d && b != Healthy
    requires var s := run.states[|run.moves|]; c !in s.active && d !in s.active
    ensures Legal(longer)
    ensures longer.moves == run.moves + [BeginRegister(c, id, name, now), BeginReport(d, id, b), Advance(d, now), Advance(d, now),
                                         Advance(c, now)]
    ensures longer.states[..|run.states|] == run.states
    ensures longer.states[|longer.moves|].active == run.states[|run.moves|].active
    ensures !Synced(longer.states[|longer.moves|].tracking, longer.states[|longer.moves|].log, id)
  {
    var registering := Extend(run, BeginRegister(c, id, name, now), Step(run.states[|run.moves|], BeginRegister(c, id, name, now)));
    var reported := ReportPasses(registering, id, c, d, b, now);
    var s := reported.states[|reported.moves|];
    longer := Extend(reported, Advance(c, now), Step(s, Advance(c, now)));
    ReplayAppend(s.log, Registered(id, name), id);
    assert longer.states[..|run.states|] == reported.states[..|registering.states|][..|run.states|];
  }

  /** A handler call on a service. */
  datatype Call = Registration(name: string) | Deregistration | HealthReport(status: HealthStatus)

  function CallOf(move: Move): Call
    requires Begins(move)
  {
    match move
    case BeginRegister(_, _, name, _) => Registration(name)
    case BeginDeregister(_, _) => Deregistration
    case BeginReport(_, _, status) => HealthReport(status)
  }

  function Stored(call: Call): Option<HealthStatus> {
    match call
    case Registration(_) => Some(Healthy)
    case Deregistration => None
    case HealthReport(status) => Some(status)
  }

  /** `longer` goes on from `run`, and only such calls begin on the service; other services are free. */
  ghost predicate GoesOnWith(run: Run, longer: Run, id: string, calls: set<Call>)
    requires Legal(run) && Legal(longer)
  {
    && |run.moves| <= |longer.moves| && longer.moves[..|run.moves|] == run.moves
    && longer.states[..|run.states|] == run.states
    && forall k | |run.moves| <= k < |longer.moves| ::
         Begins(longer.moves[k]) && longer.moves[k].id == id ==> CallOf(longer.moves[k]) in calls
  }

  /** With such calls on the service, it can come to rest with the log out of step. */
  ghost predicate CanGetOutOfStep(run: Run, id: string, calls: set<Call>)
    requires Legal(run)
  {
    exists longer ::
      && Legal(longer) && GoesOnWith(run, longer, id, calls)
      && var s := longer.states[|longer.moves|]; !Busy(s, id) && !Synced(s.tracking, s.log, id)
  }

  /** Two of the calls store different statuses. */
  ghost predicate Differ(calls: set<Call>) {
    exists x, y :: x in calls && y in calls && Stored(x).Some? && Stored(y).Some? && Stored(x) != Stored(y)
  }

  ghost predicate CanRegister(calls: set<Call>) {
    exists x :: x in calls && x.Registration?
  }

  /** Every call under way on the service stores what one of `calls` stores. */
  ghost predicate StoredAmong(s: State, id: string, calls: set<Call>) {
    forall c | c in s.active && s.active[c].id == id :: exists x :: x in calls && Stored(x) == StoredBy(s.active[c])
  }

  lemma {:induction false} StepStoresAmong(s: State, move: Move, id: string, calls: set<Call>)
    requires Enabled(s, move) && StoredAmong(s, id, calls)
    requires Begins(move) && move.id == id ==> CallOf(move) in calls
    ensures StoredAmong(Step(s, move), id, calls)
  {
    var s' := Step(s, move);
    forall c | c in s'.active && s'.active[c].id == id
      ensures exists x :: x in calls && Stored(x) == StoredBy(s'.active[c])
    {
      if c == move.c && Begins(move) {
        assert Stored(CallOf(move)) == StoredBy(s'.active[c]);
      } else {
        assert c in s.active && s.active[c].id == id && StoredBy(s'.active[c]) == StoredBy(s.active[c]);
      }
    }
  }

  lemma {:induction false} RunStoresAmong(run: Run, longer: Run, id: string, calls: set<Call>, k: nat)
    requires Legal(run) && Legal(longer) && GoesOnWith(run, longer, id, calls) && |run.moves| <= k <= |longer.moves|
    requires !Busy(run.states[|run.moves|], id)
    ensures StoredAmong(longer.states[k], id, calls)
  {
    if k == |run.moves| {
      assert longer.states[k] == longer.states[..|run.states|][k];
    } else {
      RunStoresAmong(run, longer, id, calls, k - 1);
      assert Moves(longer.states[k - 1], longer.moves[k - 1], longer.states[k - 1 + 1]);
      StepStoresAmong(longer.states[k - 1], longer.moves[k - 1], id, calls);
    }
  }

  lemma {:induction false} AmongAgrees(s: State, id: string, calls: set<Call>)
    requires StoredAmong(s, id, calls) && !Differ(calls)
    ensures Agree(s, id)
  {
    forall c, d | c in s.active && d in s.active && s.active[c].id == id && s.active[d].id == id &&
                  StoredBy(s.active[c]).Some? && StoredBy(s.active[d]).Some?
      ensures StoredBy(s.active[c]) == StoredBy(s.active[d])
    {
      var x :| x in calls && Stored(x) == StoredBy(s.active[c]);
      var y :| y in calls && Stored(y) == StoredBy(s.active[d]);
    }
  }

  /** Calls that all store one status leave the log in step. */
  lemma {:induction false} AgreeingCallsStayInStep(run: Run, longer: Run, id: string, calls: set<Call>)
    requires Legal(run) && Legal(longer) && GoesOnWith(run, longer, id, calls) && !Differ(calls)
    requires var s := run.states[|run.moves|]; !Busy(s, id) && Synced(s.tracking, s.log, id)
    requires !Busy(longer.states[|longer.moves|], id)
    ensures var s := longer.states[|longer.moves|]; Synced(s.tracking, s.log, id)
  {
    var n := |run.moves|;
    assert longer.states[n] == longer.states[..|run.states|][n];
    forall m | n <= m <= |longer.moves|
      ensures Agree(longer.states[m], id)
    {
      RunStoresAmong(run, longer, id, calls, m);
      AmongAgrees(longer.states[m], id, calls);
    }
    RunSettles(longer, n, |longer.moves|, id);
  }

  /** Nothing is known of the service, and no call under way will make it known. */
  ghost predicate Unheard(s: State, id: string) {
    && id !in s.tracking && Replay(s.log, id) == None
    && forall c | c in s.active && s.active[c].id == id ::
         match s.active[c]
         case PublishingRegistration(_, _) => false
         case Report(_, _, seen) => seen.None?
         case PublishingReport(_, _, seen) => seen.None?
         case _ => true
  }

  lemma {:induction false} StaysUnheard(s: State, move: Move, id: string)
    requires Enabled(s, move) && Unheard(s, id) && !(move.BeginRegister? && move.id == id)
    ensures Unheard(Step(s, move), id)
  {
    var s' := Step(s, move);
    LogGrows(s, move);
    if s'.log != s.log {
      ReplayAppend(s.log, s'.log[|s.log|], id);
    }
  }

  lemma {:induction false} RunStaysUnheard(run: Run, longer: Run, id: string, calls: set<Call>, k: nat)
    requires Legal(run) && Legal(longer) && GoesOnWith(run, longer, id, calls) && |run.moves| <= k <= |longer.moves|
    requires !CanRegister(calls) && Unheard(run.states[|run.moves|], id)
    ensures Unheard(longer.states[k], id)
  {
    if k == |run.moves| {
      assert longer.states[k] == longer.states[..|run.states|][k];
    } else {
      RunStaysUnheard(run, longer, id, calls, k - 1);
      var move := longer.moves[k - 1];
      assert Moves(longer.states[k - 1], move, longer.states[k - 1 + 1]);
      assert Begins(move) && move.id == id ==> CallOf(move) in calls;
      StaysUnheard(longer.states[k - 1], move, id);
    }
  }

  lemma {:induction false} DifferingCallsCross(run: Run, id: string, calls: set<Call>)
    requires Legal(run) && !Busy(run.states[|run.moves|], id) && Differ(calls)
    requires id in run.states[|run.moves|].tracking || CanRegister(calls)
    ensures CanGetOutOfStep(run, id, calls)
  {
    var s := run.states[|run.moves|];
    var c := FreshNumber(s.active.Keys);
    var d := c + 1;
    var x, y :| x in calls && y in calls && Stored(x).Some? && Stored(y).Some? && Stored(x) != Stored(y);
    var longer;
    if CanRegister(calls) {
      var r :| r in calls && r.Registration?;
      var report := if Stored(x) != Some(Healthy) then x else y;
      longer := RegistrationBreaksReplay(run, id, r.name, c, d, report.status, 0);
    } else if s.tracking[id].status != x.status {
      longer := OverlapBreaksReplay(run, id, c, x.status, d, y.status, 0);
    } else {
      longer := OverlapBreaksReplay(run, id, c, y.status, d, x.status, 0);
    }
    assert GoesOnWith(run, longer, id, calls);
  }

  /**
   Exactly when overlapping calls can leave the log out of step: from a service at rest and in step, calls of given kinds
   can, if and only if two of the kinds store different statuses and the service is tracked or can be registered.
   */
  lemma {:induction false} OutOfStepIffDifferent(run: Run, id: string, calls: set<Call>)
    requires Legal(run)
    requires var s := run.states[|run.moves|]; !Busy(s, id) && Synced(s.tracking, s.log, id)
    ensures CanGetOutOfStep(run, id, calls) <==>
            Differ(calls) && (id in run.states[|run.moves|].tracking || CanRegister(calls))
  {
    if Differ(calls) && (id in run.states[|run.moves|].tracking || CanRegister(calls)) {
      DifferingCallsCross(run, id, calls);
    } else {
      forall longer | Legal(longer) && GoesOnWith(run, longer, id, calls) && !Busy(longer.states[|longer.moves|], id)
        ensures var s := longer.states[|longer.moves|]; Synced(s.tracking, s.log, id)
      {
        if !Differ(calls) {
          AgreeingCallsStayInStep(run, longer, id, calls);
        } else {
          RunStaysUnheard(run, longer, id, calls, |longer.moves|);
        }
      }
    }
  }

  /**
   A failing input from the empty server on: a service registers, then two reports on it cross. The table ends at `b`, the log at `a`.
   */
  lemma {:induction false} CrossingReports(id: string, name: string, a: HealthStatus, b: HealthStatus, now: Time) returns (run: Run)
    requires a != b && a != Healthy
    ensures Legal(run)
    ensures run.moves == [BeginRegister(0, id, name, now), Advance(0, now),
                          BeginReport(1, id, a), BeginReport(2, id, b), Advance(1, now), Advance(2, now),
                          Advance(2, now), Advance(1, now)]
    ensures !Synced(run.states[8].tracking, run.states[8].log, id)
  {
    var empty := State(map[], [], map[]);
    var register := BeginRegister(0, id, name, now);
    var registering := Step(empty, register);
    run := Extend(Run([], [empty]), register, registering);
    run := Extend(run, Advance(0, now), Step(registering, Advance(0, now)));
    run := OverlapBreaksReplay(run, id, 1, a, 2, b, now);
  }

  // ----- The server object -----

  /** Publishing one event along with the change it announces keeps the log and the table in step. */
  lemma {:induction false} PublishSyncs(tracking: Tracking, log: seq<Event>, tracking': Tracking, e: Event)
    requires forall id :: InStep(tracking, log, id)
    requires forall id | id != e.id :: StatusIn(tracking', id) == StatusIn(tracking, id) && NameIn(tracking', id) == NameIn(tracking, id)
    requires StatusIn(tracking', e.id) == AfterEvent(StatusIn(tracking, e.id), e)
    requires NameIn(tracking', e.id) == if e.Registered? then Some(e.serviceName) else NameIn(tracking, e.id)
    ensures forall id :: InStep(tracking', log + [e], id)
  {
    forall id
      ensures InStep(tracking', log + [e], id)
    {
      assert InStep(tracking, log, id);
      ReplayAppend(log, e, id);
      NameReplayAppend(log, e, id);
    }
  }

  lemma SameStatusesSync(tracking: Tracking, log: seq<Event>, tracking': Tracking)
    requires forall id :: InStep(tracking, log, id)
    requires forall id :: StatusIn(tracking', id) == StatusIn(tracking, id) && NameIn(tracking', id) == NameIn(tracking, id)
    ensures forall id :: InStep(tracking', log, id)
  {
    forall id
      ensures InStep(tracking', log, id)
    {
      assert InStep(tracking, log, id);
    }
  }

  class Server {
    var tracking: Tracking
    var published: seq<Event>

    /** Between calls the log replays to the tracked statuses and names, and every event fits the log before it. */
    ghost predicate Valid()
      reads this
    {
      (forall id :: InStep(tracking, published, id)) && ChainsUp(published)
    }

    constructor ()
      ensures Valid() && tracking == map[] && published == []
    {
      tracking, published := map[], [];
    }

    /** `accepted` is the registry's answer. */
    method Register(id: string, name: string, accepted: bool, now: Time) returns (success: bool)
      requires Valid()
      modifies this
      ensures Valid() && success == accepted
      ensures tracking == if accepted then Registering(old(tracking), id, name, now) else old(tracking)
      ensures published == if accepted then old(published) + [Registered(id, name)] else old(published)
    {
      if !accepted {
        return false;
      }
      PublishSyncs(tracking, published, Registering(tracking, id, name, now), Registered(id, name));
      ChainAppend(published, Registered(id, name));
      tracking := tracking[id := TrackingInfo(name, now, None, now, Healthy, None)];
      published := published + [Registered(id, name)];
      return true;
    }

    method Deregister(id: string, accepted: bool, now: Time) returns (removed: bool)
      requires Valid()
      modifies this
      ensures Valid() && removed == accepted
      ensures tracking == if accepted then Deregistering(old(tracking), id, now) else old(tracking)
      ensures published == if accepted
                           then old(published) + [Deregistered(id, if id in old(tracking) then old(tracking)[id].serviceName else "")]
                           else old(published)
    {
      var name := "";
      if id in tracking {
        name := tracking[id].serviceName;
      }
      if !accepted {
        return false;
      }
      assert InStep(tracking, published, id);
      PublishSyncs(tracking, published, Deregistering(tracking, id, now), Deregistered(id, name));
      ChainAppend(published, Deregistered(id, name));
      if id in tracking {
        tracking := tracking[id := tracking[id].(deregisteredAt := Some(now), lastUpdated := now)];
      }
      published := published + [Deregistered(id, name)];
      return true;
    }

    method ReportHealth(id: string, status: HealthStatus, accepted: bool, now: Time) returns (success: bool)
      requires Valid()
      modifies this
      ensures Valid() && success == accepted
      ensures tracking == if accepted then Reporting(old(tracking), id, status, now) else old(tracking)
      ensures published == if accepted then old(published) + ChangeOf(id, Find(old(tracking), id), status) else old(published)
    {
      var seen := Find(tracking, id);
      if !accepted {
        return false;
      }
      ghost var before := tracking;
      assert InStep(before, published, id);
      if id in tracking {
        tracking := tracking[id := tracking[id].(status := status, lastHealthCheck := Some(now), lastUpdated := now)];
      }
      if seen.Some? && seen.value.status != status {
        var e := HealthChanged(id, seen.value.serviceName, seen.value.status, status);
        PublishSyncs(before, published, tracking, e);
        ChainAppend(published, e);
        published := published + [e];
      } else {
        SameStatusesSync(before, published, tracking);
      }
      return true;
    }
  }

}
