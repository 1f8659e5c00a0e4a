/**
 The circuit breaker of internal/healthmonitor/breaker.go.

 `Breaker` is the value of one breaker; the four functions give the effect of one
 locked call. `CircuitBreaker` is the object itself, whose methods change its fields
 one assignment at a time and are proved to have exactly those effects.
 */
module Breakers {
  import opened Common

  datatype State = Closed | Open | HalfOpen

  /** `failureThreshold` and `breakDuration` are never checked by the constructors. */
  datatype Config = Config(failureThreshold: int, recoveryThreshold: pos, breakDuration: Time)

  datatype Breaker = Breaker(state: State, failureCount: nat, recoveryCount: nat, openedAt: Time, halfOpenUsed: bool)

  const FRESH := Breaker(Closed, 0, 0, 0, false)

  /** The number of consecutive failures that opens a closed breaker: a threshold below one acts as one. */
  function TripCount(cfg: Config): pos {
    Max(1, cfg.failureThreshold)
  }

  predicate Elapsed(cfg: Config, b: Breaker, now: Time) {
    cfg.breakDuration <= now - b.openedAt
  }

  /** Whether a request asking at `now` is let through. */
  predicate Admits(cfg: Config, b: Breaker, now: Time) {
    match b.state
    case Closed => true
    case Open => Elapsed(cfg, b, now)
    case HalfOpen => !b.halfOpenUsed
  }

  function AfterAllow(cfg: Config, b: Breaker, now: Time): Breaker {
    if b.state.Closed? || !Admits(cfg, b, now) then b else b.(state := HalfOpen, halfOpenUsed := true)
  }

  function AfterSuccess(cfg: Config, b: Breaker): Breaker {
    if b.state.HalfOpen? && b.recoveryCount + 1 < cfg.recoveryThreshold then
      b.(failureCount := 0, recoveryCount := b.recoveryCount + 1, halfOpenUsed := false)
    else
      b.(state := Closed, failureCount := 0, halfOpenUsed := false,
         recoveryCount := if b.state.HalfOpen? then 0 else b.recoveryCount)
  }

  function AfterFailure(cfg: Config, b: Breaker, now: Time): Breaker {
    var counted := b.(failureCount := b.failureCount + 1, recoveryCount := 0);
    if b.state.HalfOpen? || cfg.failureThreshold <= b.failureCount + 1 then
      counted.(state := Open, openedAt := now, halfOpenUsed := false)
    else
      counted
  }

  function AfterLook(cfg: Config, b: Breaker, now: Time): Breaker {
    if b.state.Open? && Elapsed(cfg, b, now) then b.(state := HalfOpen) else b
  }

  function Told(cfg: Config, b: Breaker, success: bool, now: Time): Breaker {
    if success then AfterSuccess(cfg, b) else AfterFailure(cfg, b, now)
  }

  class CircuitBreaker {
    var state: State
    var failureCount: nat
    const failureThreshold: int
    const recoveryThreshold: pos
    var recoveryCount: nat
    const breakDuration: Time
    var openedAt: Time
    var halfOpenUsed: bool

    function Settings(): Config {
      Config(failureThreshold, recoveryThreshold, breakDuration)
    }

    function Value(): Breaker
      reads this
    {
      Breaker(state, failureCount, recoveryCount, openedAt, halfOpenUsed)
    }

    /** NewCircuitBreaker: recovery takes one success. */
    constructor (failureThreshold: int, breakDuration: Time)
      ensures Value() == FRESH
      ensures Settings() == Config(failureThreshold, 1, breakDuration)
    {
      this.failureThreshold, this.recoveryThreshold, this.breakDuration := failureThreshold, 1, breakDuration;
      state, failureCount, recoveryCount, openedAt, halfOpenUsed := Closed, 0, 0, 0, false;
    }

    /** NewCircuitBreakerWithRecovery: a recovery threshold below one is raised to one. */
    constructor WithRecovery(failureThreshold: int, recoveryThreshold: int, breakDuration: Time)
      ensures Value() == FRESH
      ensures Settings() == Config(failureThreshold, Max(1, recoveryThreshold), breakDuration)
    {
      var recovery := recoveryThreshold;
      if recovery < 1 {
        recovery := 1;
      }
      this.failureThreshold, this.recoveryThreshold, this.breakDuration := failureThreshold, recovery, breakDuration;
      state, failureCount, recoveryCount, openedAt, halfOpenUsed := Closed, 0, 0, 0, false;
    }

    method Allow(now: Time) returns (admitted: bool)
      modifies this
      ensures admitted == Admits(Settings(), old(Value()), now)
      ensures Value() == AfterAllow(Settings(), old(Value()), now)
    {
      match state
      case Closed =>
        return true;
      case Open =>
        if now - openedAt >= breakDuration {
          state := HalfOpen;
          halfOpenUsed := true;
          return true;
        }
        return false;
      case HalfOpen =>
        if !halfOpenUsed {
          halfOpenUsed := true;
          return true;
        }
        return false;
    }

    method RecordSuccess()
      modifies this
      ensures Value() == AfterSuccess(Settings(), old(Value()))
    {
      failureCount := 0;
      if state == HalfOpen {
        recoveryCount := recoveryCount + 1;
        if recoveryCount >= recoveryThreshold {
          state := Closed;
          recoveryCount := 0;
        }
        halfOpenUsed := false;
        return;
      }
      state := Closed;
      halfOpenUsed := false;
    }

    method RecordFailure(now: Time)
      modifies this
      ensures Value() == AfterFailure(Settings(), old(Value()), now)
    {
      failureCount := failureCount + 1;
      recoveryCount := 0;
      if state == HalfOpen || failureCount >= failureThreshold {
        state := Open;
        openedAt := now;
        halfOpenUsed := false;
      }
    }

    method Look(now: Time) returns (seen: State)
      modifies this
      ensures Value() == AfterLook(Settings(), old(Value()), now)
      ensures seen == state
    {
      if state == Open && now - openedAt >= breakDuration {
        state := HalfOpen;
      }
      return state;
    }
  }

  /** The values of the breakers of a table, by instance ID. */
  type BreakerMap = map<string, Breaker>

  function ValueOf(breakers: BreakerMap, id: string): Breaker {
    if id in breakers then breakers[id] else FRESH
  }

  /** The breaker objects of the gateway or of the health worker: made on first use, one per instance ID. */
  class BreakerTable {
    const settings: Config
    var breakers: map<string, CircuitBreaker>
    ghost var objects: set<CircuitBreaker>

    ghost predicate Valid()
      reads this
    {
      && (forall id | id in breakers :: breakers[id] in objects && breakers[id].Settings() == settings)
      && (forall a, b | a in breakers && b in breakers && breakers[a] == breakers[b] :: a == b)
    }

    ghost function Contents(): BreakerMap
      reads this, breakers.Values
    {
      map id | id in breakers :: breakers[id].Value()
    }

    constructor (failureThreshold: int, recoveryThreshold: int, breakDuration: Time)
      ensures Valid() && objects == {} && Contents() == map[]
      ensures settings == Config(failureThreshold, Max(1, recoveryThreshold), breakDuration)
    {
      settings := Config(failureThreshold, Max(1, recoveryThreshold), breakDuration);
      breakers, objects := map[], {};
    }

    method Get(id: string) returns (cb: CircuitBreaker)
      requires Valid()
      modifies this
      ensures Valid() && fresh(objects - old(objects))
      ensures id in breakers && cb == breakers[id]
      ensures Contents() == old(Contents())[id := ValueOf(old(Contents()), id)]
    {
      if id in breakers {
        assert Contents() == Contents()[id := ValueOf(Contents(), id)];
        return breakers[id];
      }
      cb := new CircuitBreaker.WithRecovery(settings.failureThreshold, settings.recoveryThreshold, settings.breakDuration);
      breakers, objects := breakers[id := cb], objects + {cb};
    }

    /** Find or make the breaker of `id` and ask it. */
    method Ask(id: string, now: Time) returns (cb: CircuitBreaker, admitted: bool)
      requires Valid()
      modifies this, objects
      ensures Valid() && fresh(objects - old(objects))
      ensures id in breakers && cb == breakers[id]
      ensures admitted == Admits(settings, ValueOf(old(Contents()), id), now)
      ensures Contents() == old(Contents())[id := AfterAllow(settings, ValueOf(old(Contents()), id), now)]
    {
      cb := Get(id);
      admitted := AskHeld(id, cb, now);
    }

    method AskHeld(id: string, cb: CircuitBreaker, now: Time) returns (admitted: bool)
      requires Valid() && id in breakers && cb == breakers[id]
      modifies cb
      ensures admitted == Admits(settings, old(Contents())[id], now)
      ensures Contents() == old(Contents())[id := AfterAllow(settings, old(Contents())[id], now)]
    {
      admitted := cb.Allow(now);
    }

    /** Tell the breaker that admitted a request to `id` how it went. */
    method Tell(id: string, cb: CircuitBreaker, success: bool, now: Time)
      requires Valid() && id in breakers && cb == breakers[id]
      modifies cb
      ensures Contents() == old(Contents())[id := Told(settings, old(Contents())[id], success, now)]
    {
      if success {
        cb.RecordSuccess();
      } else {
        cb.RecordFailure(now);
      }
    }
  }
}
