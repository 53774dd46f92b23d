/** The three-state circuit breaker guarding calls to the language model
    (backend/services/circuit_breaker.py). Wall-clock reads are an integer `now`. */
module Breaker {
  import opened Wrappers

  datatype CircuitState = Closed | Open | HalfOpen

  /** The `value` of each state, as `get_state` reports it. */
  function StateValue(s: CircuitState): string
  {
    match s
    case Closed => "closed"
    case Open => "open"
    case HalfOpen => "half_open"
  }

  const DefaultFailureThreshold: int := 5
  const DefaultTimeoutSeconds: int := 60
  /** Successes in half-open needed before the breaker closes again. */
  const SuccessesToClose: nat := 2

  /** The breaker's settings, fixed at construction. */
  datatype Config = Config(failureThreshold: int, timeoutSeconds: int)

  /** The breaker's mutable fields, as one value. */
  datatype Counters = Counters(state: CircuitState, failureCount: nat, successCount: nat, lastFailureTime: Option<int>)

  const Initial := Counters(Closed, 0, 0, None)

  /** What every reachable breaker satisfies: only half-open counts successes, and it never
      holds two; a closed breaker is below its threshold unless it has no failures at all
      (a threshold of 0 or less opens on the first failure); a breaker that is not closed
      has seen a failure. */
  predicate Inv(cfg: Config, c: Counters)
  {
    && (c.successCount > 0 ==> c.state == HalfOpen)
    && c.successCount < SuccessesToClose
    && (c.state == Closed ==> c.failureCount == 0 || c.failureCount < cfg.failureThreshold)
    && (c.state != Closed ==> c.lastFailureTime.Some?)
  }

  function Opened(c: Counters): Counters
  {
    c.(state := Open, successCount := 0)
  }

  function Reclosed(c: Counters): Counters
  {
    c.(state := Closed, failureCount := 0, successCount := 0)
  }

  function HalfOpened(c: Counters): Counters
  {
    c.(state := HalfOpen, successCount := 0)
  }

  /** Python truthiness of `last_failure_time`: `None` and `0` are both falsy. */
  predicate Truthy(t: Option<int>)
  {
    t.Some? && t.value != 0
  }

  /** The cooldown test of `can_execute`. */
  predicate TimeoutElapsed(cfg: Config, c: Counters, now: int)
  {
    Truthy(c.lastFailureTime) && now - c.lastFailureTime.value >= cfg.timeoutSeconds
  }

  /** `record_success`. */
  function OnSuccess(c: Counters): (r: Counters)
    ensures c.state == Open ==> r == c
    ensures c.state == Closed ==> r == c.(failureCount := 0)
    ensures c.state == HalfOpen && c.successCount + 1 < SuccessesToClose ==>
      r == c.(successCount := c.successCount + 1)
    ensures c.state == HalfOpen && c.successCount + 1 >= SuccessesToClose ==>
      r.state == Closed && r.failureCount == 0 && r.successCount == 0
    ensures r.lastFailureTime == c.lastFailureTime
    ensures forall cfg :: Inv(cfg, c) ==> Inv(cfg, r)
  {
    match c.state
    case HalfOpen =>
      var c1 := c.(successCount := c.successCount + 1);
      if c1.successCount >= SuccessesToClose then Reclosed(c1) else c1
    case Closed => c.(failureCount := 0)
    case Open => c
  }

  /** `record_failure` at time `now`. */
  function OnFailure(cfg: Config, c: Counters, now: int): (r: Counters)
    ensures r.failureCount == c.failureCount + 1
    ensures r.lastFailureTime == Some(now)
    ensures c.state == HalfOpen ==> r.state == Open
    ensures c.state == Open ==> r.state == Open
    ensures c.state == Closed ==> (r.state == Open <==> c.failureCount + 1 >= cfg.failureThreshold)
    ensures c.state != Open && r.state == Open ==> r.successCount == 0
    ensures r.state != Open ==> r.state == c.state && r.successCount == c.successCount
    ensures Inv(cfg, c) ==> Inv(cfg, r)
  {
    var c1 := c.(failureCount := c.failureCount + 1, lastFailureTime := Some(now));
    if c1.state == HalfOpen then Opened(c1)
    else if c1.failureCount >= cfg.failureThreshold then Opened(c1)
    else c1
  }

  /** `can_execute` at time `now`: the verdict and the fields afterwards. */
  function OnCanExecute(cfg: Config, c: Counters, now: int): (r: (bool, Counters))
    ensures r.0 <==> c.state != Open || TimeoutElapsed(cfg, c, now)
    ensures r.1 == if c.state == Open && TimeoutElapsed(cfg, c, now) then HalfOpened(c) else c
    ensures Inv(cfg, c) ==> Inv(cfg, r.1)
  {
    if c.state == Closed then (true, c)
    else if c.state == Open then
      if TimeoutElapsed(cfg, c, now) then (true, HalfOpened(c)) else (false, c)
    else (true, c)
  }

  /** Consecutive failures at the given times. */
  function Failures(cfg: Config, c: Counters, times: seq<int>): Counters
    decreases |times|
  {
    if |times| == 0 then c else Failures(cfg, OnFailure(cfg, c, times[0]), times[1..])
  }

  /** An open breaker stays open under further failures, each one counted. */
  lemma {:induction false} FailuresKeepOpen(cfg: Config, c: Counters, times: seq<int>)
    requires c.state == Open
    ensures Failures(cfg, c, times).state == Open
    ensures Failures(cfg, c, times).failureCount == c.failureCount + |times|
    decreases |times|
  {
    if |times| > 0 {
      FailuresKeepOpen(cfg, OnFailure(cfg, c, times[0]), times[1..]);
    }
  }

  /** From closed, consecutive failures count up one by one and the breaker opens exactly
      once the count reaches the threshold (after `failureThreshold` failures from a
      fresh breaker), remembering the time of the last one. */
  lemma {:induction false} ConsecutiveFailures(cfg: Config, c: Counters, times: seq<int>)
    requires c.state == Closed
    ensures Failures(cfg, c, times).failureCount == c.failureCount + |times|
    ensures Failures(cfg, c, times).state ==
      if |times| > 0 && c.failureCount + |times| >= cfg.failureThreshold then Open else Closed
    ensures |times| > 0 ==> Failures(cfg, c, times).lastFailureTime == Some(times[|times| - 1])
    decreases |times|
  {
    if |times| > 0 {
      var c1 := OnFailure(cfg, c, times[0]);
      if c1.state == Open {
        FailuresKeepOpen(cfg, c1, times[1..]);
      } else {
        ConsecutiveFailures(cfg, c1, times[1..]);
      }
      LastFailureTime(cfg, c, times);
    }
  }

  lemma {:induction false} LastFailureTime(cfg: Config, c: Counters, times: seq<int>)
    requires |times| > 0
    ensures Failures(cfg, c, times).lastFailureTime == Some(times[|times| - 1])
    decreases |times|
  {
    if |times| > 1 {
      LastFailureTime(cfg, OnFailure(cfg, c, times[0]), times[1..]);
    }
  }

  /** Recovery: once the cooldown has passed, an open breaker lets a caller through in
      half-open, and two successes close it with both counters reset. */
  lemma RecoveryAfterCooldown(cfg: Config, c: Counters, now: int)
    requires Inv(cfg, c) && c.state == Open && TimeoutElapsed(cfg, c, now)
    ensures var (ok, h) := OnCanExecute(cfg, c, now);
      && ok && h.state == HalfOpen
      && OnSuccess(h).state == HalfOpen && OnSuccess(h).successCount == 1
      && OnSuccess(OnSuccess(h)) == Counters(Closed, 0, 0, c.lastFailureTime)
  {
  }

  /** What `get_state` reports. */
  datatype StateReport = StateReport(
    name: string, state: string, failureCount: nat, failureThreshold: int,
    lastFailureTime: Option<int>, timeoutSeconds: int)

  class CircuitBreaker {
    const name: string
    const failureThreshold: int
    const timeoutSeconds: int
    var state: CircuitState
    var failureCount: nat
    var successCount: nat
    var lastFailureTime: Option<int>

    function Cfg(): Config
    {
      Config(failureThreshold, timeoutSeconds)
    }

    function Snapshot(): Counters
      reads this
    {
      Counters(state, failureCount, successCount, lastFailureTime)
    }

    ghost predicate Valid()
      reads this
    {
      Inv(Cfg(), Snapshot())
    }

    /** `CircuitBreaker(failure_threshold, timeout_seconds, name)`; `envThreshold` and
        `envTimeout` are the parsed CIRCUIT_BREAKER_THRESHOLD and CIRCUIT_BREAKER_TIMEOUT
        environment variables. */
    constructor (failureThreshold: Option<int>, timeoutSeconds: Option<int>, name: string,
                 envThreshold: Option<int>, envTimeout: Option<int>)
      ensures this.name == name
      ensures this.failureThreshold == OrElse(failureThreshold, envThreshold.GetOr(DefaultFailureThreshold))
      ensures this.timeoutSeconds == OrElse(timeoutSeconds, envTimeout.GetOr(DefaultTimeoutSeconds))
      ensures Snapshot() == Initial
      ensures Valid()
    {
      this.name := name;
      this.failureThreshold := OrElse(failureThreshold, envThreshold.GetOr(DefaultFailureThreshold));
      this.timeoutSeconds := OrElse(timeoutSeconds, envTimeout.GetOr(DefaultTimeoutSeconds));
      failureCount := 0;
      lastFailureTime := None;
      state := Closed;
      successCount := 0;
    }

    method RecordSuccess()
      requires Valid()
      modifies this
      ensures Valid()
      ensures Snapshot() == OnSuccess(old(Snapshot()))
    {
      if state == HalfOpen {
        successCount := successCount + 1;
        if successCount >= SuccessesToClose {
          CloseCircuit();
        }
      } else if state == Closed {
        failureCount := 0;
      }
    }

    method RecordFailure(now: int)
      requires Valid()
      modifies this
      ensures Valid()
      ensures Snapshot() == OnFailure(Cfg(), old(Snapshot()), now)
    {
      failureCount := failureCount + 1;
      lastFailureTime := Some(now);
      if state == HalfOpen {
        OpenCircuit();
      } else if failureCount >= failureThreshold {
        OpenCircuit();
      }
    }

    method CanExecute(now: int) returns (ok: bool)
      requires Valid()
      modifies this
      ensures Valid()
      ensures (ok, Snapshot()) == OnCanExecute(Cfg(), old(Snapshot()), now)
    {
      if state == Closed {
        return true;
      }
      if state == Open {
        if Truthy(lastFailureTime) && now - lastFailureTime.value >= timeoutSeconds {
          HalfOpenCircuit();
          return true;
        }
        return false;
      }
      return true;
    }

    method OpenCircuit()
      modifies this
      ensures Snapshot() == Opened(old(Snapshot()))
    {
      state := Open;
      successCount := 0;
    }

    method CloseCircuit()
      modifies this
      ensures Snapshot() == Reclosed(old(Snapshot()))
    {
      state := Closed;
      failureCount := 0;
      successCount := 0;
    }

    method HalfOpenCircuit()
      modifies this
      ensures Snapshot() == HalfOpened(old(Snapshot()))
    {
      state := HalfOpen;
      successCount := 0;
    }

    /** `get_state`: a read-only report whose state value identifies the state. */
    function GetState(): (r: StateReport)
      reads this
      ensures r.name == name && r.failureThreshold == failureThreshold && r.timeoutSeconds == timeoutSeconds
      ensures r.failureCount == failureCount && r.lastFailureTime == lastFailureTime
      ensures forall s :: r.state == StateValue(s) <==> s == state
    {
      StateReport(name, StateValue(state), failureCount, failureThreshold, lastFailureTime, timeoutSeconds)
    }
  }
}
