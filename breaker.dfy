/** The circuit breaker of retry.go: Closed, Open and HalfOpen, a failure
    counter and the time of the last failure. Time is an explicit `now`,
    in nanoseconds; the operation is the result it returns when invoked. */
module Breaker {
  import opened Types

  datatype BreakerState = Closed | Open | HalfOpen

  /** The mutable part of a breaker, as a value. */
  datatype BreakerView = BreakerView(state: BreakerState, failureCount: int, lastFailureTime: int)

  /** What one Execute call does: the new view, the error returned, and
      whether the operation was invoked. */
  datatype ExecuteStep = ExecuteStep(after: BreakerView, err: Option<Error>, invoked: bool)

  /** recordFailure */
  function AfterFailure(config: CircuitBreakerConfig, b: BreakerView, now: int): BreakerView
  {
    var count := b.failureCount + 1;
    BreakerView(if count >= config.failureThreshold then Open else b.state, count, now)
  }

  /** recordSuccess, and Reset */
  function Cleared(b: BreakerView): BreakerView
  {
    BreakerView(Closed, 0, b.lastFailureTime)
  }

  function ExecuteOnce(config: CircuitBreakerConfig, b: BreakerView, now: int, outcome: Option<Error>): ExecuteStep
  {
    if b.state == Open && now - b.lastFailureTime <= config.recoveryTimeout then
      ExecuteStep(b, Some(CircuitOpen), false)
    else
      var admitted := if b.state == Open then b.(state := HalfOpen) else b;
      if outcome.Some? then ExecuteStep(AfterFailure(config, admitted, now), outcome, true)
      else ExecuteStep(Cleared(admitted), None, true)
  }

  /** The breaker's invariant: it is only ever away from Closed once the
      failure count has reached the threshold. */
  predicate Consistent(config: CircuitBreakerConfig, b: BreakerView)
  {
    b.failureCount >= 0 && (b.state != Closed ==> b.failureCount >= config.failureThreshold)
  }

  lemma ExecutePreservesConsistent(config: CircuitBreakerConfig, b: BreakerView, now: int, outcome: Option<Error>)
    requires Consistent(config, b)
    ensures Consistent(config, ExecuteOnce(config, b, now, outcome).after)
  {
  }

  /** While Open and within the recovery timeout, the call is refused with
      "circuit breaker is open", the operation is not run and nothing changes. */
  lemma OpenRejects(config: CircuitBreakerConfig, b: BreakerView, now: int, outcome: Option<Error>)
    requires b.state == Open && now - b.lastFailureTime <= config.recoveryTimeout
    ensures ExecuteOnce(config, b, now, outcome) == ExecuteStep(b, Some(CircuitOpen), false)
  {
  }

  /** After the recovery timeout the call goes through in HalfOpen: success
      closes with a zero count, failure (of a consistent breaker) reopens. */
  lemma HalfOpenTrial(config: CircuitBreakerConfig, b: BreakerView, now: int, outcome: Option<Error>)
    requires Consistent(config, b)
    requires b.state == Open && now - b.lastFailureTime > config.recoveryTimeout
    ensures var s := ExecuteOnce(config, b, now, outcome);
      && s.invoked && s.err == outcome
      && (outcome.None? ==> s.after.state == Closed && s.after.failureCount == 0)
      && (outcome.Some? ==> s.after == BreakerView(Open, b.failureCount + 1, now))
  {
  }

  /** Every failure counts and stamps the time; the breaker opens exactly
      when the count reaches the threshold (or it was already away from
      Closed); every success clears. */
  lemma AdmittedOutcome(config: CircuitBreakerConfig, b: BreakerView, now: int, outcome: Option<Error>)
    requires b.state != Open
    ensures var s := ExecuteOnce(config, b, now, outcome);
      && s.invoked && s.err == outcome
      && (outcome.Some? ==> s.after.failureCount == b.failureCount + 1 && s.after.lastFailureTime == now
                            && (s.after.state == Open <==> b.failureCount + 1 >= config.failureThreshold)
                            && (b.failureCount + 1 < config.failureThreshold ==> s.after.state == b.state))
      && (outcome.None? ==> s.after == BreakerView(Closed, 0, b.lastFailureTime))
  {
  }

  /** The sequence of calls of the breaker test: with threshold 2, a
      success keeps it Closed, one failure still leaves it Closed, a second
      opens it, and a reset closes it with count 0. */
  lemma ThresholdTwoScenario(config: CircuitBreakerConfig, t0: int, t1: int, t2: int, e: Error)
    requires config.failureThreshold == 2
    ensures var initial := BreakerView(Closed, 0, 0);
      var s0 := ExecuteOnce(config, initial, t0, None);
      var s1 := ExecuteOnce(config, s0.after, t1, Some(e));
      var s2 := ExecuteOnce(config, s1.after, t2, Some(e));
      && s0.after.state == Closed && s0.err.None?
      && s1.after.state == Closed && s1.after.failureCount == 1 && s1.err == Some(e)
      && s2.after.state == Open && s2.after.failureCount == 2 && s2.err == Some(e)
      && Cleared(s2.after).state == Closed && Cleared(s2.after).failureCount == 0
  {
  }

  /** One call through the breaker: when it happens and what the operation
      would return. */
  datatype Call = Call(now: int, outcome: Option<Error>)

  function RunCalls(config: CircuitBreakerConfig, b: BreakerView, calls: seq<Call>): BreakerView
    decreases |calls|
  {
    if calls == [] then b
    else RunCalls(config, ExecuteOnce(config, b, calls[0].now, calls[0].outcome).after, calls[1..])
  }

  /** The invariant holds across any sequence of calls. */
  lemma {:induction false} RunCallsConsistent(config: CircuitBreakerConfig, b: BreakerView, calls: seq<Call>)
    requires Consistent(config, b)
    ensures Consistent(config, RunCalls(config, b, calls))
    decreases |calls|
  {
    if calls != [] {
      ExecutePreservesConsistent(config, b, calls[0].now, calls[0].outcome);
      RunCallsConsistent(config, ExecuteOnce(config, b, calls[0].now, calls[0].outcome).after, calls[1..]);
    }
  }

  /** From a consistent breaker, as many consecutive failures as the
      threshold still allows leave it Open, whatever the timing: a refused
      call keeps it Open and a failed half-open trial reopens it. */
  lemma {:induction false} ConsecutiveFailuresOpen(config: CircuitBreakerConfig, b: BreakerView, calls: seq<Call>)
    requires Consistent(config, b)
    requires forall i :: 0 <= i < |calls| ==> calls[i].outcome.Some?
    requires b.state != Closed || |calls| >= config.failureThreshold - b.failureCount
    requires b.state != HalfOpen || |calls| >= 1
    requires |calls| >= 1 || b.state == Open
    ensures RunCalls(config, b, calls).state == Open
    decreases |calls|
  {
    if calls != [] {
      var next := ExecuteOnce(config, b, calls[0].now, calls[0].outcome).after;
      ExecutePreservesConsistent(config, b, calls[0].now, calls[0].outcome);
      if |calls| > 1 {
        assert next.state != Closed || |calls[1..]| >= config.failureThreshold - next.failureCount;
        ConsecutiveFailuresOpen(config, next, calls[1..]);
      } else {
        assert next.state == Open;
      }
    }
  }

  class CircuitBreaker {
    const config: CircuitBreakerConfig
    var failureCount: int
    var lastFailureTime: int
    var state: BreakerState

    function View(): BreakerView
      reads this
    {
      BreakerView(state, failureCount, lastFailureTime)
    }

    ghost predicate Valid()
      reads this
    {
      Consistent(config, View())
    }

    /** NewCircuitBreaker: Closed with no failures; a nil configuration
        means the defaults. */
    constructor (config: Option<CircuitBreakerConfig>)
      ensures this.config == if config.Some? then config.value else DefaultCircuitBreakerConfig()
      ensures state == Closed && failureCount == 0 && lastFailureTime == 0
      ensures Valid()
    {
      this.config := if config.Some? then config.value else DefaultCircuitBreakerConfig();
      failureCount := 0;
      lastFailureTime := 0;
      state := Closed;
    }

    method Execute(now: int, outcome: Option<Error>) returns (err: Option<Error>, invoked: bool)
      requires Valid()
      modifies this
      ensures Valid()
      ensures var s := ExecuteOnce(config, old(View()), now, outcome);
        View() == s.after && err == s.err && invoked == s.invoked
    {
      if state == Open {
        if now - lastFailureTime > config.recoveryTimeout {
          state := HalfOpen;
        } else {
          return Some(CircuitOpen), false;
        }
      }
      invoked := true;
      if outcome.Some? {
        RecordFailure(now);
        return outcome, invoked;
      }
      RecordSuccess();
      err := None;
    }

    method RecordFailure(now: int)
      requires Valid()
      modifies this
      ensures Valid()
      ensures View() == AfterFailure(config, old(View()), now)
    {
      failureCount := failureCount + 1;
      lastFailureTime := now;
      if failureCount >= config.failureThreshold {
        state := Open;
      }
    }

    method RecordSuccess()
      modifies this
      ensures View() == Cleared(old(View())) && Valid()
    {
      failureCount := 0;
      state := Closed;
    }

    function GetState(): (s: BreakerState)
      reads this
      ensures s == View().state
    {
      state
    }

    method Reset()
      modifies this
      ensures View() == Cleared(old(View())) && Valid()
    {
      failureCount := 0;
      state := Closed;
    }
  }
}
