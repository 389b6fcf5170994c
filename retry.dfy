/** Resilience primitives (retry.go): the bounded retry loop with a
    cancellation check before every attempt and during every backoff wait,
    its variant with a post-success validator, and the circuit breaker.

    An operation is the sequence of its results: `op(i)` is what its i-th
    invocation returns (None for a nil error). The backoff delay only
    matters through the wait it causes, and that wait is a cancellation
    checkpoint: before attempt i the context is looked at at point 2*i,
    during the wait after attempt i at point 2*i+1. */
module Retry {
  import opened Types

  datatype RetryOutcome = RetryOutcome(err: Option<Error>, invocations: nat)

  /** The retry loop from attempt `attempt` on, `last` being the error of
      the previous attempt. */
  function RetryFrom(maxRetries: int, ctx: Context, op: nat -> Option<Error>, attempt: nat, last: Option<Error>): RetryOutcome
    decreases maxRetries + 1 - attempt
  {
    if attempt > maxRetries then RetryOutcome(Some(RetriesExhausted(maxRetries, last)), 0)
    else if Done(ctx, 2 * attempt) then RetryOutcome(Some(ContextDone), 0)
    else if op(attempt).None? then RetryOutcome(None, 1)
    else if attempt == maxRetries then RetryOutcome(Some(RetriesExhausted(maxRetries, op(attempt))), 1)
    else if Done(ctx, 2 * attempt + 1) then RetryOutcome(Some(ContextDone), 1)
    else
      var rest := RetryFrom(maxRetries, ctx, op, attempt + 1, op(attempt));
      RetryOutcome(rest.err, rest.invocations + 1)
  }

  function Retry(maxRetries: int, ctx: Context, op: nat -> Option<Error>): RetryOutcome
  {
    RetryFrom(maxRetries, ctx, op, 0, None)
  }

  /** Never more than MaxRetries+1 invocations; a negative MaxRetries runs
      no attempt and reports exhaustion with no last error. */
  lemma {:induction false} RetryFromBound(maxRetries: int, ctx: Context, op: nat -> Option<Error>, attempt: nat, last: Option<Error>)
    requires attempt <= maxRetries + 1
    ensures RetryFrom(maxRetries, ctx, op, attempt, last).invocations <= maxRetries + 1 - attempt
    decreases maxRetries + 1 - attempt
  {
    if attempt <= maxRetries && !Done(ctx, 2 * attempt) && op(attempt).Some?
       && attempt != maxRetries && !Done(ctx, 2 * attempt + 1) {
      RetryFromBound(maxRetries, ctx, op, attempt + 1, op(attempt));
    }
  }

  lemma RetryBound(maxRetries: int, ctx: Context, op: nat -> Option<Error>)
    ensures maxRetries >= 0 ==> Retry(maxRetries, ctx, op).invocations <= maxRetries + 1
    ensures maxRetries < 0 ==> Retry(maxRetries, ctx, op) == RetryOutcome(Some(RetriesExhausted(maxRetries, None)), 0)
  {
    if maxRetries >= 0 {
      RetryFromBound(maxRetries, ctx, op, 0, None);
    }
  }

  /** An operation that fails k <= MaxRetries times and then succeeds is
      invoked exactly k+1 times and the result is success. */
  lemma {:induction false} RetryFromSucceeds(maxRetries: int, ctx: Context, op: nat -> Option<Error>, attempt: nat, last: Option<Error>, k: nat)
    requires attempt <= k <= maxRetries
    requires forall i :: attempt <= i < k ==> op(i).Some?
    requires op(k).None?
    requires !Done(ctx, 2 * k)
    ensures RetryFrom(maxRetries, ctx, op, attempt, last) == RetryOutcome(None, k + 1 - attempt)
    decreases k - attempt
  {
    if attempt < k {
      assert !Done(ctx, 2 * attempt) && !Done(ctx, 2 * attempt + 1);
      RetryFromSucceeds(maxRetries, ctx, op, attempt + 1, op(attempt), k);
    }
  }

  lemma RetrySucceedsAfterFailures(maxRetries: int, ctx: Context, op: nat -> Option<Error>, k: nat)
    requires k <= maxRetries
    requires forall i :: 0 <= i < k ==> op(i).Some?
    requires op(k).None?
    requires !Done(ctx, 2 * k)
    ensures Retry(maxRetries, ctx, op) == RetryOutcome(None, k + 1)
  {
    RetryFromSucceeds(maxRetries, ctx, op, 0, None, k);
  }

  /** When every attempt fails, the result wraps the last failure after
      exactly MaxRetries+1 invocations; the context is not looked at after
      the final attempt, so a cancellation there changes nothing. */
  lemma {:induction false} RetryFromExhausts(maxRetries: int, ctx: Context, op: nat -> Option<Error>, attempt: nat, last: Option<Error>)
    requires attempt <= maxRetries
    requires forall i :: attempt <= i <= maxRetries ==> op(i).Some?
    requires !Done(ctx, 2 * maxRetries)
    ensures RetryFrom(maxRetries, ctx, op, attempt, last)
         == RetryOutcome(Some(RetriesExhausted(maxRetries, op(maxRetries))), maxRetries + 1 - attempt)
    decreases maxRetries - attempt
  {
    if attempt < maxRetries {
      assert !Done(ctx, 2 * attempt) && !Done(ctx, 2 * attempt + 1);
      RetryFromExhausts(maxRetries, ctx, op, attempt + 1, op(attempt));
    }
  }

  lemma RetryAllFail(maxRetries: int, ctx: Context, op: nat -> Option<Error>)
    requires 0 <= maxRetries
    requires forall i :: 0 <= i <= maxRetries ==> op(i).Some?
    requires !Done(ctx, 2 * maxRetries)
    ensures Retry(maxRetries, ctx, op) == RetryOutcome(Some(RetriesExhausted(maxRetries, op(maxRetries))), maxRetries + 1)
  {
    RetryFromExhausts(maxRetries, ctx, op, 0, None);
  }

  /** A context cancelled before attempt a stops the loop: at most a
      invocations, and if none of them succeeded and the budget reached
      that far, the result is the context's error. */
  lemma {:induction false} RetryFromCancelled(maxRetries: int, ctx: Context, op: nat -> Option<Error>, attempt: nat, last: Option<Error>, a: nat)
    requires attempt <= a && Done(ctx, 2 * a)
    ensures RetryFrom(maxRetries, ctx, op, attempt, last).invocations <= a - attempt
    ensures a <= maxRetries && (forall i :: attempt <= i < a ==> op(i).Some?) ==>
              RetryFrom(maxRetries, ctx, op, attempt, last).err == Some(ContextDone)
    decreases a - attempt
  {
    if attempt < a && attempt <= maxRetries && !Done(ctx, 2 * attempt) && op(attempt).Some?
       && attempt != maxRetries && !Done(ctx, 2 * attempt + 1) {
      RetryFromCancelled(maxRetries, ctx, op, attempt + 1, op(attempt), a);
    }
  }

  lemma RetryCancelled(maxRetries: int, ctx: Context, op: nat -> Option<Error>, a: nat)
    requires Done(ctx, 2 * a)
    ensures Retry(maxRetries, ctx, op).invocations <= a
    ensures a <= maxRetries && (forall i :: 0 <= i < a ==> op(i).Some?) ==> Retry(maxRetries, ctx, op).err == Some(ContextDone)
  {
    RetryFromCancelled(maxRetries, ctx, op, 0, None, a);
  }

  /** Success is reported only when the last invocation succeeded and every
      earlier one failed. */
  lemma {:induction false} RetryFromSuccessMeans(maxRetries: int, ctx: Context, op: nat -> Option<Error>, attempt: nat, last: Option<Error>)
    ensures var r := RetryFrom(maxRetries, ctx, op, attempt, last);
      r.err.None? ==> r.invocations >= 1 && op(attempt + r.invocations - 1).None?
                      && forall i :: attempt <= i < attempt + r.invocations - 1 ==> op(i).Some?
    decreases maxRetries + 1 - attempt
  {
    if attempt <= maxRetries && !Done(ctx, 2 * attempt) && op(attempt).Some?
       && attempt != maxRetries && !Done(ctx, 2 * attempt + 1) {
      RetryFromSuccessMeans(maxRetries, ctx, op, attempt + 1, op(attempt));
    }
  }

  // ---------------------------------------------------------------------
  // With a validator run after each successful operation.

  datatype ValidatedOutcome = ValidatedOutcome(err: Option<Error>, opCalls: nat, validatorCalls: nat)

  /** The failure of one attempt: the operation's error, else the
      validator's (its `vcalls`-th invocation), else none. */
  function AttemptFailure(op: nat -> Option<Error>, validator: Option<nat -> Option<Error>>, attempt: nat, vcalls: nat): Option<Error>
  {
    if op(attempt).Some? then op(attempt)
    else if validator.Some? then validator.value(vcalls)
    else None
  }

  /** The validator runs in an attempt only after the operation succeeded. */
  function ValidatorRuns(op: nat -> Option<Error>, validator: Option<nat -> Option<Error>>, attempt: nat): nat
  {
    if op(attempt).None? && validator.Some? then 1 else 0
  }

  function ValidatedFrom(maxRetries: int, ctx: Context, op: nat -> Option<Error>, validator: Option<nat -> Option<Error>>,
                         attempt: nat, vcalls: nat, last: Option<Error>): ValidatedOutcome
    decreases maxRetries + 1 - attempt
  {
    if attempt > maxRetries then ValidatedOutcome(Some(RetriesExhausted(maxRetries, last)), 0, 0)
    else if Done(ctx, 2 * attempt) then ValidatedOutcome(Some(ContextDone), 0, 0)
    else
      var failure := AttemptFailure(op, validator, attempt, vcalls);
      var vc := ValidatorRuns(op, validator, attempt);
      if failure.None? then ValidatedOutcome(None, 1, vc)
      else if attempt == maxRetries then ValidatedOutcome(Some(RetriesExhausted(maxRetries, failure)), 1, vc)
      else if Done(ctx, 2 * attempt + 1) then ValidatedOutcome(Some(ContextDone), 1, vc)
      else
        var rest := ValidatedFrom(maxRetries, ctx, op, validator, attempt + 1, vcalls + vc, failure);
        ValidatedOutcome(rest.err, rest.opCalls + 1, rest.validatorCalls + vc)
  }

  function RetryValidated(maxRetries: int, ctx: Context, op: nat -> Option<Error>, validator: Option<nat -> Option<Error>>): ValidatedOutcome
  {
    ValidatedFrom(maxRetries, ctx, op, validator, 0, 0, None)
  }

  /** Without a validator the validated loop is the plain loop. */
  lemma {:induction false} ValidatedWithoutValidator(maxRetries: int, ctx: Context, op: nat -> Option<Error>, attempt: nat, vcalls: nat, last: Option<Error>)
    ensures var v := ValidatedFrom(maxRetries, ctx, op, None, attempt, vcalls, last);
            var r := RetryFrom(maxRetries, ctx, op, attempt, last);
            v.err == r.err && v.opCalls == r.invocations && v.validatorCalls == 0
    decreases maxRetries + 1 - attempt
  {
    if attempt <= maxRetries && !Done(ctx, 2 * attempt) && op(attempt).Some?
       && attempt != maxRetries && !Done(ctx, 2 * attempt + 1) {
      ValidatedWithoutValidator(maxRetries, ctx, op, attempt + 1, vcalls, op(attempt));
    }
  }

  /** How many times the validator runs in attempts from..to-1: once in
      every attempt whose operation succeeded, if there is a validator. */
  function ValidatorCallsBetween(op: nat -> Option<Error>, validator: Option<nat -> Option<Error>>, from: nat, to: nat): nat
    decreases to - from
  {
    if from >= to then 0 else ValidatorRuns(op, validator, from) + ValidatorCallsBetween(op, validator, from + 1, to)
  }

  /** The failure of every attempt from `from` on, the validator having
      run `vfrom` times before: a validator failure stands where an
      operation failure would. */
  function AttemptResults(op: nat -> Option<Error>, validator: Option<nat -> Option<Error>>, from: nat, vfrom: nat): nat -> Option<Error>
  {
    (i: nat) => AttemptFailure(op, validator, i, vfrom + ValidatorCallsBetween(op, validator, from, i))
  }

  /** The validator runs only in the attempts whose operation succeeded,
      exactly once in each; success means the last attempt's operation
      succeeded and its validator (if any) did too; the budget is shared,
      so at most MaxRetries+1 operation calls. */
  lemma {:induction false} ValidatedFromFacts(maxRetries: int, ctx: Context, op: nat -> Option<Error>, validator: Option<nat -> Option<Error>>,
                                              attempt: nat, vcalls: nat, last: Option<Error>)
    requires attempt <= maxRetries + 1
    ensures var v := ValidatedFrom(maxRetries, ctx, op, validator, attempt, vcalls, last);
      && v.validatorCalls <= v.opCalls <= maxRetries + 1 - attempt
      && v.validatorCalls == ValidatorCallsBetween(op, validator, attempt, attempt + v.opCalls)
      && (validator.None? ==> v.validatorCalls == 0)
      && (v.err.None? ==> v.opCalls >= 1 && op(attempt + v.opCalls - 1).None?
                          && (validator.Some? ==> v.validatorCalls >= 1 && validator.value(vcalls + v.validatorCalls - 1).None?))
    decreases maxRetries + 1 - attempt
  {
    if attempt <= maxRetries && !Done(ctx, 2 * attempt) {
      var failure := AttemptFailure(op, validator, attempt, vcalls);
      var vc := ValidatorRuns(op, validator, attempt);
      if failure.Some? && attempt != maxRetries && !Done(ctx, 2 * attempt + 1) {
        ValidatedFromFacts(maxRetries, ctx, op, validator, attempt + 1, vcalls + vc, failure);
      }
    }
  }

  /** The retry loop only looks at the results of the attempts it makes. */
  lemma {:induction false} RetryFromAgree(maxRetries: int, ctx: Context, op1: nat -> Option<Error>, op2: nat -> Option<Error>,
                                          attempt: nat, last: Option<Error>)
    requires forall i :: attempt <= i ==> op1(i) == op2(i)
    ensures RetryFrom(maxRetries, ctx, op1, attempt, last) == RetryFrom(maxRetries, ctx, op2, attempt, last)
    decreases maxRetries + 1 - attempt
  {
    if attempt <= maxRetries && !Done(ctx, 2 * attempt) && op1(attempt).Some?
       && attempt != maxRetries && !Done(ctx, 2 * attempt + 1) {
      RetryFromAgree(maxRetries, ctx, op1, op2, attempt + 1, op1(attempt));
    }
  }

  /** A validator failure counts exactly as an operation failure: the
      validated loop is the plain retry loop over the attempts' combined
      results, with the same error and the same number of attempts. */
  lemma {:induction false} ValidatedIsRetry(maxRetries: int, ctx: Context, op: nat -> Option<Error>, validator: Option<nat -> Option<Error>>,
                                            attempt: nat, vcalls: nat, last: Option<Error>)
    ensures var v := ValidatedFrom(maxRetries, ctx, op, validator, attempt, vcalls, last);
            var r := RetryFrom(maxRetries, ctx, AttemptResults(op, validator, attempt, vcalls), attempt, last);
            v.err == r.err && v.opCalls == r.invocations
    decreases maxRetries + 1 - attempt
  {
    var combined := AttemptResults(op, validator, attempt, vcalls);
    assert combined(attempt) == AttemptFailure(op, validator, attempt, vcalls);
    if attempt <= maxRetries && !Done(ctx, 2 * attempt) {
      var failure := AttemptFailure(op, validator, attempt, vcalls);
      var vc := ValidatorRuns(op, validator, attempt);
      if failure.Some? && attempt != maxRetries && !Done(ctx, 2 * attempt + 1) {
        ValidatedIsRetry(maxRetries, ctx, op, validator, attempt + 1, vcalls + vc, failure);
        var next := AttemptResults(op, validator, attempt + 1, vcalls + vc);
        forall i | attempt + 1 <= i
          ensures combined(i) == next(i)
        {
          assert ValidatorCallsBetween(op, validator, attempt, i) == vc + ValidatorCallsBetween(op, validator, attempt + 1, i);
        }
        RetryFromAgree(maxRetries, ctx, combined, next, attempt + 1, failure);
      }
    }
  }

  /** Attempts whose operation succeeds each run the validator once. */
  lemma {:induction false} ValidatorCallsAllSucceed(op: nat -> Option<Error>, validator: Option<nat -> Option<Error>>, from: nat, to: nat)
    requires validator.Some? && from <= to
    requires forall i :: from <= i < to ==> op(i).None?
    ensures ValidatorCallsBetween(op, validator, from, to) == to - from
    decreases (to as int) - from
  {
    if from < to {
      ValidatorCallsAllSucceed(op, validator, from + 1, to);
    }
  }

  /** When the operation always succeeds but the validator keeps failing,
      every attempt runs both, and the budget runs out on the last
      validator error, just as with an operation that always fails. */
  lemma ValidatorAlwaysFailsFrom(maxRetries: int, ctx: Context, op: nat -> Option<Error>, validator: Option<nat -> Option<Error>>,
                                 attempt: nat, vcalls: nat, last: Option<Error>)
    requires attempt <= maxRetries && validator.Some?
    requires forall i :: attempt <= i <= maxRetries ==> op(i).None?
    requires forall j :: vcalls <= j ==> validator.value(j).Some?
    requires !Done(ctx, 2 * maxRetries)
    ensures ValidatedFrom(maxRetries, ctx, op, validator, attempt, vcalls, last)
         == ValidatedOutcome(Some(RetriesExhausted(maxRetries, validator.value(vcalls + maxRetries - attempt))),
                             maxRetries + 1 - attempt, maxRetries + 1 - attempt)
  {
    var combined := AttemptResults(op, validator, attempt, vcalls);
    forall i | attempt <= i <= maxRetries
      ensures combined(i) == validator.value(vcalls + i - attempt)
    {
      ValidatorCallsAllSucceed(op, validator, attempt, i);
    }
    RetryFromExhausts(maxRetries, ctx, combined, attempt, last);
    ValidatedIsRetry(maxRetries, ctx, op, validator, attempt, vcalls, last);
    ValidatedFromFacts(maxRetries, ctx, op, validator, attempt, vcalls, last);
    ValidatorCallsAllSucceed(op, validator, attempt, maxRetries + 1);
  }

  lemma ValidatorAlwaysFails(maxRetries: int, ctx: Context, op: nat -> Option<Error>, validator: nat -> Option<Error>)
    requires 0 <= maxRetries
    requires forall i :: 0 <= i <= maxRetries ==> op(i).None?
    requires forall j :: 0 <= j ==> validator(j).Some?
    requires !Done(ctx, 2 * maxRetries)
    ensures RetryValidated(maxRetries, ctx, op, Some(validator))
         == ValidatedOutcome(Some(RetriesExhausted(maxRetries, validator(maxRetries))), maxRetries + 1, maxRetries + 1)
  {
    ValidatorAlwaysFailsFrom(maxRetries, ctx, op, Some(validator), 0, 0, None);
  }

  // ---------------------------------------------------------------------

  class RetryManager {
    const config: RetryConfig

    /** NewRetryManager: a nil configuration means the defaults. */
    constructor (config: Option<RetryConfig>)
      ensures this.config == if config.Some? then config.value else DefaultRetryConfig()
    {
      this.config := if config.Some? then config.value else DefaultRetryConfig();
    }

    method ExecuteWithRetry(ctx: Context, operation: nat -> Option<Error>) returns (err: Option<Error>, invocations: nat)
      ensures RetryOutcome(err, invocations) == Retry(config.maxRetries, ctx, operation)
    {
      var maxRetries := config.maxRetries;
      var lastErr: Option<Error> := None;
      var attempt: nat := 0;
      invocations := 0;
      while attempt <= maxRetries
        invariant invocations == attempt
        invariant attempt <= maxRetries + 1 || attempt == 0
        invariant var r := RetryFrom(maxRetries, ctx, operation, attempt, lastErr);
          Retry(maxRetries, ctx, operation) == RetryOutcome(r.err, r.invocations + attempt)
        decreases maxRetries + 1 - attempt
      {
        if Done(ctx, 2 * attempt) {
          return Some(ContextDone), invocations;
        }
        var e := operation(attempt);
        invocations := invocations + 1;
        if e.None? {
          return None, invocations;
        }
        lastErr := e;
        if attempt == maxRetries {
          break;
        }
        if Done(ctx, 2 * attempt + 1) {
          return Some(ContextDone), invocations;
        }
        attempt := attempt + 1;
      }
      err := Some(RetriesExhausted(maxRetries, lastErr));
    }

    method ExecuteWithRetryAndValidation(ctx: Context, operation: nat -> Option<Error>, validator: Option<nat -> Option<Error>>)
      returns (err: Option<Error>, opCalls: nat, validatorCalls: nat)
      ensures ValidatedOutcome(err, opCalls, validatorCalls) == RetryValidated(config.maxRetries, ctx, operation, validator)
    {
      var maxRetries := config.maxRetries;
      var lastErr: Option<Error> := None;
      var attempt: nat := 0;
      opCalls, validatorCalls := 0, 0;
      while attempt <= maxRetries
        invariant opCalls == attempt
        invariant attempt <= maxRetries + 1 || attempt == 0
        invariant var r := ValidatedFrom(maxRetries, ctx, operation, validator, attempt, validatorCalls, lastErr);
          RetryValidated(maxRetries, ctx, operation, validator)
            == ValidatedOutcome(r.err, r.opCalls + attempt, r.validatorCalls + validatorCalls)
        decreases maxRetries + 1 - attempt
      {
        if Done(ctx, 2 * attempt) {
          return Some(ContextDone), opCalls, validatorCalls;
        }
        var e := operation(attempt);
        opCalls := opCalls + 1;
        if e.Some? {
          lastErr := e;
          if attempt == maxRetries {
            break;
          }
          if Done(ctx, 2 * attempt + 1) {
            return Some(ContextDone), opCalls, validatorCalls;
          }
          attempt := attempt + 1;
          continue;
        }
        if validator.Some? {
          var v := validator.value(validatorCalls);
          validatorCalls := validatorCalls + 1;
          if v.Some? {
            lastErr := v;
            if attempt == maxRetries {
              break;
            }
            if Done(ctx, 2 * attempt + 1) {
              return Some(ContextDone), opCalls, validatorCalls;
            }
            attempt := attempt + 1;
            continue;
          }
        }
        return None, opCalls, validatorCalls;
      }
      err := Some(RetriesExhausted(maxRetries, lastErr));
    }
  }

  /** IsRetryableError: its placeholder test compares the empty message
      with the empty string, so no error is ever classified retryable. */
  function IsRetryableError(err: Option<Error>): (retryable: bool)
    ensures !retryable
  {
    if err.None? then false
    else if "" != "" then true
    else false
  }

  /** An operation bundled with its validator; `isRetryable` is carried
      but never consulted. */
  datatype RetryableOperation = RetryableOperation(
    operation: nat -> Option<Error>,
    validator: Option<nat -> Option<Error>>,
    isRetryable: Option<Error> -> bool)

  method Execute(ro: RetryableOperation, ctx: Context, retryManager: RetryManager)
    returns (err: Option<Error>, opCalls: nat, validatorCalls: nat)
    ensures ValidatedOutcome(err, opCalls, validatorCalls)
         == RetryValidated(retryManager.config.maxRetries, ctx, ro.operation, ro.validator)
  {
    err, opCalls, validatorCalls := retryManager.ExecuteWithRetryAndValidation(ctx, ro.operation, ro.validator);
  }
}
