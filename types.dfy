/** Shared value types of the client: transaction modes and statuses, the
    workflow step records, the configuration records with their defaults,
    and the error values every other module returns. */
module Types {

  type byte = x: int | 0 <= x < 256

  datatype Option<+T> = None | Some(value: T)

  datatype Result<+T> = Ok(value: T) | Err(error: Error)

  /** A `time.Duration` is a count of nanoseconds. */
  const Second: int := 1_000_000_000

  // Transaction modes
  const ModeSaga: string := "saga"
  const ModeTCC: string := "tcc"

  // Transaction statuses reported by the coordinator
  const StatusSubmitted: string := "SUBMITTED"
  const StatusCommitted: string := "COMMITTED"
  const StatusAborted: string := "ABORTED"

  // Branch statuses reported by the coordinator
  const BranchStatusPrepared: string := "PREPARED"
  const BranchStatusSucceed: string := "SUCCEED"
  const BranchStatusFailed: string := "FAILED"

  // Error codes carried by a SeataError
  const ErrCodeInvalidRequest: string := "INVALID_REQUEST"
  const ErrCodeTransactionNotFound: string := "TRANSACTION_NOT_FOUND"
  const ErrCodeBranchNotFound: string := "BRANCH_NOT_FOUND"
  const ErrCodeServerError: string := "SERVER_ERROR"
  const ErrCodeTimeout: string := "TIMEOUT"
  const ErrCodeNetworkError: string := "NETWORK_ERROR"

  /** The structured error body of the coordinator. */
  datatype SeataError = SeataError(code: string, message: string, details: string)
  {
    /** The text of the error is its message alone; code and details are not shown. */
    function Error(): (s: string)
      ensures s == message
    {
      message
    }
  }

  /** The coordinator endpoints the client posts to (or gets from). */
  datatype Endpoint =
    | ApiStart          // POST /api/start
    | ApiBranchAdd      // POST /api/branch/add
    | ApiSubmit         // POST /api/submit
    | ApiAbort          // POST /api/abort
    | ApiBranchTry      // POST /api/branch/try
    | ApiBranchConfirm  // POST /api/branch/confirm
    | ApiBranchCancel   // POST /api/branch/cancel
    | ApiBranchSucceed  // POST /api/branch/succeed
    | ApiBranchFail     // POST /api/branch/fail
    | ApiTx             // GET /api/tx/<gid>

  /** One constructor per place in the client that creates an error; a
      constructor with a `cause` stands for a `%w`-wrapping `fmt.Errorf`. */
  datatype Error =
    | ContextDone                                    // ctx.Err()
    | Caller(id: nat)                                // returned by caller-supplied code
    | RetriesExhausted(maxRetries: int, last: Option<Error>)
    | CircuitOpen                                    // "circuit breaker is open"
    | Transport(endpoint: Endpoint, cause: Error)    // "failed to ...: %w"
    | BadStatus(endpoint: Endpoint, status: int)     // "failed to ...: status %d"
    | Unparsable(endpoint: Endpoint)                 // "failed to parse ..."
    | StartFailed(mode: string, cause: Error)        // "failed to start ... transaction"
    | AddBranchFailed(branchId: string, cause: Error)
    | SubmitFailed(cause: Error)
    | InfoFailed(cause: Error)                       // "failed to get transaction info"
    | SagaTimeout                                    // "saga execution timeout"
    | SagaAborted                                    // "saga transaction aborted"
    | UnknownStatus(reported: string)
    | CompensationFailedFor(branchId: string, cause: Error)
    | CompensationFailed(errors: seq<Error>)         // "compensation failed: %v"
    | TryFailedFor(branchId: string, cause: Error)
    | ConfirmFailedFor(branchId: string, cause: Error)
    | TryPhaseFailed(withBarrier: bool, cause: Error)
    | ConfirmPhaseFailed(withBarrier: bool, cause: Error)
    | NoSteps(workflowKind: string)                  // "... must have at least one step"
    | EmptyBranchId
    | EmptyAction
    | EmptyTry
    | EmptyConfirm
    | EmptyCancel
    | DuplicateBranchId(branchId: string)

  /** A context is either never cancelled or cancelled from some point on:
      once done it stays done. Points number the places where code looks. */
  datatype Context = Background | CancelledAt(point: nat)

  predicate Done(ctx: Context, point: nat)
  {
    ctx.CancelledAt? && ctx.point <= point
  }

  datatype SagaStep = SagaStep(branchId: string, action: string, compensate: string)

  datatype TCCStep = TCCStep(branchId: string, try: string, confirm: string, cancel: string)

  datatype RetryConfig = RetryConfig(maxRetries: int, retryInterval: int, backoffFactor: real)

  datatype CircuitBreakerConfig =
    CircuitBreakerConfig(failureThreshold: int, recoveryTimeout: int, halfOpenMaxCalls: int)

  datatype ExecutionOptions = ExecutionOptions(
    timeout: int,
    retryConfig: Option<RetryConfig>,
    circuitBreaker: Option<CircuitBreakerConfig>,
    parallelBranches: bool,
    maxConcurrency: int)

  function DefaultRetryConfig(): (c: RetryConfig)
    ensures c.maxRetries == 3 && c.retryInterval == Second && c.backoffFactor == 2.0
  {
    RetryConfig(3, 1 * Second, 2.0)
  }

  function DefaultCircuitBreakerConfig(): (c: CircuitBreakerConfig)
    ensures c.failureThreshold == 5 && c.recoveryTimeout == 30 * Second && c.halfOpenMaxCalls == 3
  {
    CircuitBreakerConfig(5, 30 * Second, 3)
  }

  function DefaultExecutionOptions(): (o: ExecutionOptions)
    ensures o.timeout == 30 * Second && o.parallelBranches && o.maxConcurrency == 10
    ensures o.retryConfig == Some(DefaultRetryConfig())
    ensures o.circuitBreaker == Some(DefaultCircuitBreakerConfig())
  {
    ExecutionOptions(30 * Second, Some(DefaultRetryConfig()), Some(DefaultCircuitBreakerConfig()), true, 10)
  }

  /** Nil options mean the defaults. */
  function OptionsOrDefault(options: Option<ExecutionOptions>): (o: ExecutionOptions)
    ensures options.Some? ==> o == options.value
    ensures options.None? ==> o == DefaultExecutionOptions()
  {
    if options.Some? then options.value else DefaultExecutionOptions()
  }

  /** Concatenation regroups freely; stated once so that proofs about
      growing logs need not rediscover it. */
  lemma AppendAssoc<T>(a: seq<T>, b: seq<T>, c: seq<T>)
    ensures (a + b) + c == a + (b + c)
  {
  }

  /** Each group of constants holds pairwise distinct values, so a status
      switch can never take two branches. */
  lemma ConstantsDistinct()
    ensures ModeSaga != ModeTCC
    ensures StatusSubmitted != StatusCommitted && StatusSubmitted != StatusAborted
    ensures StatusCommitted != StatusAborted
    ensures BranchStatusPrepared != BranchStatusSucceed && BranchStatusPrepared != BranchStatusFailed
    ensures BranchStatusSucceed != BranchStatusFailed
  {
  }

  // ---------------------------------------------------------------------
  // Go's `[]byte(s)` conversion: the UTF-8 bytes of a string.

  function Utf8Char(c: char): (r: seq<byte>)
    ensures 1 <= |r| <= 4
    ensures (c as int < 0x80) <==> (|r| == 1)
    ensures |r| == 1 ==> r[0] == c as int
  {
    var n := c as int;
    if n < 0x80 then [n]
    else if n < 0x800 then [0xC0 + n / 64, 0x80 + n % 64]
    else if n < 0x10000 then [0xE0 + n / 4096, 0x80 + (n / 64) % 64, 0x80 + n % 64]
    else [0xF0 + n / 262144, 0x80 + (n / 4096) % 64, 0x80 + (n / 64) % 64, 0x80 + n % 64]
  }

  function Utf8(s: string): (r: seq<byte>)
    ensures |s| <= |r| <= 4 * |s|
  {
    if s == [] then [] else Utf8Char(s[0]) + Utf8(s[1..])
  }

  /** Encoding distributes over concatenation. */
  lemma {:induction false} Utf8Append(a: string, b: string)
    ensures Utf8(a + b) == Utf8(a) + Utf8(b)
  {
    if a == [] {
      assert a + b == b;
    } else {
      assert (a + b)[1..] == a[1..] + b;
      Utf8Append(a[1..], b);
    }
  }

  /** An ASCII string is its own byte sequence. */
  lemma {:induction false} Utf8Ascii(s: string)
    requires forall i :: 0 <= i < |s| ==> (s[i] as int) < 0x80
    ensures |Utf8(s)| == |s|
    ensures forall i :: 0 <= i < |s| ==> Utf8(s)[i] == s[i] as int
  {
    if s != [] {
      Utf8Ascii(s[1..]);
    }
  }
}
