# seata-go-client orchestration, modelled in Dafny

This project models the client-side orchestration logic of the Go client
for the Seata distributed-transaction coordinator, and proves properties of
that model. It covers five parts:

- **The resilience primitives.** The bounded retry loop, its variant with a
  validator, and the Closed/Open/HalfOpen circuit breaker (`retry.go`).
- **The Saga manager** (`saga.go`). It validates the workflow, starts a
  global transaction and registers every step as a branch, calling Abort on
  the first refusal. It then submits the transaction and polls it. In the
  compensating variant an ABORTED transaction leads to a reverse-order walk
  that compensates every step whose branch the coordinator reports FAILED.
- **The TCC manager** (`tcc.go`). It validates the workflow, starts a
  transaction and runs the try phase, then the confirm phase. Each phase
  runs one step after the other or fanned out. A failure of either phase
  leads to a cancel of every step. The barrier variant appends the barrier
  id to every try payload.
- **The transaction handle** (`transaction.go`). It holds the gid, mode,
  payload and the list of locally registered branches. Every phase method is
  one request to the coordinator.
- **The shared constants, step records and default configurations**
  (`types.go`).

The coordinator is an oracle. The class `Gateway.Coordinator` records every
request it is sent, in order. Its reply to the n-th request `r` of a run is
`respond(n, r)`, where `respond` is an arbitrary function. A reply is either
a transport failure or a response with a status and a decoded body. Every
orchestration method is proved against a specification function of
`respond`. The method's postcondition says that the requests it sent are
exactly those of the specification's trace, in order, and that it returns
the trace's error. The lemmas then state what the source promises about that
trace. Examples: no Submit after a refused registration, every step
cancelled after a failed try, COMMITTED as the only path to success.

Time and cancellation are made explicit:

- A retry operation is the sequence of its results: `op(i)` is what its
  i-th invocation returns.
- A `Types.Context` is cancelled from some numbered checkpoint on. Before
  attempt i it is looked at at point 2i. During the backoff wait after
  attempt i it is looked at at point 2i+1.
- The breaker takes the current time `now` as a parameter.
- The Saga polling loop takes `wakes`: which case of its `select` fires on
  each turn (ticker, context done, or timer). When `wakes` runs out, the
  timer is taken to fire.
- The transaction id the client proposes (`uuid.New()`) is a parameter.

Files:

- `types.dfy` (module `Types`)
- `gateway.dfy` (`Gateway`: wire records, requests, replies, the
  coordinator)
- `transaction.dfy` (`Txn`)
- `retry.dfy` (`Retry`)
- `breaker.dfy` (`Breaker`)
- `workflow.dfy` (`Workflow`: the first-offence scan shared by both
  validators)
- `saga.dfy` (`Saga`)
- `tcc.dfy` (`Tcc`)

## Model

| member | source | states |
|---|---|---|
| Types.DefaultRetryConfig | types.go:83-89 | MaxRetries 3, RetryInterval one second, BackoffFactor 2.0 |
| Types.DefaultCircuitBreakerConfig | types.go:99-105 | FailureThreshold 5, RecoveryTimeout 30 seconds, HalfOpenMaxCalls 3 |
| Types.DefaultExecutionOptions | types.go:141-149 | Timeout 30 seconds, ParallelBranches true, MaxConcurrency 10, and retry and breaker configurations equal to their defaults |
| Types.OptionsOrDefault | saga.go:24-26 | nil options mean the defaults; given options are used unchanged |
| Types.ConstantsDistinct | types.go:12-29 | the modes, the transaction statuses and the branch statuses are pairwise distinct within each group |
| Types.SeataError.Error | types.go:38-40 | the error text is the message alone |
| Types.Utf8Char | tcc.go:131 | one character encodes to one to four bytes, and to one byte, itself, exactly when it is ASCII |
| Types.Utf8 | tcc.go:131 | the byte conversion of a string is at least as long as the string and at most four times as long |
| Types.Utf8Append | tcc.go:131 | converting a concatenation concatenates the conversions |
| Types.Utf8Ascii | tcc.go:131 | an ASCII string converts to its own characters, byte for byte |
| Gateway.CallResult | transaction.go:50-56 | a call succeeds exactly when it completed with status 200; a transport error is wrapped; any other status is reported |
| Gateway.InfoResult | client.go:143-162 | the transaction info is returned exactly when the call succeeded and the body decodes; a failed call yields its call error |
| Gateway.StartResult | client.go:108-128 | the gid is returned exactly when the call succeeded and the body decodes, and it is the gid in the body; a failed call yields its call error |
| Gateway.Coordinator.constructor | client.go:55-85 | a new coordinator has received no request |
| Gateway.Coordinator.Send | client.go:108-112 | exactly the one request is appended to the log; the reply is the oracle's reply to it at its position |
| Txn.Transaction.constructor | client.go:131-137 | a new handle holds the given client, gid, mode and payload, and no branch |
| Txn.Transaction.AddBranch | transaction.go:37-65 | one add-branch request with the handle's gid, the branch id and the action; on success exactly one `Branch(id, action, "")` is appended and earlier entries are kept; on a transport error or non-200 status the error is returned and the branches are unchanged |
| Txn.Transaction.TxCall | transaction.go:68-111 | one request about the whole transaction carrying the gid; the result is that of the call; the branches are unchanged |
| Txn.Transaction.BranchCall | transaction.go:159-252 | one request carrying the gid and exactly the given branch id; the result is that of the call; the branches are unchanged |
| Txn.Transaction.Submit | transaction.go:68-88 | one submit request with the gid; nil exactly when it completed with status 200; the branches are unchanged |
| Txn.Transaction.Abort | transaction.go:91-111 | one abort request with the gid; nil exactly when it completed with status 200; the branches are unchanged |
| Txn.Transaction.Try | transaction.go:131-156 | one try request with the gid, branch id, action and payload; nil exactly when accepted; no branch is recorded |
| Txn.Transaction.Confirm | transaction.go:159-180 | one confirm request with the gid and branch id; nil exactly when accepted; the branches are unchanged |
| Txn.Transaction.Cancel | transaction.go:183-204 | one cancel request with the gid and branch id; nil exactly when accepted; the branches are unchanged |
| Txn.Transaction.BranchSucceed | transaction.go:207-228 | one succeed request with the gid and branch id; nil exactly when accepted; the branches are unchanged |
| Txn.Transaction.BranchFail | transaction.go:231-252 | one fail request with the gid and branch id; nil exactly when accepted; the branches are unchanged |
| Txn.Transaction.GetInfo | transaction.go:255-257 | one query of the transaction by its gid, whose decoded reply is returned; the branches are unchanged |
| Txn.Transaction.GetGID | transaction.go:114-116 | returns the stored gid |
| Txn.Transaction.GetMode | transaction.go:119-121 | returns the stored mode |
| Txn.Transaction.GetBranches | transaction.go:124-126 | returns the stored branch list |
| Txn.StartTransaction | client.go:93-140 | exactly one start request with the proposed id, the mode and the payload; on failure no handle and the error; on success a fresh handle with the coordinator's gid, the given mode and payload, and no branch |
| Retry.RetryManager.constructor | retry.go:16-23 | a nil configuration means the default one |
| Retry.RetryManager.ExecuteWithRetry | retry.go:26-63 | the loop's error and invocation count are those of the retry specification `Retry` |
| Retry.RetryFromBound | retry.go:29-60 | from any attempt on, at most the remaining budget of invocations |
| Retry.RetryBound | retry.go:29 | never more than MaxRetries+1 invocations; a negative MaxRetries runs no attempt and reports exhaustion with no last error |
| Retry.RetryFromSucceeds | retry.go:38-41 | an operation failing up to attempt k and then succeeding, with no cancellation, stops there with success |
| Retry.RetrySucceedsAfterFailures | retry.go:38-41 | k failures (k at most MaxRetries) followed by a success mean success after exactly k+1 invocations |
| Retry.RetryFromExhausts | retry.go:43-48 | when every remaining attempt fails, the result wraps the last error after all remaining invocations |
| Retry.RetryAllFail | retry.go:43-62 | when every attempt fails, the last error is wrapped after exactly MaxRetries+1 invocations; a cancellation after the last attempt changes nothing, because no wait follows it |
| Retry.RetryFromCancelled | retry.go:31-35 | a context done before attempt a limits the loop to the attempts before a, and yields the context error if they all failed |
| Retry.RetryCancelled | retry.go:31-35 | a cancellation seen before attempt a means at most a invocations, and the context error if all of them failed and the budget reached a; likewise at lines 54-56 |
| Retry.RetryFromSuccessMeans | retry.go:38-41 | success means that the last invocation succeeded and every earlier one failed |
| Retry.ValidatedWithoutValidator | retry.go:101 | without a validator the validated loop is the plain loop |
| Retry.ValidatedFromFacts | retry.go:78-125 | the validator runs exactly once in every attempt whose operation succeeded and in no other, so its count is the number of such attempts; the budget is shared; success means the last operation and its validator both succeeded |
| Retry.RetryFromAgree | retry.go:29-60 | the loop's outcome depends only on the results of the attempts it makes |
| Retry.ValidatedIsRetry | retry.go:78-122 | a validator error is handled exactly like an operation error: the validated loop returns the same error after the same number of attempts as the plain loop over each attempt's combined result |
| Retry.ValidatorCallsAllSucceed | retry.go:100-102 | when every operation call succeeds, the validator runs once per attempt |
| Retry.ValidatorAlwaysFailsFrom | retry.go:100-128 | when the operation keeps succeeding and the validator keeps failing, every remaining attempt runs both, and the result wraps the validator's last error |
| Retry.ValidatorAlwaysFails | retry.go:100-128 | with an always-failing validator the loop makes MaxRetries+1 operation calls and MaxRetries+1 validator calls, then reports exhaustion with the validator's last error |
| Retry.RetryManager.ExecuteWithRetryAndValidation | retry.go:66-129 | the loop's error and its operation and validator counts are those of `RetryValidated` |
| Retry.IsRetryableError | retry.go:158-171 | no error, nil or not, is classified retryable |
| Retry.Execute | retry.go:181-183 | the bundled operation and validator run through the validated retry loop |
| Breaker.ExecutePreservesConsistent | retry.go:223-260 | every call keeps the invariant: away from Closed only once the count has reached the threshold |
| Breaker.OpenRejects | retry.go:225-231 | while Open and within the recovery timeout, the call is refused as open, the operation is not run and nothing changes |
| Breaker.HalfOpenTrial | retry.go:225-243 | after the recovery timeout the operation runs half-open; success closes with count 0, and failure reopens with the count one higher and the time stamped |
| Breaker.AdmittedOutcome | retry.go:233-260 | a failure counts and stamps the time, and opens exactly when the count reaches the threshold; a success closes with count 0 |
| Breaker.ThresholdTwoScenario | retry.go:247-271 | with threshold 2: after a success it is Closed, after one failure still Closed, after two failures Open, and a reset closes it with count 0 |
| Breaker.RunCallsConsistent | retry.go:223-260 | the invariant holds across any sequence of calls |
| Breaker.ConsecutiveFailuresOpen | retry.go:223-254 | enough consecutive failures leave the breaker Open, whatever their timing |
| Breaker.CircuitBreaker.constructor | retry.go:212-220 | a new breaker is Closed with count 0; a nil configuration means the default one |
| Breaker.CircuitBreaker.Execute | retry.go:223-244 | the new fields, the error and whether the operation ran are those of `ExecuteOnce`; the invariant is kept |
| Breaker.CircuitBreaker.RecordFailure | retry.go:247-254 | the count is one higher, the time is stamped, and the breaker opens at the threshold; the invariant is kept |
| Breaker.CircuitBreaker.RecordSuccess | retry.go:257-260 | Closed with count 0, so the invariant holds |
| Breaker.CircuitBreaker.GetState | retry.go:263-265 | returns the current state |
| Breaker.CircuitBreaker.Reset | retry.go:268-271 | Closed with count 0; the invariant holds |
| Workflow.FirstOffenseNoneIff | saga.go:220-231 | the validation scan passes exactly when no step offends |
| Workflow.FirstOffenseIsFirst | saga.go:220-231 | a reported offence is that of the first offending step |
| Saga.SagaValidationIff | saga.go:214-234 | Validate succeeds exactly when there is a step, every id and action is non-empty, and the ids are pairwise distinct; the compensate action is never checked |
| Saga.SagaValidationReportsFirst | saga.go:215-230 | an empty workflow is refused for having no step; otherwise the first offending step is reported, checking empty id, then empty action, then a duplicate id |
| Saga.SagaWorkflow.constructor | saga.go:197-201 | CreateSagaWorkflow keeps the steps verbatim |
| Saga.SagaWorkflow.AddStep | saga.go:204-211 | exactly one step is appended at the end |
| Saga.SagaWorkflow.Validate | saga.go:214-234 | the loop with its seen-set returns the specified validation result |
| Saga.RegisterAllAccepted | saga.go:35-41 | when every registration is accepted, exactly the add-branch requests are sent, in workflow order, and no error is returned |
| Saga.RegisterFirstRefused | saga.go:35-40 | on the first refused registration, the later steps are not registered, one Abort is sent, and the error names the refused branch |
| Saga.AddRequestsEndpoints | saga.go:35-36 | the registration requests carry the steps' own ids and actions, in order |
| Saga.RegisteredPrefixGrows | saga.go:35-36 | registering one more step adds its request and its branch record at the end |
| Saga.RegisterNoneMeansAll | saga.go:35-41 | a registration with no error registered every step |
| Saga.RegisterStep | saga.go:36-39 | one add-branch request, then an abort if it was refused; the branch is recorded only on success |
| Saga.RegisterBranches | saga.go:35-41 | the loop sends the specified registration trace and returns its error; on success the local branches are extended by every step, in order |
| Saga.Verdict | saga.go:101-111 | SUBMITTED keeps polling, COMMITTED returns nil, ABORTED compensates exactly in the compensating loop (with the reported branches); any other status is an error; likewise at lines 136-146 |
| Saga.VerdictsAgreeUnlessAborted | saga.go:104-105 | the two loops differ only on ABORTED: an error in one, compensation in the other; likewise at lines 139-141 |
| Saga.PollFrom | saga.go:89-113 | the plain loop always ends in a result and never in compensation |
| Saga.PollQueriesOnly | saga.go:95-96 | the wait sends nothing but status queries of the transaction, at most one per turn |
| Saga.PollEndMeans | saga.go:101-108 | the wait succeeds or compensates only by way of a query that reported COMMITTED or ABORTED, after queries that all reported SUBMITTED; likewise at lines 136-143 |
| Saga.PollWhileRunning | saga.go:89-95 | while every query reports SUBMITTED, the wait ends in a timeout or the context's error; with only ticks, in a timeout; likewise at lines 106-108 |
| Saga.Queries | saga.go:96 | j turns mean j status queries |
| Saga.PollAfterRunning | saga.go:89-108 | after j turns that found the transaction running, the wait has sent j queries and continues unchanged |
| Saga.Poll | saga.go:82-149 | the polling loop sends the specified queries and ends as specified |
| Saga.FindFailed | saga.go:161-167 | the inner search finds exactly whether the branch list reports the branch FAILED |
| Saga.Reverse | saga.go:157 | the reversal has the same length, with the elements in reverse order |
| Saga.FailedStepsSnoc | saga.go:157-169 | the failed steps of a longer workflow are those of the shorter one, plus the new step if it failed |
| Saga.CompensationTargetsReversed | saga.go:157-177 | the downward walk meets exactly the failed steps, last one first |
| Saga.FailedStepsMembers | saga.go:160-169 | a step is compensated exactly when its branch is reported FAILED |
| Saga.CompensationErrorsEmptyIff | saga.go:183-187 | there are no compensation errors exactly when every compensation succeeded |
| Saga.CompensationErrorsAggregate | saga.go:171-187 | the gathered errors hold exactly one entry per failed compensation, each naming its step's branch and carrying the compensation's own error, and no other entry |
| Saga.CompensationOutcome | saga.go:183-193 | nil exactly when every compensation succeeded |
| Saga.CompensationOutcomeGathers | saga.go:183-193 | a failed run returns one aggregate error with exactly one entry per failed compensation, and the entry of every failed step is among them |
| Saga.ExecuteCompensation | saga.go:152-194 | compensates exactly the specified targets in the walk's order, and returns the specified outcome |
| Saga.SagaStartRefused | saga.go:28-32 | a refused start returns a start error before any registration |
| Saga.SagaRegistrationRefused | saga.go:34-40 | on the first refused registration: the start, the registrations up to it, one abort, no submit, and an error naming the branch; likewise at lines 64-69 |
| Saga.SagaSubmitRefused | saga.go:43-46 | a refused submit returns a submit error without any polling; likewise at lines 72-75 |
| Saga.SagaSuccessMeansCommitted | saga.go:49 | the plain run never compensates, and succeeds only after a query that reported COMMITTED; likewise at lines 101-103 |
| Saga.SagaAbortedCompensation | saga.go:59-79 | once start, registrations and submit are accepted and the wait ends in compensation: the start, the registrations, the submit and the queries are sent in that order; a query reported ABORTED after only SUBMITTED ones; the compensated steps are exactly those that report lists FAILED, last first; the run succeeds exactly when every compensation does, and otherwise returns all their errors gathered; likewise at lines 131-194 |
| Saga.AfterStartRegistered | saga.go:64-70 | when every registration is accepted, the run after the start is the add-branch requests, in workflow order, followed by the submit-and-wait part |
| Saga.AbortedAfterRegistration | saga.go:72-78 | after an accepted submit, a wait that ends in compensation sent the submit and its queries, met an ABORTED report after only SUBMITTED ones, and compensated the failed steps that report lists, last first; the error is nil exactly when every compensation succeeded |
| Saga.AbortedAfterStart | saga.go:64-78 | the two above joined: accepted registrations and submit, then a wait ending on an ABORTED report and its compensation |
| Saga.SagaCompensatesOnlyWhenAborted | saga.go:59-79 | a run compensates only after its start, every registration and its submit were accepted and its wait ended on an ABORTED report; likewise at lines 136-141 |
| Saga.SagaManager.constructor | saga.go:16-20 | the manager keeps the given client |
| Saga.SagaManager.ExecuteSaga | saga.go:23-50 | the run sends exactly the requests of the Saga specification, in order, and returns its error |
| Saga.SagaManager.ExecuteSagaWithCompensation | saga.go:53-79 | the run sends exactly the specified requests, returns the specified error, and compensates the specified steps |
| Saga.RunStarted | saga.go:34-49 | after the start, both runs register, submit and poll as specified; likewise at lines 64-78 |
| Saga.FinishSaga | saga.go:43-49 | submit, then the plain or the compensating wait, as specified; likewise at lines 72-78 |
| Tcc.TCCValidationIff | tcc.go:231-258 | Validate succeeds exactly when there is a step, every id, try, confirm and cancel is non-empty, and the ids are pairwise distinct |
| Tcc.TCCValidationReportsFirst | tcc.go:232-254 | an empty workflow is refused for having no step; otherwise the first offending step is reported, checked in the order id, try, confirm, cancel, duplicate |
| Tcc.TCCWorkflow.constructor | tcc.go:213-218 | CreateTCCWorkflow keeps the steps verbatim |
| Tcc.TCCWorkflow.AddStep | tcc.go:220-229 | exactly one step is appended at the end |
| Tcc.TCCWorkflow.Validate | tcc.go:231-258 | the loop with its seen-set returns the specified validation result |
| Tcc.PhaseRequests | tcc.go:91 | a phase's requests for i steps are i requests; likewise at line 120 |
| Tcc.FirstFailing | tcc.go:119-124 | the step found is the first failing one; none is found only when no step fails |
| Tcc.EarliestFailure | tcc.go:107-113 | the step picked is a failing one whose error arrives no later than any other failing step's; none is picked only when no step fails |
| Tcc.FailuresBelowMembers | tcc.go:99-101 | the channel holds exactly the wrapped errors of the failing steps; likewise at lines 161-163 |
| Tcc.ParallelReportsCollected | tcc.go:86-116 | the fanned-out phase fails exactly when some step fails, and it returns an error from the channel: that of a failing step which arrived first; likewise at lines 148-178 |
| Tcc.ParallelAnyFailureMayBeReported | tcc.go:107-113 | any failing step's error is the one returned when it arrives first; likewise at lines 169-175 |
| Tcc.ParallelInOrderLikeSequential | tcc.go:86-126 | when the calls finish in workflow order, the fanned-out phase returns the same error as the sequential one; likewise at lines 148-188 |
| Tcc.ParallelCallsEveryStep | tcc.go:91-104 | every step is called exactly once, in the parallel phase, whatever fails; likewise at lines 153-165 |
| Tcc.SequentialStopsAtFirstFailure | tcc.go:119-126 | the sequential phase calls a prefix of the steps, ends with the first failing one, and returns an error naming it; likewise at lines 181-188 |
| Tcc.PhaseRequestsAt | tcc.go:99 | the k-th request of a phase is that of step k; likewise at line 161 |
| Tcc.PhaseCall | tcc.go:99 | one try call with the phase payload, or one confirm call; likewise at line 161 |
| Tcc.SequentialPhaseRun | tcc.go:118-126 | the loop returns early on the first failure and sends exactly the sequential trace; likewise at lines 180-188 |
| Tcc.ParallelPhaseRun | tcc.go:85-116 | every step is called once, and the error returned is that of the failing step whose error reaches the channel first in the given completion order, as the fan-out specification says; likewise at lines 147-178 |
| Tcc.KeepEarliest | tcc.go:99-113 | after step i, the kept error is that of the failing step among the first i+1 whose error reaches the channel first, with its rank; nil while none of them failed |
| Tcc.PhaseRun | tcc.go:77-83 | dispatches on ParallelBranches to the specified phase; likewise at lines 139-145 |
| Tcc.CancelRequests | tcc.go:200-208 | i cancels for i steps |
| Tcc.CancelRequestsAt | tcc.go:200-208 | the k-th cancel request carries step k's branch id |
| Tcc.CancelPhase | tcc.go:197-211 | one cancel for every step, in order, with errors ignored |
| Tcc.TryPayload | tcc.go:128-136 | the barrier variant's try payload is the payload followed by the barrier id's bytes; otherwise it is the payload itself |
| Tcc.PhaseSpecEndpoints | tcc.go:91-104 | a phase sends, in order, the phase's request for a prefix of the steps, all to the phase's endpoint; likewise at lines 153-165 |
| Tcc.PhaseSuccessSendsAll | tcc.go:107-115 | a phase with no error called every step; likewise at lines 119-125 |
| Tcc.TryFailureCancelsAll | tcc.go:34-38 | a failed try phase is followed by a cancel of every step (not only those tried), no confirm is sent, and the try error is returned wrapped; likewise at lines 63-66 |
| Tcc.ConfirmFailureCancelsAll | tcc.go:41-45 | a failed confirm phase follows a try of every step, is followed by a cancel of every step, and returns a confirm-phase error; likewise at lines 69-72 |
| Tcc.SuccessTriesAndConfirmsAll | tcc.go:34-47 | a successful run tried and then confirmed every step, in order, and cancelled nothing |
| Tcc.TCCStartRefused | tcc.go:28-31 | a refused start returns a start error with no try, confirm or cancel; likewise at lines 57-60 |
| Tcc.ConfirmStageSendsNoTry | tcc.go:41-45 | the confirm phase and its cancellation send no try |
| Tcc.TriesCarryAppend | tcc.go:34-45 | two logs whose try requests all carry a payload give a concatenation whose try requests do too |
| Tcc.PhaseTriesCarry | tcc.go:99 | every try request of a try phase carries its payload |
| Tcc.TryRequestsCarry | tcc.go:34-45 | after the start, every try request of a run carries the try payload; likewise at lines 63-72 |
| Tcc.BarrierOnlyInTryPayload | tcc.go:51-75 | the barrier run starts with the original payload, and every try receives the payload followed by the barrier id's bytes; likewise at lines 131-136, 190-195 |
| Tcc.TCCManager.constructor | tcc.go:15-19 | the manager keeps the given client |
| Tcc.TCCManager.ExecuteTCC | tcc.go:22-48 | for any completion order of the fanned-out calls, the run sends exactly the requests of the TCC specification, in order, and returns its error |
| Tcc.TCCManager.ExecuteTCCWithBarrier | tcc.go:51-75 | the same with the barrier id appended to every try payload |
| Tcc.RunConfirmStage | tcc.go:41-45 | confirm, then cancel every step if it failed, as specified; likewise at lines 191-195 |
| Tcc.RunPhases | tcc.go:34-47 | try, then confirm, as specified, with the cancellations after a failure; likewise at lines 63-74 |

## Left out

- HTTP and gRPC transport (`client.go`, `grpc_client.go`): JSON, headers and
  dialing are not modelled. The coordinator is an oracle that returns a
  transport error or a status with a decoded body. A body that does not
  decode is `Malformed` and gives a parse error. A start reply without a gid
  field counts as undecodable here; Go would accept it with an empty gid.
- The base64 encoding of payloads: a request carries the raw bytes, and the
  encoding is taken as opaque.
- Concurrency. The goroutines of the parallel phases, of the cancel phase
  and of the compensation are modelled as calls issued one after the other,
  in workflow order (for compensation, in the walk's order). The coordinator
  therefore sees the requests in that order; in Go they may interleave.
- Tcc.ParallelPhaseRun: the order in which the fanned-out calls finish is
  a parameter, `Tcc.Arrival` (one per phase in `Tcc.Schedule`). It decides
  only which error is read first from the channel. The requests themselves
  are still issued in workflow order.
- Tcc.TCCManager.ExecuteTCC, Tcc.TCCManager.ExecuteTCCWithBarrier: the
  semaphore bound (at most MaxConcurrency calls at once) is not modelled.
  Both require `Tcc.FanOutCompletes`, but only for runs whose start is
  accepted and which fan out. That leaves out exactly the runs where Go
  never returns: a negative MaxConcurrency makes `make` panic, and 0 with a
  non-empty workflow blocks forever on the semaphore. A refused start, a
  sequential run and 0 with no step are all covered.
- Saga.SagaManager.ExecuteSagaWithCompensation: the compensation function
  is a total function from the step to its result. A nil function, which
  makes Go panic at saga.go:173, and a function with side effects or
  hidden state are not represented.
- Gateway.Coordinator.Send: one call is one request to the coordinator.
  The HTTP client is set up with `SetRetryCount(config.MaxRetries)`
  (client.go:64-66), so in Go one call may reach the coordinator up to
  MaxRetries+1 times. Statements such as "exactly one Abort" and the order
  of requests hold for calls as the model counts them, not for
  retransmissions on the wire.
- Saga.CompensationOutcome: the aggregated error holds the failures in the
  walk's order. In Go their order is the order of completion.
- Real time. The backoff wait appears only as a cancellation checkpoint.
  The breaker receives `now` in nanoseconds. The Saga loop's ticker and timer
  are the `wakes` sequence, so `ExecutionOptions.Timeout` is not read by the
  model.
- `calculateBackoff` (retry.go:132-141): it uses float64 arithmetic,
  `math.Pow` and a clock-derived jitter. Its only effect, the wait, is the
  checkpoint above.
- The context is not passed into coordinator calls. A cancellation during a
  request shows up, if at all, as that request's transport error.
- Fields no logic reads: `HalfOpenMaxCalls`, `ExecutionOptions.RetryConfig`
  and `ExecutionOptions.CircuitBreaker`. `RetryableOperation.IsRetryable`
  is carried but never consulted. `CreateRetryableOperation` is the record
  constructor of `Retry.RetryableOperation`.
- Exact error texts. The `Types.Error` datatype has one constructor per
  place that creates an error, carrying the wrapped cause and the values the
  message shows.
- Integer widths: counts and times are unbounded, and Go's 64-bit overflow
  (after about 292 years of nanoseconds) is not modelled.
- Go's `append(payload, ...)` may write into the caller's backing array when
  it has spare capacity. Payloads are values here.
- `IsRetryableError` is documented as telling retryable errors apart. Its
  placeholder condition compares an empty message with the empty string,
  so it never classifies any error as retryable. The model follows the
  code.
- `Health`, `Metrics`, `ListTransactions`, `DefaultConfig`, the metrics and
  statistics records, the demo programs, the benchmarks and the test
  driver: configuration, I/O and demos outside the orchestration logic.
