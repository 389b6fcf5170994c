/** The TCC orchestration of tcc.go: workflow building and validation, the
    try and confirm phases (one after the other, or fanned out), the cancel
    phase that follows a failed try or confirm, and the barrier variant
    that appends the barrier id to every try payload. */
module Tcc {
  import opened Types
  import opened Gateway
  import opened Workflow
  import opened Txn

  // ---------------------------------------------------------------------
  // Workflow and validation

  function TCCIds(steps: seq<TCCStep>): set<string>
  {
    set j | 0 <= j < |steps| :: steps[j].branchId
  }

  /** The checks Validate makes of one step, in order, given the steps before it. */
  function TCCStepOffense(step: TCCStep, earlier: seq<TCCStep>): Option<Error>
  {
    if step.branchId == "" then Some(EmptyBranchId)
    else if step.try == "" then Some(EmptyTry)
    else if step.confirm == "" then Some(EmptyConfirm)
    else if step.cancel == "" then Some(EmptyCancel)
    else if step.branchId in TCCIds(earlier) then Some(DuplicateBranchId(step.branchId))
    else None
  }

  function TCCValidation(steps: seq<TCCStep>): Option<Error>
  {
    if |steps| == 0 then Some(NoSteps(ModeTCC)) else FirstOffense(steps, TCCStepOffense, 0)
  }

  /** A runnable TCC workflow: at least one step, every id and all three
      actions given, ids pairwise distinct. */
  predicate WellFormedTCC(steps: seq<TCCStep>)
  {
    && |steps| > 0
    && (forall i :: 0 <= i < |steps| ==>
          steps[i].branchId != "" && steps[i].try != "" && steps[i].confirm != "" && steps[i].cancel != "")
    && (forall i, j :: 0 <= i < j < |steps| ==> steps[i].branchId != steps[j].branchId)
  }

  lemma TCCValidationIff(steps: seq<TCCStep>)
    ensures TCCValidation(steps).None? <==> WellFormedTCC(steps)
  {
    FirstOffenseNoneIff(steps, TCCStepOffense, 0);
    if |steps| > 0 {
      if forall k :: 0 <= k < |steps| ==> TCCStepOffense(steps[k], steps[..k]).None? {
        forall i, j | 0 <= i < j < |steps| ensures steps[i].branchId != steps[j].branchId {
          assert steps[..j][i] == steps[i];
          assert steps[i].branchId in TCCIds(steps[..j]);
          assert TCCStepOffense(steps[j], steps[..j]).None?;
        }
      }
    }
  }

  /** An empty workflow is refused for having no step; otherwise the error
      is that of the first offending step, checked id, try, confirm,
      cancel, duplicate. */
  lemma TCCValidationReportsFirst(steps: seq<TCCStep>)
    ensures |steps| == 0 ==> TCCValidation(steps) == Some(NoSteps(ModeTCC))
    ensures |steps| > 0 && TCCValidation(steps).Some? ==>
      exists k :: 0 <= k < |steps| && TCCValidation(steps) == TCCStepOffense(steps[k], steps[..k])
               && forall j :: 0 <= j < k ==> TCCStepOffense(steps[j], steps[..j]).None?
  {
    FirstOffenseIsFirst(steps, TCCStepOffense, 0);
  }

  class TCCWorkflow {
    var steps: seq<TCCStep>

    /** CreateTCCWorkflow keeps the given steps as they are. */
    constructor (steps: seq<TCCStep>)
      ensures this.steps == steps
    {
      this.steps := steps;
    }

    method AddStep(branchId: string, try: string, confirm: string, cancel: string)
      modifies this
      ensures steps == old(steps) + [TCCStep(branchId, try, confirm, cancel)]
    {
      steps := steps + [TCCStep(branchId, try, confirm, cancel)];
    }

    method Validate() returns (err: Option<Error>)
      ensures err == TCCValidation(steps)
    {
      if |steps| == 0 {
        return Some(NoSteps(ModeTCC));
      }
      var seen: set<string> := {};
      var i := 0;
      while i < |steps|
        invariant 0 <= i <= |steps|
        invariant seen == TCCIds(steps[..i])
        invariant FirstOffense(steps, TCCStepOffense, 0) == FirstOffense(steps, TCCStepOffense, i)
      {
        var step := steps[i];
        if step.branchId == "" {
          return Some(EmptyBranchId);
        }
        if step.try == "" {
          return Some(EmptyTry);
        }
        if step.confirm == "" {
          return Some(EmptyConfirm);
        }
        if step.cancel == "" {
          return Some(EmptyCancel);
        }
        if step.branchId in seen {
          return Some(DuplicateBranchId(step.branchId));
        }
        assert TCCIds(steps[..i + 1]) == TCCIds(steps[..i]) + {step.branchId} by {
          assert forall j :: 0 <= j < i ==> steps[..i + 1][j] == steps[..i][j];
          assert steps[..i + 1][i] == step;
        }
        seen := seen + {step.branchId};
        i := i + 1;
      }
      return None;
    }
  }

  // ---------------------------------------------------------------------
  // The try and confirm phases. Both send one request per step and wrap a
  // step's error with the step's branch id; they differ in the request.

  datatype Phase = TryPhase(payload: seq<byte>) | ConfirmPhase

  function PhaseRequest(gid: string, phase: Phase, step: TCCStep): Request
  {
    match phase
    case TryPhase(payload) => TryRequest(gid, step.branchId, step.try, payload)
    case ConfirmPhase => BranchRequest(ApiBranchConfirm, gid, step.branchId)
  }

  function PhaseEndpoint(phase: Phase): Endpoint
  {
    if phase.TryPhase? then ApiBranchTry else ApiBranchConfirm
  }

  /** "try phase failed for branch ..." / "confirm phase failed for branch ..." */
  function StepFailure(phase: Phase, branchId: string, cause: Error): Error
  {
    if phase.TryPhase? then TryFailedFor(branchId, cause) else ConfirmFailedFor(branchId, cause)
  }

  /** The result of step k's call, that call being the (base + k)-th request. */
  function StepResult(respond: (nat, Request) -> Reply, gid: string, phase: Phase, steps: seq<TCCStep>, base: nat, k: nat): Option<Error>
    requires k < |steps|
  {
    CallResult(PhaseEndpoint(phase), Answer(respond, base + k, PhaseRequest(gid, phase, steps[k])))
  }

  predicate StepFails(respond: (nat, Request) -> Reply, gid: string, phase: Phase, steps: seq<TCCStep>, base: nat, k: nat)
    requires k < |steps|
  {
    StepResult(respond, gid, phase, steps, base, k).Some?
  }

  /** The wrapped error of a failing step. */
  function FailureOf(respond: (nat, Request) -> Reply, gid: string, phase: Phase, steps: seq<TCCStep>, base: nat, k: nat): Error
    requires k < |steps| && StepFails(respond, gid, phase, steps, base, k)
  {
    StepFailure(phase, steps[k].branchId, StepResult(respond, gid, phase, steps, base, k).value)
  }

  /** The phase's requests for the first i steps, in workflow order. */
  function PhaseRequests(gid: string, phase: Phase, steps: seq<TCCStep>, i: nat): (rs: seq<Request>)
    requires i <= |steps|
    ensures |rs| == i
  {
    if i == 0 then [] else PhaseRequests(gid, phase, steps, i - 1) + [PhaseRequest(gid, phase, steps[i - 1])]
  }

  /** The first failing step at or after i, if any. */
  function FirstFailing(respond: (nat, Request) -> Reply, gid: string, phase: Phase, steps: seq<TCCStep>, base: nat, i: nat)
    : (r: Option<nat>)
    requires i <= |steps|
    ensures r.Some? ==> i <= r.value < |steps| && StepFails(respond, gid, phase, steps, base, r.value)
    ensures r.Some? ==> forall k :: i <= k < r.value ==> !StepFails(respond, gid, phase, steps, base, k)
    ensures r.None? ==> forall k :: i <= k < |steps| ==> !StepFails(respond, gid, phase, steps, base, k)
    decreases |steps| - i
  {
    if i == |steps| then None
    else if StepFails(respond, gid, phase, steps, base, i) then Some(i)
    else FirstFailing(respond, gid, phase, steps, base, i + 1)
  }

  /** executeTryPhaseSequential / executeConfirmPhaseSequential: the steps
      are called in order up to and including the first failing one. */
  function SequentialPhase(respond: (nat, Request) -> Reply, gid: string, phase: Phase, steps: seq<TCCStep>, base: nat): Trace
  {
    match FirstFailing(respond, gid, phase, steps, base, 0)
    case None => Trace(None, PhaseRequests(gid, phase, steps, |steps|))
    case Some(k) => Trace(Some(FailureOf(respond, gid, phase, steps, base, k)), PhaseRequests(gid, phase, steps, k + 1))
  }

  /** The errors the fanned-out calls of the first i steps put on the
      channel, listed in workflow order. */
  function FailuresBelow(respond: (nat, Request) -> Reply, gid: string, phase: Phase, steps: seq<TCCStep>, base: nat, i: nat)
    : seq<Error>
    requires i <= |steps|
  {
    if i == 0 then []
    else
      var own := if StepFails(respond, gid, phase, steps, base, i - 1) then [FailureOf(respond, gid, phase, steps, base, i - 1)] else [];
      FailuresBelow(respond, gid, phase, steps, base, i - 1) + own
  }

  /** The order in which the fanned-out calls of a phase finish, which the
      scheduler decides: `arrival(k)` is the rank at which step k's error,
      if any, reaches the channel; equal ranks go to the earlier step. */
  type Arrival = nat -> nat

  /** The failing step among the first i whose error reaches the channel
      first, if any step failed. */
  function EarliestFailure(respond: (nat, Request) -> Reply, gid: string, phase: Phase, steps: seq<TCCStep>, base: nat,
                           arrival: Arrival, i: nat): (r: Option<nat>)
    requires i <= |steps|
    ensures r.Some? ==> r.value < i && StepFails(respond, gid, phase, steps, base, r.value)
    ensures r.Some? ==> forall j :: 0 <= j < i && StepFails(respond, gid, phase, steps, base, j) ==> arrival(r.value) <= arrival(j)
    ensures r.None? ==> forall j :: 0 <= j < i ==> !StepFails(respond, gid, phase, steps, base, j)
  {
    if i == 0 then None
    else
      var earlier := EarliestFailure(respond, gid, phase, steps, base, arrival, i - 1);
      if StepFails(respond, gid, phase, steps, base, i - 1) && (earlier.None? || arrival(i - 1) < arrival(earlier.value))
      then Some(i - 1)
      else earlier
  }

  /** executeTryPhaseParallel / executeConfirmPhaseParallel: every step is
      called, and the error read first from the channel, the one that
      arrived first, is returned. */
  function ParallelPhase(respond: (nat, Request) -> Reply, gid: string, phase: Phase, steps: seq<TCCStep>, base: nat,
                         arrival: Arrival): Trace
  {
    var first := EarliestFailure(respond, gid, phase, steps, base, arrival, |steps|);
    Trace(if first.None? then None else Some(FailureOf(respond, gid, phase, steps, base, first.value)),
          PhaseRequests(gid, phase, steps, |steps|))
  }

  function PhaseSpec(respond: (nat, Request) -> Reply, gid: string, phase: Phase, steps: seq<TCCStep>,
                     parallel: bool, base: nat, arrival: Arrival): Trace
  {
    if parallel then ParallelPhase(respond, gid, phase, steps, base, arrival) else SequentialPhase(respond, gid, phase, steps, base)
  }

  /** The channel holds exactly the wrapped errors of the failing steps. */
  lemma {:induction false} FailuresBelowMembers(respond: (nat, Request) -> Reply, gid: string, phase: Phase,
                                                steps: seq<TCCStep>, base: nat, i: nat)
    requires i <= |steps|
    ensures forall e :: e in FailuresBelow(respond, gid, phase, steps, base, i) <==>
      exists k :: 0 <= k < i && StepFails(respond, gid, phase, steps, base, k) && e == FailureOf(respond, gid, phase, steps, base, k)
    decreases i
  {
    if i > 0 {
      FailuresBelowMembers(respond, gid, phase, steps, base, i - 1);
    }
  }

  /** The fanned-out phase fails exactly when some step fails, and the
      error it returns is one of those on the channel: that of a failing
      step whose error arrived no later than any other. */
  lemma ParallelReportsCollected(respond: (nat, Request) -> Reply, gid: string, phase: Phase, steps: seq<TCCStep>, base: nat,
                                 arrival: Arrival)
    ensures var err := ParallelPhase(respond, gid, phase, steps, base, arrival).err;
      && (err.None? <==> forall k :: 0 <= k < |steps| ==> !StepFails(respond, gid, phase, steps, base, k))
      && (err.Some? ==> err.value in FailuresBelow(respond, gid, phase, steps, base, |steps|))
      && (err.Some? ==> exists k :: 0 <= k < |steps| && StepFails(respond, gid, phase, steps, base, k)
                          && err.value == FailureOf(respond, gid, phase, steps, base, k)
                          && forall j :: 0 <= j < |steps| && StepFails(respond, gid, phase, steps, base, j) ==> arrival(k) <= arrival(j))
  {
    FailuresBelowMembers(respond, gid, phase, steps, base, |steps|);
  }

  /** Conversely, the error of any failing step is returned when it is
      the first to arrive: every collected error is a possible result. */
  lemma ParallelAnyFailureMayBeReported(respond: (nat, Request) -> Reply, gid: string, phase: Phase, steps: seq<TCCStep>,
                                        base: nat, k: nat)
    requires k < |steps| && StepFails(respond, gid, phase, steps, base, k)
    ensures ParallelPhase(respond, gid, phase, steps, base, j => if j == k then 0 else 1).err
         == Some(FailureOf(respond, gid, phase, steps, base, k))
  {
    var arrival: Arrival := j => if j == k then 0 else 1;
    var first := EarliestFailure(respond, gid, phase, steps, base, arrival, |steps|);
    assert first.Some? && arrival(first.value) <= arrival(k);
  }

  /** When the calls finish in workflow order, the fanned-out phase
      reports what the sequential one does: the first failing step. */
  lemma ParallelInOrderLikeSequential(respond: (nat, Request) -> Reply, gid: string, phase: Phase, steps: seq<TCCStep>, base: nat)
    ensures ParallelPhase(respond, gid, phase, steps, base, j => j).err == SequentialPhase(respond, gid, phase, steps, base).err
  {
    var arrival: Arrival := j => j;
    var first := EarliestFailure(respond, gid, phase, steps, base, arrival, |steps|);
    var v := FirstFailing(respond, gid, phase, steps, base, 0);
    if first.Some? {
      assert v.Some? && v.value == first.value;
    }
  }

  /** The fanned-out phase calls every step exactly once, whatever fails. */
  lemma ParallelCallsEveryStep(respond: (nat, Request) -> Reply, gid: string, phase: Phase, steps: seq<TCCStep>, base: nat,
                               arrival: Arrival)
    ensures var t := ParallelPhase(respond, gid, phase, steps, base, arrival);
      && |t.sent| == |steps|
      && forall k :: 0 <= k < |steps| ==> t.sent[k] == PhaseRequest(gid, phase, steps[k])
  {
    PhaseRequestsAt(gid, phase, steps, |steps|);
  }

  /** The sequential phase stops at the first failure and names it. */
  lemma SequentialStopsAtFirstFailure(respond: (nat, Request) -> Reply, gid: string, phase: Phase, steps: seq<TCCStep>,
                                      base: nat, k: nat)
    requires k < |steps| && StepFails(respond, gid, phase, steps, base, k)
    requires forall j :: 0 <= j < k ==> !StepFails(respond, gid, phase, steps, base, j)
    ensures SequentialPhase(respond, gid, phase, steps, base)
         == Trace(Some(StepFailure(phase, steps[k].branchId, StepResult(respond, gid, phase, steps, base, k).value)),
                  PhaseRequests(gid, phase, steps, k + 1))
  {
    var v := FirstFailing(respond, gid, phase, steps, base, 0);
    assert v.Some? && v.value == k;
  }

  /** The k-th request of a phase is that of step k. */
  lemma {:induction false} PhaseRequestsAt(gid: string, phase: Phase, steps: seq<TCCStep>, i: nat)
    requires i <= |steps|
    ensures forall k :: 0 <= k < i ==> PhaseRequests(gid, phase, steps, i)[k] == PhaseRequest(gid, phase, steps[k])
    decreases i
  {
    if i > 0 {
      PhaseRequestsAt(gid, phase, steps, i - 1);
    }
  }

  // ---------------------------------------------------------------------
  // Phase methods

  /** One call of a phase: tx.Try with the phase's payload, or tx.Confirm. */
  method PhaseCall(tx: Transaction, phase: Phase, step: TCCStep) returns (err: Option<Error>)
    modifies tx.client
    ensures tx.client.sent == old(tx.client.sent) + [PhaseRequest(tx.gid, phase, step)]
    ensures err == CallResult(PhaseEndpoint(phase), Answer(tx.client.respond, |old(tx.client.sent)|, PhaseRequest(tx.gid, phase, step)))
  {
    match phase
    case TryPhase(payload) =>
      err := tx.Try(step.branchId, step.try, payload);
    case ConfirmPhase =>
      err := tx.Confirm(step.branchId);
  }

  method SequentialPhaseRun(tx: Transaction, phase: Phase, steps: seq<TCCStep>) returns (err: Option<Error>)
    modifies tx.client
    ensures var t := SequentialPhase(tx.client.respond, tx.gid, phase, steps, |old(tx.client.sent)|);
      tx.client.sent == old(tx.client.sent) + t.sent && err == t.err
  {
    ghost var n0 := |tx.client.sent|;
    var i := 0;
    while i < |steps|
      invariant 0 <= i <= |steps|
      invariant forall k :: 0 <= k < i ==> !StepFails(tx.client.respond, tx.gid, phase, steps, n0, k)
      invariant tx.client.sent == old(tx.client.sent) + PhaseRequests(tx.gid, phase, steps, i)
    {
      var e := PhaseCall(tx, phase, steps[i]);
      AppendAssoc(old(tx.client.sent), PhaseRequests(tx.gid, phase, steps, i), [PhaseRequest(tx.gid, phase, steps[i])]);
      if e.Some? {
        SequentialStopsAtFirstFailure(tx.client.respond, tx.gid, phase, steps, n0, i);
        return Some(StepFailure(phase, steps[i].branchId, e.value));
      }
      i := i + 1;
    }
    assert FirstFailing(tx.client.respond, tx.gid, phase, steps, n0, 0).None?;
    return None;
  }

  /** The fan-out, issued here in workflow order. Every step is called;
      the error kept is the one that reaches the channel first, which is
      what the loop draining the channel returns. */
  method ParallelPhaseRun(tx: Transaction, phase: Phase, steps: seq<TCCStep>, arrival: Arrival) returns (err: Option<Error>)
    modifies tx.client
    ensures var t := ParallelPhase(tx.client.respond, tx.gid, phase, steps, |old(tx.client.sent)|, arrival);
      tx.client.sent == old(tx.client.sent) + t.sent && err == t.err
  {
    ghost var n0 := |tx.client.sent|;
    ghost var respond := tx.client.respond;
    var gid := tx.gid;
    err := None;
    var rank := 0;
    var i := 0;
    while i < |steps|
      invariant 0 <= i <= |steps|
      invariant ParallelKept(respond, gid, phase, steps, n0, arrival, i, err, rank)
      invariant tx.client.sent == old(tx.client.sent) + PhaseRequests(gid, phase, steps, i)
    {
      assert |tx.client.sent| == n0 + i;
      var e := PhaseCall(tx, phase, steps[i]);
      assert e == StepResult(respond, gid, phase, steps, n0, i);
      AppendAssoc(old(tx.client.sent), PhaseRequests(gid, phase, steps, i), [PhaseRequest(gid, phase, steps[i])]);
      err, rank := KeepEarliest(respond, gid, phase, steps, n0, arrival, i, err, rank, e);
      i := i + 1;
    }
  }

  /** One step of draining the channel: step i's error, if any, replaces
      the kept one when it arrived strictly earlier. */
  method KeepEarliest(ghost respond: (nat, Request) -> Reply, gid: string, phase: Phase, steps: seq<TCCStep>, ghost base: nat,
                      arrival: Arrival, i: nat, err: Option<Error>, rank: nat, e: Option<Error>)
    returns (err': Option<Error>, rank': nat)
    requires i < |steps| && ParallelKept(respond, gid, phase, steps, base, arrival, i, err, rank)
    requires e == StepResult(respond, gid, phase, steps, base, i)
    ensures ParallelKept(respond, gid, phase, steps, base, arrival, i + 1, err', rank')
  {
    ParallelKeptStep(respond, gid, phase, steps, base, arrival, i, err, rank);
    err', rank' := err, rank;
    if e.Some? && (err.None? || arrival(i) < rank) {
      err' := Some(StepFailure(phase, steps[i].branchId, e.value));
      rank' := arrival(i);
    }
  }

  /** What the fan-out loop keeps after i steps: the error of the earliest
      arrived failure, and its rank. */
  ghost predicate ParallelKept(respond: (nat, Request) -> Reply, gid: string, phase: Phase, steps: seq<TCCStep>, base: nat,
                               arrival: Arrival, i: nat, err: Option<Error>, rank: nat)
    requires i <= |steps|
  {
    var first := EarliestFailure(respond, gid, phase, steps, base, arrival, i);
    && (first.None? ==> err.None?)
    && (first.Some? ==> err == Some(FailureOf(respond, gid, phase, steps, base, first.value)) && rank == arrival(first.value))
  }

  lemma ParallelKeptStep(respond: (nat, Request) -> Reply, gid: string, phase: Phase, steps: seq<TCCStep>, base: nat,
                         arrival: Arrival, i: nat, err: Option<Error>, rank: nat)
    requires i < |steps| && ParallelKept(respond, gid, phase, steps, base, arrival, i, err, rank)
    ensures var e := StepResult(respond, gid, phase, steps, base, i);
      if e.Some? && (err.None? || arrival(i) < rank)
      then ParallelKept(respond, gid, phase, steps, base, arrival, i + 1, Some(StepFailure(phase, steps[i].branchId, e.value)), arrival(i))
      else ParallelKept(respond, gid, phase, steps, base, arrival, i + 1, err, rank)
  {
  }

  method PhaseRun(tx: Transaction, phase: Phase, steps: seq<TCCStep>, parallel: bool, arrival: Arrival) returns (err: Option<Error>)
    modifies tx.client
    ensures var t := PhaseSpec(tx.client.respond, tx.gid, phase, steps, parallel, |old(tx.client.sent)|, arrival);
      tx.client.sent == old(tx.client.sent) + t.sent && err == t.err
  {
    if parallel {
      err := ParallelPhaseRun(tx, phase, steps, arrival);
    } else {
      err := SequentialPhaseRun(tx, phase, steps);
    }
  }

  // ---------------------------------------------------------------------
  // The cancel phase: every step, errors ignored.

  function CancelRequests(gid: string, steps: seq<TCCStep>, i: nat): (rs: seq<Request>)
    requires i <= |steps|
    ensures |rs| == i
  {
    if i == 0 then [] else CancelRequests(gid, steps, i - 1) + [BranchRequest(ApiBranchCancel, gid, steps[i - 1].branchId)]
  }

  lemma {:induction false} CancelRequestsAt(gid: string, steps: seq<TCCStep>, i: nat)
    requires i <= |steps|
    ensures forall k :: 0 <= k < i ==> CancelRequests(gid, steps, i)[k] == BranchRequest(ApiBranchCancel, gid, steps[k].branchId)
    decreases i
  {
    if i > 0 {
      CancelRequestsAt(gid, steps, i - 1);
    }
  }

  method CancelPhase(tx: Transaction, steps: seq<TCCStep>)
    modifies tx.client
    ensures tx.client.sent == old(tx.client.sent) + CancelRequests(tx.gid, steps, |steps|)
  {
    var i := 0;
    while i < |steps|
      invariant 0 <= i <= |steps|
      invariant tx.client.sent == old(tx.client.sent) + CancelRequests(tx.gid, steps, i)
    {
      var ignored := tx.Cancel(steps[i].branchId);
      AppendAssoc(old(tx.client.sent), CancelRequests(tx.gid, steps, i), [BranchRequest(ApiBranchCancel, tx.gid, steps[i].branchId)]);
      i := i + 1;
    }
  }

  // ---------------------------------------------------------------------
  // The two TCC runs of TCCManager.

  /** The scheduler's choices in one run: the completion order of the
      fanned-out try calls and that of the confirm calls. */
  datatype Schedule = Schedule(tryArrival: Arrival, confirmArrival: Arrival)

  /** The payload of every try call: the run's payload, followed in the
      barrier variant by the UTF-8 bytes of the barrier id. */
  function TryPayload(payload: seq<byte>, barrier: Option<string>): (p: seq<byte>)
    ensures barrier.None? ==> p == payload
    ensures barrier.Some? ==> |p| >= |payload| && p[..|payload|] == payload && p[|payload|..] == Utf8(barrier.value)
  {
    if barrier.Some? then payload + Utf8(barrier.value) else payload
  }

  /** The confirm phase and, should it fail, the cancel phase; the first
      confirm request is the n-th of the coordinator's log. */
  function ConfirmStage(respond: (nat, Request) -> Reply, gid: string, steps: seq<TCCStep>,
                        parallel: bool, barrier: Option<string>, n: nat, arrival: Arrival): Trace
  {
    var confirmed := PhaseSpec(respond, gid, ConfirmPhase, steps, parallel, n, arrival);
    if confirmed.err.Some? then
      Trace(Some(ConfirmPhaseFailed(barrier.Some?, confirmed.err.value)), confirmed.sent + CancelRequests(gid, steps, |steps|))
    else confirmed
  }

  /** A TCC run once the transaction is started, its first phase request
      being the n-th of the coordinator's log. */
  function TCCAfterStart(respond: (nat, Request) -> Reply, gid: string, payload: seq<byte>, steps: seq<TCCStep>,
                         parallel: bool, barrier: Option<string>, n: nat, sched: Schedule): Trace
  {
    var tried := PhaseSpec(respond, gid, TryPhase(TryPayload(payload, barrier)), steps, parallel, n, sched.tryArrival);
    if tried.err.Some? then
      Trace(Some(TryPhaseFailed(barrier.Some?, tried.err.value)), tried.sent + CancelRequests(gid, steps, |steps|))
    else Prepend(tried.sent, ConfirmStage(respond, gid, steps, parallel, barrier, n + |tried.sent|, sched.confirmArrival))
  }

  /** A whole TCC run whose first request is the base-th of the log. */
  function TCCSpec(respond: (nat, Request) -> Reply, uuid: string, payload: seq<byte>, steps: seq<TCCStep>,
                   parallel: bool, barrier: Option<string>, base: nat, sched: Schedule): Trace
  {
    var startReq := StartRequest(uuid, ModeTCC, payload);
    var started := StartResult(Answer(respond, base, startReq));
    if started.Err? then Trace(Some(StartFailed(ModeTCC, started.error)), [startReq])
    else Prepend([startReq], TCCAfterStart(respond, started.value, payload, steps, parallel, barrier, base + 1, sched))
  }

  /** Whether a phase over n steps finishes: the fan-out makes a semaphore
      with MaxConcurrency slots, which panics when negative; with no slot
      every goroutine blocks on it for good, unless there is none. */
  predicate FanOutCompletes(parallel: bool, maxConcurrency: int, n: nat)
  {
    !parallel || maxConcurrency >= 1 || (maxConcurrency == 0 && n == 0)
  }

  predicate NoneTo(sent: seq<Request>, e: Endpoint)
  {
    forall q :: 0 <= q < |sent| ==> sent[q].endpoint != e
  }

  /** A phase sends, in workflow order, the phase's request for a prefix
      of the steps; so every request goes to the phase's endpoint. */
  lemma PhaseSpecEndpoints(respond: (nat, Request) -> Reply, gid: string, phase: Phase, steps: seq<TCCStep>,
                           parallel: bool, base: nat, arrival: Arrival)
    ensures var t := PhaseSpec(respond, gid, phase, steps, parallel, base, arrival);
      && |t.sent| <= |steps|
      && (forall q :: 0 <= q < |t.sent| ==> t.sent[q] == PhaseRequest(gid, phase, steps[q]))
      && (forall q :: 0 <= q < |t.sent| ==> t.sent[q].endpoint == PhaseEndpoint(phase))
  {
    PhaseRequestsAt(gid, phase, steps, |steps|);
    var v := FirstFailing(respond, gid, phase, steps, base, 0);
    if v.Some? {
      PhaseRequestsAt(gid, phase, steps, v.value + 1);
    }
  }

  /** A phase that reports no error called every step. */
  lemma PhaseSuccessSendsAll(respond: (nat, Request) -> Reply, gid: string, phase: Phase, steps: seq<TCCStep>,
                             parallel: bool, base: nat, arrival: Arrival)
    requires PhaseSpec(respond, gid, phase, steps, parallel, base, arrival).err.None?
    ensures PhaseSpec(respond, gid, phase, steps, parallel, base, arrival).sent == PhaseRequests(gid, phase, steps, |steps|)
  {
    if !parallel {
      assert FirstFailing(respond, gid, phase, steps, base, 0).None?;
    }
  }

  /** A failed try phase cancels every step, tried or not, and confirms none. */
  lemma TryFailureCancelsAll(respond: (nat, Request) -> Reply, gid: string, payload: seq<byte>, steps: seq<TCCStep>,
                             parallel: bool, barrier: Option<string>, n: nat, sched: Schedule)
    requires PhaseSpec(respond, gid, TryPhase(TryPayload(payload, barrier)), steps, parallel, n, sched.tryArrival).err.Some?
    ensures var run := TCCAfterStart(respond, gid, payload, steps, parallel, barrier, n, sched);
      var tried := PhaseSpec(respond, gid, TryPhase(TryPayload(payload, barrier)), steps, parallel, n, sched.tryArrival);
      && run.err == Some(TryPhaseFailed(barrier.Some?, tried.err.value))
      && run.sent == tried.sent + CancelRequests(gid, steps, |steps|)
      && NoneTo(run.sent, ApiBranchConfirm)
  {
    PhaseSpecEndpoints(respond, gid, TryPhase(TryPayload(payload, barrier)), steps, parallel, n, sched.tryArrival);
    CancelRequestsAt(gid, steps, |steps|);
  }

  /** A failed confirm phase follows a try phase that called every step,
      and is followed by the cancellation of every step. */
  lemma ConfirmFailureCancelsAll(respond: (nat, Request) -> Reply, gid: string, payload: seq<byte>, steps: seq<TCCStep>,
                                 parallel: bool, barrier: Option<string>, n: nat, sched: Schedule)
    requires PhaseSpec(respond, gid, TryPhase(TryPayload(payload, barrier)), steps, parallel, n, sched.tryArrival).err.None?
    requires ConfirmStage(respond, gid, steps, parallel, barrier, n + |steps|, sched.confirmArrival).err.Some?
    ensures var run := TCCAfterStart(respond, gid, payload, steps, parallel, barrier, n, sched);
      var confirmed := PhaseSpec(respond, gid, ConfirmPhase, steps, parallel, n + |steps|, sched.confirmArrival);
      && run.err == Some(ConfirmPhaseFailed(barrier.Some?, confirmed.err.value))
      && run.sent == PhaseRequests(gid, TryPhase(TryPayload(payload, barrier)), steps, |steps|)
                   + (confirmed.sent + CancelRequests(gid, steps, |steps|))
  {
    PhaseSuccessSendsAll(respond, gid, TryPhase(TryPayload(payload, barrier)), steps, parallel, n, sched.tryArrival);
  }

  /** A run that succeeds tried and confirmed every step, in that order,
      and cancelled nothing. */
  lemma SuccessTriesAndConfirmsAll(respond: (nat, Request) -> Reply, gid: string, payload: seq<byte>, steps: seq<TCCStep>,
                                   parallel: bool, barrier: Option<string>, n: nat, sched: Schedule)
    ensures var run := TCCAfterStart(respond, gid, payload, steps, parallel, barrier, n, sched);
      run.err.None? ==>
        && run.sent == PhaseRequests(gid, TryPhase(TryPayload(payload, barrier)), steps, |steps|)
                     + PhaseRequests(gid, ConfirmPhase, steps, |steps|)
        && NoneTo(run.sent, ApiBranchCancel)
  {
    var tp := TryPhase(TryPayload(payload, barrier));
    var tried := PhaseSpec(respond, gid, tp, steps, parallel, n, sched.tryArrival);
    if tried.err.None? {
      PhaseSuccessSendsAll(respond, gid, tp, steps, parallel, n, sched.tryArrival);
      var m := n + |steps|;
      var confirmed := PhaseSpec(respond, gid, ConfirmPhase, steps, parallel, m, sched.confirmArrival);
      if confirmed.err.None? {
        PhaseSuccessSendsAll(respond, gid, ConfirmPhase, steps, parallel, m, sched.confirmArrival);
        PhaseRequestsAt(gid, tp, steps, |steps|);
        PhaseRequestsAt(gid, ConfirmPhase, steps, |steps|);
      }
    }
  }

  /** A refused start sends nothing more. */
  lemma TCCStartRefused(respond: (nat, Request) -> Reply, uuid: string, payload: seq<byte>, steps: seq<TCCStep>,
                        parallel: bool, barrier: Option<string>, base: nat, sched: Schedule)
    requires StartResult(Answer(respond, base, StartRequest(uuid, ModeTCC, payload))).Err?
    ensures TCCSpec(respond, uuid, payload, steps, parallel, barrier, base, sched)
         == Trace(Some(StartFailed(ModeTCC, StartResult(Answer(respond, base, StartRequest(uuid, ModeTCC, payload))).error)),
                  [StartRequest(uuid, ModeTCC, payload)])
  {
  }

  /** The confirm stage sends no try request. */
  lemma ConfirmStageSendsNoTry(respond: (nat, Request) -> Reply, gid: string, steps: seq<TCCStep>,
                               parallel: bool, barrier: Option<string>, n: nat, arrival: Arrival)
    ensures NoneTo(ConfirmStage(respond, gid, steps, parallel, barrier, n, arrival).sent, ApiBranchTry)
  {
    PhaseSpecEndpoints(respond, gid, ConfirmPhase, steps, parallel, n, arrival);
    CancelRequestsAt(gid, steps, |steps|);
  }

  /** Every try request of `sent` carries payload p. */
  predicate TriesCarry(sent: seq<Request>, p: seq<byte>)
  {
    forall q :: 0 <= q < |sent| && sent[q].endpoint == ApiBranchTry ==> sent[q].payload == p
  }

  lemma TriesCarryAppend(a: seq<Request>, b: seq<Request>, p: seq<byte>)
    requires TriesCarry(a, p) && (TriesCarry(b, p) || NoneTo(b, ApiBranchTry))
    ensures TriesCarry(a + b, p)
  {
    assert forall q :: |a| <= q < |a + b| ==> (a + b)[q] == b[q - |a|];
  }

  lemma PhaseTriesCarry(respond: (nat, Request) -> Reply, gid: string, p: seq<byte>, steps: seq<TCCStep>,
                        parallel: bool, n: nat, arrival: Arrival)
    ensures TriesCarry(PhaseSpec(respond, gid, TryPhase(p), steps, parallel, n, arrival).sent, p)
  {
    PhaseSpecEndpoints(respond, gid, TryPhase(p), steps, parallel, n, arrival);
  }

  /** After the start, every try request of a run carries the try payload. */
  lemma TryRequestsCarry(respond: (nat, Request) -> Reply, gid: string, payload: seq<byte>, steps: seq<TCCStep>,
                         parallel: bool, barrier: Option<string>, n: nat, sched: Schedule)
    ensures TriesCarry(TCCAfterStart(respond, gid, payload, steps, parallel, barrier, n, sched).sent, TryPayload(payload, barrier))
  {
    var p := TryPayload(payload, barrier);
    var tried := PhaseSpec(respond, gid, TryPhase(p), steps, parallel, n, sched.tryArrival);
    PhaseTriesCarry(respond, gid, p, steps, parallel, n, sched.tryArrival);
    if tried.err.Some? {
      CancelRequestsAt(gid, steps, |steps|);
      TriesCarryAppend(tried.sent, CancelRequests(gid, steps, |steps|), p);
    } else {
      var m := n + |tried.sent|;
      ConfirmStageSendsNoTry(respond, gid, steps, parallel, barrier, m, sched.confirmArrival);
      TriesCarryAppend(tried.sent, ConfirmStage(respond, gid, steps, parallel, barrier, m, sched.confirmArrival).sent, p);
    }
  }

  /** The barrier variant starts the transaction with the run's own
      payload; only its try calls carry the barrier id, after the payload. */
  lemma BarrierOnlyInTryPayload(respond: (nat, Request) -> Reply, uuid: string, payload: seq<byte>, steps: seq<TCCStep>,
                                parallel: bool, barrierId: string, base: nat, sched: Schedule)
    ensures var run := TCCSpec(respond, uuid, payload, steps, parallel, Some(barrierId), base, sched);
      && run.sent[0] == StartRequest(uuid, ModeTCC, payload)
      && TriesCarry(run.sent, payload + Utf8(barrierId))
  {
    var started := StartResult(Answer(respond, base, StartRequest(uuid, ModeTCC, payload)));
    if started.Ok? {
      var n := base + 1;
      TryRequestsCarry(respond, started.value, payload, steps, parallel, Some(barrierId), n, sched);
      TriesCarryAppend([StartRequest(uuid, ModeTCC, payload)],
                       TCCAfterStart(respond, started.value, payload, steps, parallel, Some(barrierId), n, sched).sent,
                       payload + Utf8(barrierId));
    }
  }

  /** TCCManager: runs TCC workflows against one coordinator. */
  class TCCManager {
    const client: Coordinator

    constructor (client: Coordinator)
      ensures this.client == client
    {
      this.client := client;
    }

    /** ExecuteTCC; `uuid` is the id the client proposes for the new
        transaction, `sched` the order in which fanned-out calls finish;
        nil options mean the defaults. Once the transaction is started, a
        fan-out must be able to finish (see FanOutCompletes). */
    method ExecuteTCC(workflow: TCCWorkflow, payload: seq<byte>, uuid: string, options: Option<ExecutionOptions>, sched: Schedule)
      returns (err: Option<Error>)
      requires StartResult(Answer(client.respond, |client.sent|, StartRequest(uuid, ModeTCC, payload))).Ok? ==>
        FanOutCompletes(OptionsOrDefault(options).parallelBranches, OptionsOrDefault(options).maxConcurrency, |workflow.steps|)
      modifies client
      ensures var run := TCCSpec(client.respond, uuid, payload, workflow.steps, OptionsOrDefault(options).parallelBranches,
                                 None, |old(client.sent)|, sched);
        client.sent == old(client.sent) + run.sent && err == run.err
    {
      var opts := OptionsOrDefault(options);
      var tx, e := StartTransaction(client, uuid, ModeTCC, payload);
      if e.Some? {
        return Some(StartFailed(ModeTCC, e.value));
      }
      ghost var mid := client.sent;
      err := RunPhases(tx, workflow.steps, payload, opts.parallelBranches, None, sched);
      AppendAssoc(old(client.sent), mid[|old(client.sent)|..], client.sent[|mid|..]);
    }

    /** ExecuteTCCWithBarrier: the same run, with the barrier id appended
        to every try payload. */
    method ExecuteTCCWithBarrier(workflow: TCCWorkflow, payload: seq<byte>, barrierId: string, uuid: string,
                                 options: Option<ExecutionOptions>, sched: Schedule)
      returns (err: Option<Error>)
      requires StartResult(Answer(client.respond, |client.sent|, StartRequest(uuid, ModeTCC, payload))).Ok? ==>
        FanOutCompletes(OptionsOrDefault(options).parallelBranches, OptionsOrDefault(options).maxConcurrency, |workflow.steps|)
      modifies client
      ensures var run := TCCSpec(client.respond, uuid, payload, workflow.steps, OptionsOrDefault(options).parallelBranches,
                                 Some(barrierId), |old(client.sent)|, sched);
        client.sent == old(client.sent) + run.sent && err == run.err
    {
      var opts := OptionsOrDefault(options);
      var tx, e := StartTransaction(client, uuid, ModeTCC, payload);
      if e.Some? {
        return Some(StartFailed(ModeTCC, e.value));
      }
      ghost var mid := client.sent;
      err := RunPhases(tx, workflow.steps, payload, opts.parallelBranches, Some(barrierId), sched);
      AppendAssoc(old(client.sent), mid[|old(client.sent)|..], client.sent[|mid|..]);
    }
  }

  /** Confirm; cancel everything after a failure. */
  method RunConfirmStage(tx: Transaction, steps: seq<TCCStep>, parallel: bool, barrier: Option<string>, arrival: Arrival)
    returns (err: Option<Error>)
    modifies tx.client
    ensures var run := ConfirmStage(tx.client.respond, tx.gid, steps, parallel, barrier, |old(tx.client.sent)|, arrival);
      tx.client.sent == old(tx.client.sent) + run.sent && err == run.err
  {
    var confirmed := PhaseRun(tx, ConfirmPhase, steps, parallel, arrival);
    ghost var afterConfirm := tx.client.sent;
    if confirmed.Some? {
      CancelPhase(tx, steps);
      AppendAssoc(old(tx.client.sent), afterConfirm[|old(tx.client.sent)|..], tx.client.sent[|afterConfirm|..]);
      return Some(ConfirmPhaseFailed(barrier.Some?, confirmed.value));
    }
    return None;
  }

  /** Try, then confirm; cancel everything after a failure of either. */
  method RunPhases(tx: Transaction, steps: seq<TCCStep>, payload: seq<byte>, parallel: bool, barrier: Option<string>,
                   sched: Schedule)
    returns (err: Option<Error>)
    modifies tx.client
    ensures var run := TCCAfterStart(tx.client.respond, tx.gid, payload, steps, parallel, barrier, |old(tx.client.sent)|, sched);
      tx.client.sent == old(tx.client.sent) + run.sent && err == run.err
  {
    ghost var respond := tx.client.respond;
    var gid := tx.gid;
    ghost var n := |tx.client.sent|;
    ghost var run := TCCAfterStart(respond, gid, payload, steps, parallel, barrier, n, sched);
    ghost var tried := PhaseSpec(respond, gid, TryPhase(TryPayload(payload, barrier)), steps, parallel, n, sched.tryArrival);
    var e := PhaseRun(tx, TryPhase(TryPayload(payload, barrier)), steps, parallel, sched.tryArrival);
    ghost var afterTry := tx.client.sent;
    assert afterTry == old(tx.client.sent) + tried.sent && e == tried.err;
    if e.Some? {
      assert run == Trace(Some(TryPhaseFailed(barrier.Some?, e.value)), tried.sent + CancelRequests(gid, steps, |steps|));
      CancelPhase(tx, steps);
      AppendAssoc(old(tx.client.sent), tried.sent, CancelRequests(gid, steps, |steps|));
      return Some(TryPhaseFailed(barrier.Some?, e.value));
    }
    ghost var rest := ConfirmStage(respond, gid, steps, parallel, barrier, n + |tried.sent|, sched.confirmArrival);
    assert run == Prepend(tried.sent, rest);
    assert |afterTry| == n + |tried.sent|;
    err := RunConfirmStage(tx, steps, parallel, barrier, sched.confirmArrival);
    AppendAssoc(old(tx.client.sent), tried.sent, rest.sent);
  }
}
