/** The Saga orchestration of saga.go: workflow building and validation,
    ordered branch registration with abort on the first failure, submit,
    polling for a terminal status, and the reverse-order selection of the
    steps to compensate. */
module Saga {
  import opened Types
  import opened Gateway
  import opened Workflow
  import opened Txn

  // ---------------------------------------------------------------------
  // Workflow and validation

  function SagaIds(steps: seq<SagaStep>): set<string>
  {
    set j | 0 <= j < |steps| :: steps[j].branchId
  }

  /** The checks Validate makes of one step, in order, given the steps before it. */
  function SagaStepOffense(step: SagaStep, earlier: seq<SagaStep>): Option<Error>
  {
    if step.branchId == "" then Some(EmptyBranchId)
    else if step.action == "" then Some(EmptyAction)
    else if step.branchId in SagaIds(earlier) then Some(DuplicateBranchId(step.branchId))
    else None
  }

  function SagaValidation(steps: seq<SagaStep>): Option<Error>
  {
    if |steps| == 0 then Some(NoSteps(ModeSaga)) else FirstOffense(steps, SagaStepOffense, 0)
  }

  /** A runnable Saga: at least one step, every id and action given, ids
      pairwise distinct. The compensation target is not required. */
  predicate WellFormedSaga(steps: seq<SagaStep>)
  {
    && |steps| > 0
    && (forall i :: 0 <= i < |steps| ==> steps[i].branchId != "" && steps[i].action != "")
    && (forall i, j :: 0 <= i < j < |steps| ==> steps[i].branchId != steps[j].branchId)
  }

  lemma SagaValidationIff(steps: seq<SagaStep>)
    ensures SagaValidation(steps).None? <==> WellFormedSaga(steps)
  {
    FirstOffenseNoneIff(steps, SagaStepOffense, 0);
    if |steps| > 0 {
      if forall k :: 0 <= k < |steps| ==> SagaStepOffense(steps[k], steps[..k]).None? {
        forall i, j | 0 <= i < j < |steps| ensures steps[i].branchId != steps[j].branchId {
          assert steps[..j][i] == steps[i];
          assert steps[i].branchId in SagaIds(steps[..j]);
          assert SagaStepOffense(steps[j], steps[..j]).None?;
        }
      }
    }
  }

  /** An empty workflow is refused for having no step; otherwise the error
      is that of the first offending step, checked id, action, duplicate. */
  lemma SagaValidationReportsFirst(steps: seq<SagaStep>)
    ensures |steps| == 0 ==> SagaValidation(steps) == Some(NoSteps(ModeSaga))
    ensures |steps| > 0 && SagaValidation(steps).Some? ==>
      exists k :: 0 <= k < |steps| && SagaValidation(steps) == SagaStepOffense(steps[k], steps[..k])
               && forall j :: 0 <= j < k ==> SagaStepOffense(steps[j], steps[..j]).None?
  {
    FirstOffenseIsFirst(steps, SagaStepOffense, 0);
  }

  class SagaWorkflow {
    var steps: seq<SagaStep>

    /** CreateSagaWorkflow keeps the given steps as they are. */
    constructor (steps: seq<SagaStep>)
      ensures this.steps == steps
    {
      this.steps := steps;
    }

    method AddStep(branchId: string, action: string, compensate: string)
      modifies this
      ensures steps == old(steps) + [SagaStep(branchId, action, compensate)]
    {
      steps := steps + [SagaStep(branchId, action, compensate)];
    }

    method Validate() returns (err: Option<Error>)
      ensures err == SagaValidation(steps)
    {
      if |steps| == 0 {
        return Some(NoSteps(ModeSaga));
      }
      var seen: set<string> := {};
      var i := 0;
      while i < |steps|
        invariant 0 <= i <= |steps|
        invariant seen == SagaIds(steps[..i])
        invariant FirstOffense(steps, SagaStepOffense, 0) == FirstOffense(steps, SagaStepOffense, i)
      {
        var step := steps[i];
        if step.branchId == "" {
          return Some(EmptyBranchId);
        }
        if step.action == "" {
          return Some(EmptyAction);
        }
        if step.branchId in seen {
          return Some(DuplicateBranchId(step.branchId));
        }
        assert SagaIds(steps[..i + 1]) == SagaIds(steps[..i]) + {step.branchId} by {
          assert forall j :: 0 <= j < i ==> steps[..i + 1][j] == steps[..i][j];
          assert steps[..i + 1][i] == step;
        }
        seen := seen + {step.branchId};
        i := i + 1;
      }
      return None;
    }
  }

  // ---------------------------------------------------------------------
  // Registration: AddBranch for every step, in order; on the first
  // failure, Abort (its own result ignored) and stop.

  function AddRequests(gid: string, steps: seq<SagaStep>): seq<Request>
    decreases |steps|
  {
    if steps == [] then [] else [AddBranchRequest(gid, steps[0].branchId, steps[0].action)] + AddRequests(gid, steps[1..])
  }

  /** What registering one step does, its request being the n-th of the
      run: the registration, then an Abort if it was refused. */
  function StepTrace(respond: (nat, Request) -> Reply, gid: string, step: SagaStep, n: nat): Trace
  {
    var req := AddBranchRequest(gid, step.branchId, step.action);
    var reply := Answer(respond, n, req);
    if Accepted(reply) then Trace(None, [req])
    else Trace(Some(AddBranchFailed(step.branchId, CallResult(ApiBranchAdd, reply).value)), [req, TxRequest(ApiAbort, gid)])
  }

  /** Registration of steps[i..] in a run whose request for step k is the
      (base + k)-th request the coordinator receives. */
  function RegisterFrom(respond: (nat, Request) -> Reply, gid: string, steps: seq<SagaStep>, base: nat, i: nat): Trace
    decreases |steps| - i
  {
    if i >= |steps| then Trace(None, [])
    else
      var t := StepTrace(respond, gid, steps[i], base + i);
      if t.err.None? then Prepend(t.sent, RegisterFrom(respond, gid, steps, base, i + 1)) else t
  }

  /** Whether the coordinator accepts the registration of step k. */
  predicate RegisterAccepted(respond: (nat, Request) -> Reply, gid: string, steps: seq<SagaStep>, base: nat, k: nat)
    requires k < |steps|
  {
    Accepted(Answer(respond, base + k, AddBranchRequest(gid, steps[k].branchId, steps[k].action)))
  }

  /** When every registration is accepted, exactly the registrations are
      sent, in workflow order, and there is no error. */
  lemma {:induction false} RegisterAllAccepted(respond: (nat, Request) -> Reply, gid: string, steps: seq<SagaStep>, base: nat, i: nat)
    requires i <= |steps|
    requires forall k :: i <= k < |steps| ==> RegisterAccepted(respond, gid, steps, base, k)
    ensures RegisterFrom(respond, gid, steps, base, i) == Trace(None, AddRequests(gid, steps[i..]))
    decreases |steps| - i
  {
    if i == |steps| {
      assert steps[i..] == [];
    } else {
      assert RegisterAccepted(respond, gid, steps, base, i);
      RegisterAllAccepted(respond, gid, steps, base, i + 1);
      assert steps[i..][1..] == steps[i + 1..];
    }
  }

  /** When step k is the first refused, the registrations up to and
      including k are sent, then exactly one Abort, and the error names
      step k with the cause of its refusal. */
  lemma {:induction false} RegisterFirstRefused(respond: (nat, Request) -> Reply, gid: string, steps: seq<SagaStep>, base: nat, i: nat, k: nat)
    requires i <= k < |steps|
    requires forall j :: i <= j < k ==> RegisterAccepted(respond, gid, steps, base, j)
    requires !RegisterAccepted(respond, gid, steps, base, k)
    ensures RegisterFrom(respond, gid, steps, base, i) == Trace(
      Some(AddBranchFailed(steps[k].branchId,
        CallResult(ApiBranchAdd, Answer(respond, base + k, AddBranchRequest(gid, steps[k].branchId, steps[k].action))).value)),
      AddRequests(gid, steps[i..k + 1]) + [TxRequest(ApiAbort, gid)])
    decreases k - i
  {
    if i == k {
      assert steps[i..k + 1][1..] == [];
    } else {
      assert RegisterAccepted(respond, gid, steps, base, i);
      RegisterFirstRefused(respond, gid, steps, base, i + 1, k);
      assert steps[i..k + 1][1..] == steps[i + 1..k + 1];
    }
  }

  /** The registration requests are the steps' own ids and actions, in order. */
  lemma {:induction false} AddRequestsEndpoints(gid: string, steps: seq<SagaStep>)
    ensures |AddRequests(gid, steps)| == |steps|
    ensures forall k :: 0 <= k < |steps| ==>
      AddRequests(gid, steps)[k] == AddBranchRequest(gid, steps[k].branchId, steps[k].action)
    decreases |steps|
  {
    if steps != [] {
      AddRequestsEndpoints(gid, steps[1..]);
    }
  }

  /** The local branch records of registered steps, in order. */
  function BranchesOf(steps: seq<SagaStep>): seq<Branch>
    decreases |steps|
  {
    if steps == [] then [] else [Branch(steps[0].branchId, steps[0].action, "")] + BranchesOf(steps[1..])
  }

  /** Registering one more step adds its request, and its branch record, at the end. */
  lemma {:induction false} RegisteredPrefixGrows(gid: string, steps: seq<SagaStep>, i: nat)
    requires i < |steps|
    ensures AddRequests(gid, steps[..i + 1]) == AddRequests(gid, steps[..i]) + [AddBranchRequest(gid, steps[i].branchId, steps[i].action)]
    ensures BranchesOf(steps[..i + 1]) == BranchesOf(steps[..i]) + [Branch(steps[i].branchId, steps[i].action, "")]
    decreases i
  {
    if i > 0 {
      assert steps[..i + 1][1..] == steps[1..][..i];
      assert steps[..i][1..] == steps[1..][..i - 1];
      RegisteredPrefixGrows(gid, steps[1..], i - 1);
    }
  }

  /** One iteration of the registration loop. */
  method RegisterStep(tx: Transaction, step: SagaStep) returns (err: Option<Error>)
    modifies tx, tx.client
    ensures var t := StepTrace(tx.client.respond, tx.gid, step, |old(tx.client.sent)|);
      tx.client.sent == old(tx.client.sent) + t.sent && err == t.err
    ensures err.None? ==> tx.branches == old(tx.branches) + [Branch(step.branchId, step.action, "")]
    ensures err.Some? ==> tx.branches == old(tx.branches)
  {
    var e := tx.AddBranch(step.branchId, step.action);
    if e.Some? {
      var ignored := tx.Abort();
      return Some(AddBranchFailed(step.branchId, e.value));
    }
    return None;
  }

  method RegisterBranches(tx: Transaction, steps: seq<SagaStep>) returns (err: Option<Error>)
    modifies tx, tx.client
    ensures var r := RegisterFrom(tx.client.respond, tx.gid, steps, |old(tx.client.sent)|, 0);
      tx.client.sent == old(tx.client.sent) + r.sent && err == r.err
    ensures err.None? ==> tx.branches == old(tx.branches) + BranchesOf(steps)
  {
    ghost var n0 := |tx.client.sent|;
    var i := 0;
    while i < |steps|
      invariant 0 <= i <= |steps|
      invariant forall k :: 0 <= k < i ==> RegisterAccepted(tx.client.respond, tx.gid, steps, n0, k)
      invariant |tx.client.sent| == n0 + i
      invariant tx.client.sent == old(tx.client.sent) + AddRequests(tx.gid, steps[..i])
      invariant tx.branches == old(tx.branches) + BranchesOf(steps[..i])
    {
      var e := RegisterStep(tx, steps[i]);
      if e.Some? {
        RegisterFirstRefused(tx.client.respond, tx.gid, steps, n0, 0, i);
        RegisteredPrefixGrows(tx.gid, steps, i);
        assert steps[0..i + 1] == steps[..i + 1];
        AppendAssoc(old(tx.client.sent), AddRequests(tx.gid, steps[..i]),
                  [AddBranchRequest(tx.gid, steps[i].branchId, steps[i].action), TxRequest(ApiAbort, tx.gid)]);
        AppendAssoc(AddRequests(tx.gid, steps[..i]), [AddBranchRequest(tx.gid, steps[i].branchId, steps[i].action)], [TxRequest(ApiAbort, tx.gid)]);
        return e;
      }
      RegisteredPrefixGrows(tx.gid, steps, i);
      AppendAssoc(old(tx.client.sent), AddRequests(tx.gid, steps[..i]), [AddBranchRequest(tx.gid, steps[i].branchId, steps[i].action)]);
      i := i + 1;
    }
    RegisterAllAccepted(tx.client.respond, tx.gid, steps, n0, 0);
    assert steps[..i] == steps[0..];
    return None;
  }

  // ---------------------------------------------------------------------
  // Waiting for the outcome. Each turn of the select loop is woken by the
  // ticker, by the cancelled context or by the overall timer; `wakes` says
  // which, turn by turn. Once the given wakes are used up the timer fires.

  datatype Wake = Tick | Cancelled | TimerFired

  /** How a wait ends: with the error to return, or, in the compensating
      variant, with the branch list of an aborted transaction. */
  datatype PollEnd = Finished(err: Option<Error>) | Compensate(branches: seq<Branch>)

  datatype PollTrace = PollTrace(end: PollEnd, sent: seq<Request>)

  /** The switch on the reported status; None means keep waiting. */
  function Verdict(info: TransactionInfo, withCompensation: bool): (v: Option<PollEnd>)
    ensures v.None? <==> info.status == StatusSubmitted
    ensures v == Some(Finished(None)) <==> info.status == StatusCommitted
    ensures v.Some? && v.value.Compensate? <==> withCompensation && info.status == StatusAborted
    ensures v.Some? && v.value.Compensate? ==> v.value.branches == info.branches
  {
    if info.status == StatusCommitted then Some(Finished(None))
    else if info.status == StatusAborted then
      (if withCompensation then Some(Compensate(info.branches)) else Some(Finished(Some(SagaAborted))))
    else if info.status == StatusSubmitted then None
    else Some(Finished(Some(UnknownStatus(info.status))))
  }

  /** The plain and the compensating wait differ only on an aborted transaction. */
  lemma VerdictsAgreeUnlessAborted(info: TransactionInfo)
    ensures info.status != StatusAborted ==> Verdict(info, true) == Verdict(info, false)
    ensures info.status == StatusAborted ==>
      Verdict(info, false) == Some(Finished(Some(SagaAborted))) && Verdict(info, true) == Some(Compensate(info.branches))
  {
  }

  /** The wait from turn j on, the status query of turn j being the
      (base + j)-th request of the run: every earlier turn was a tick that
      found the transaction still SUBMITTED. */
  function PollFrom(respond: (nat, Request) -> Reply, gid: string, wakes: seq<Wake>, withCompensation: bool,
                    base: nat, j: nat): (r: PollTrace)
    ensures !withCompensation ==> r.end.Finished?
    decreases |wakes| - j
  {
    if j >= |wakes| then PollTrace(Finished(Some(SagaTimeout)), [])
    else match wakes[j]
      case Cancelled => PollTrace(Finished(Some(ContextDone)), [])
      case TimerFired => PollTrace(Finished(Some(SagaTimeout)), [])
      case Tick =>
        var req := TxRequest(ApiTx, gid);
        var info := InfoResult(Answer(respond, base + j, req));
        if info.Err? then PollTrace(Finished(Some(InfoFailed(info.error))), [req])
        else
          var v := Verdict(info.value, withCompensation);
          if v.None? then
            var rest := PollFrom(respond, gid, wakes, withCompensation, base, j + 1);
            PollTrace(rest.end, [req] + rest.sent)
          else PollTrace(v.value, [req])
  }

  /** The reply to the status query of turn j. */
  function PollInfo(respond: (nat, Request) -> Reply, gid: string, base: nat, j: nat): Result<TransactionInfo>
  {
    InfoResult(Answer(respond, base + j, TxRequest(ApiTx, gid)))
  }

  /** Turn j was a tick whose query found the transaction still running. */
  predicate StillRunning(respond: (nat, Request) -> Reply, gid: string, wakes: seq<Wake>, base: nat, j: nat)
    requires j < |wakes|
  {
    && wakes[j] == Tick
    && PollInfo(respond, gid, base, j).Ok?
    && PollInfo(respond, gid, base, j).value.status == StatusSubmitted
  }

  /** A wait only ever queries the transaction, once per tick, and stops
      at the first turn that is not a tick on a running transaction. */
  lemma {:induction false} PollQueriesOnly(respond: (nat, Request) -> Reply, gid: string, wakes: seq<Wake>,
                                           withCompensation: bool, base: nat, j: nat)
    requires j <= |wakes|
    ensures var r := PollFrom(respond, gid, wakes, withCompensation, base, j);
      && |r.sent| <= |wakes| - j
      && forall q :: 0 <= q < |r.sent| ==> r.sent[q] == TxRequest(ApiTx, gid)
    decreases |wakes| - j
  {
    if j < |wakes| && wakes[j] == Tick {
      PollQueriesOnly(respond, gid, wakes, withCompensation, base, j + 1);
    }
  }

  /** A wait ends in success exactly by way of a query that reported
      COMMITTED, after queries that all reported SUBMITTED; it ends with
      compensation only by way of one that reported ABORTED, and then it
      hands on that report's branches. */
  lemma {:induction false} PollEndMeans(respond: (nat, Request) -> Reply, gid: string, wakes: seq<Wake>,
                                        withCompensation: bool, base: nat, j: nat)
    requires j <= |wakes|
    ensures var r := PollFrom(respond, gid, wakes, withCompensation, base, j);
      (r.end == Finished(None) || r.end.Compensate?) ==>
        exists t :: j <= t < |wakes| && wakes[t] == Tick && PollInfo(respond, gid, base, t).Ok?
          && (forall u :: j <= u < t ==> StillRunning(respond, gid, wakes, base, u))
          && (r.end == Finished(None) ==> PollInfo(respond, gid, base, t).value.status == StatusCommitted)
          && (r.end.Compensate? ==>
                && withCompensation
                && PollInfo(respond, gid, base, t).value.status == StatusAborted
                && r.end.branches == PollInfo(respond, gid, base, t).value.branches)
    decreases |wakes| - j
  {
    var r := PollFrom(respond, gid, wakes, withCompensation, base, j);
    if j < |wakes| && wakes[j] == Tick && (r.end == Finished(None) || r.end.Compensate?) {
      var info := PollInfo(respond, gid, base, j);
      if info.value.status == StatusSubmitted {
        PollEndMeans(respond, gid, wakes, withCompensation, base, j + 1);
        var t :| j + 1 <= t < |wakes| && wakes[t] == Tick && PollInfo(respond, gid, base, t).Ok?
          && (forall u :: j + 1 <= u < t ==> StillRunning(respond, gid, wakes, base, u))
          && (r.end == Finished(None) ==> PollInfo(respond, gid, base, t).value.status == StatusCommitted)
          && (r.end.Compensate? ==>
                && withCompensation
                && PollInfo(respond, gid, base, t).value.status == StatusAborted
                && r.end.branches == PollInfo(respond, gid, base, t).value.branches);
        assert StillRunning(respond, gid, wakes, base, j);
      } else {
        assert j <= j < |wakes|;
      }
    }
  }

  /** While every tick finds the transaction still SUBMITTED, the wait
      ends by the first wake that is not a tick, or by the timer once
      the wakes run out. */
  lemma {:induction false} PollWhileRunning(respond: (nat, Request) -> Reply, gid: string, wakes: seq<Wake>,
                                            withCompensation: bool, base: nat, j: nat)
    requires j <= |wakes|
    requires forall u :: j <= u < |wakes| && wakes[u] == Tick ==> StillRunning(respond, gid, wakes, base, u)
    ensures var r := PollFrom(respond, gid, wakes, withCompensation, base, j);
      r.end == Finished(Some(SagaTimeout)) || r.end == Finished(Some(ContextDone))
    ensures (forall u :: j <= u < |wakes| ==> wakes[u] == Tick) ==>
      PollFrom(respond, gid, wakes, withCompensation, base, j).end == Finished(Some(SagaTimeout))
    decreases |wakes| - j
  {
    if j < |wakes| && wakes[j] == Tick {
      assert StillRunning(respond, gid, wakes, base, j);
      PollWhileRunning(respond, gid, wakes, withCompensation, base, j + 1);
    }
  }

  /** j status queries of the same transaction. */
  function Queries(gid: string, j: nat): (qs: seq<Request>)
    ensures |qs| == j
  {
    if j == 0 then [] else Queries(gid, j - 1) + [TxRequest(ApiTx, gid)]
  }

  /** After j turns that found the transaction running, the wait has sent
      j queries and goes on as the wait from turn j. */
  lemma {:induction false} PollAfterRunning(respond: (nat, Request) -> Reply, gid: string, wakes: seq<Wake>,
                                            withCompensation: bool, base: nat, j: nat)
    requires j <= |wakes|
    requires forall u :: 0 <= u < j ==> StillRunning(respond, gid, wakes, base, u)
    ensures var rest := PollFrom(respond, gid, wakes, withCompensation, base, j);
      PollFrom(respond, gid, wakes, withCompensation, base, 0) == PollTrace(rest.end, Queries(gid, j) + rest.sent)
    decreases j
  {
    if j > 0 {
      PollAfterRunning(respond, gid, wakes, withCompensation, base, j - 1);
      assert StillRunning(respond, gid, wakes, base, j - 1);
      var rest := PollFrom(respond, gid, wakes, withCompensation, base, j);
      var info := PollInfo(respond, gid, base, j - 1);
      assert Verdict(info.value, withCompensation).None?;
      assert PollFrom(respond, gid, wakes, withCompensation, base, j - 1) == PollTrace(rest.end, [TxRequest(ApiTx, gid)] + rest.sent);
      assert Queries(gid, j - 1) + ([TxRequest(ApiTx, gid)] + rest.sent) == Queries(gid, j) + rest.sent;
    }
  }

  /** waitForCompletion (withCompensation false) and the monitoring loop
      of executeWithCompensation (withCompensation true), up to the point
      where the latter hands over to compensation. */
  method Poll(tx: Transaction, wakes: seq<Wake>, withCompensation: bool) returns (end: PollEnd)
    modifies tx.client
    ensures var r := PollFrom(tx.client.respond, tx.gid, wakes, withCompensation, |old(tx.client.sent)|, 0);
      tx.client.sent == old(tx.client.sent) + r.sent && end == r.end
  {
    ghost var n0 := |tx.client.sent|;
    var j := 0;
    while true
      invariant 0 <= j <= |wakes|
      invariant forall u :: 0 <= u < j ==> StillRunning(tx.client.respond, tx.gid, wakes, n0, u)
      invariant tx.client.sent == old(tx.client.sent) + Queries(tx.gid, j)
      decreases |wakes| - j
    {
      PollAfterRunning(tx.client.respond, tx.gid, wakes, withCompensation, n0, j);
      if j == |wakes| {
        return Finished(Some(SagaTimeout));
      }
      match wakes[j]
      case Cancelled =>
        return Finished(Some(ContextDone));
      case TimerFired =>
        return Finished(Some(SagaTimeout));
      case Tick =>
        var info := tx.GetInfo();
        if info.Err? {
          return Finished(Some(InfoFailed(info.error)));
        }
        var v := Verdict(info.value, withCompensation);
        if v.Some? {
          return v.value;
        }
        AppendAssoc(old(tx.client.sent), Queries(tx.gid, j), [TxRequest(ApiTx, tx.gid)]);
        j := j + 1;
    }
  }

  // ---------------------------------------------------------------------
  // Compensation of an aborted Saga: the steps whose branch the
  // coordinator reports FAILED, walked from the last step to the first.

  /** Whether the coordinator's branch list reports this branch FAILED. */
  predicate Failed(branches: seq<Branch>, branchId: string)
  {
    exists k :: 0 <= k < |branches| && branches[k].branchId == branchId && branches[k].status == BranchStatusFailed
  }

  /** The inner search of executeCompensation, which stops at the first match. */
  method FindFailed(branches: seq<Branch>, branchId: string) returns (failed: bool)
    ensures failed == Failed(branches, branchId)
  {
    failed := false;
    var k := 0;
    while k < |branches|
      invariant 0 <= k <= |branches|
      invariant !failed
      invariant forall q :: 0 <= q < k ==> !(branches[q].branchId == branchId && branches[q].status == BranchStatusFailed)
    {
      if branches[k].branchId == branchId && branches[k].status == BranchStatusFailed {
        failed := true;
        break;
      }
      k := k + 1;
    }
  }

  /** The failed steps in workflow order: the reference the walk is checked against. */
  function FailedSteps(steps: seq<SagaStep>, branches: seq<Branch>): seq<SagaStep>
    decreases |steps|
  {
    if steps == [] then []
    else (if Failed(branches, steps[0].branchId) then [steps[0]] else []) + FailedSteps(steps[1..], branches)
  }

  function Reverse<T>(s: seq<T>): (r: seq<T>)
    ensures |r| == |s| && forall k :: 0 <= k < |s| ==> r[k] == s[|s| - 1 - k]
    decreases |s|
  {
    if s == [] then [] else Reverse(s[1..]) + [s[0]]
  }

  /** The steps executeCompensation compensates, in the order it starts
      them: steps[..i] walked downwards, keeping the failed ones. */
  function CompensationTargets(steps: seq<SagaStep>, branches: seq<Branch>, i: nat): seq<SagaStep>
    requires i <= |steps|
  {
    if i == 0 then []
    else (if Failed(branches, steps[i - 1].branchId) then [steps[i - 1]] else []) + CompensationTargets(steps, branches, i - 1)
  }

  lemma {:induction false} FailedStepsSnoc(steps: seq<SagaStep>, branches: seq<Branch>, step: SagaStep)
    ensures FailedSteps(steps + [step], branches)
         == FailedSteps(steps, branches) + (if Failed(branches, step.branchId) then [step] else [])
    decreases |steps|
  {
    if steps == [] {
      assert (steps + [step])[1..] == [];
    } else {
      assert (steps + [step])[1..] == steps[1..] + [step];
      FailedStepsSnoc(steps[1..], branches, step);
      AppendAssoc(if Failed(branches, steps[0].branchId) then [steps[0]] else [], FailedSteps(steps[1..], branches),
                  if Failed(branches, step.branchId) then [step] else []);
    }
  }

  /** The downward walk meets exactly the failed steps, last one first. */
  lemma {:induction false} CompensationTargetsReversed(steps: seq<SagaStep>, branches: seq<Branch>, i: nat)
    requires i <= |steps|
    ensures CompensationTargets(steps, branches, i) == Reverse(FailedSteps(steps[..i], branches))
    decreases i
  {
    if i == 0 {
      assert steps[..0] == [];
    } else {
      CompensationTargetsReversed(steps, branches, i - 1);
      assert steps[..i] == steps[..i - 1] + [steps[i - 1]];
      FailedStepsSnoc(steps[..i - 1], branches, steps[i - 1]);
      var head := if Failed(branches, steps[i - 1].branchId) then [steps[i - 1]] else [];
      var f := FailedSteps(steps[..i - 1], branches);
      assert Reverse(f + head) == head + Reverse(f);
    }
  }

  /** A step is compensated exactly when its branch is reported FAILED. */
  lemma {:induction false} FailedStepsMembers(steps: seq<SagaStep>, branches: seq<Branch>)
    ensures forall x :: x in FailedSteps(steps, branches) <==> x in steps && Failed(branches, x.branchId)
    decreases |steps|
  {
    if steps != [] {
      FailedStepsMembers(steps[1..], branches);
      assert steps == [steps[0]] + steps[1..];
    }
  }

  /** The errors of compensating `targets`, in order, each naming its branch. */
  function CompensationErrors(compensate: SagaStep -> Option<Error>, targets: seq<SagaStep>): seq<Error>
  {
    if targets == [] then []
    else
      var last := targets[|targets| - 1];
      CompensationErrors(compensate, targets[..|targets| - 1])
        + (if compensate(last).Some? then [CompensationFailedFor(last.branchId, compensate(last).value)] else [])
  }

  lemma {:induction false} CompensationErrorsEmptyIff(compensate: SagaStep -> Option<Error>, targets: seq<SagaStep>)
    ensures CompensationErrors(compensate, targets) == [] <==> forall k :: 0 <= k < |targets| ==> compensate(targets[k]).None?
    decreases |targets|
  {
    if targets != [] {
      var init := targets[..|targets| - 1];
      CompensationErrorsEmptyIff(compensate, init);
      assert forall k :: 0 <= k < |init| ==> init[k] == targets[k];
    }
  }

  /** How many of the compensations of `targets` fail. */
  function FailureCount(compensate: SagaStep -> Option<Error>, targets: seq<SagaStep>): nat
  {
    if targets == [] then 0
    else FailureCount(compensate, targets[..|targets| - 1]) + (if compensate(targets[|targets| - 1]).Some? then 1 else 0)
  }

  /** The gathered errors hold one entry per failed compensation and no
      other: each names its step's branch and carries the compensation's
      own error. */
  lemma {:induction false} CompensationErrorsAggregate(compensate: SagaStep -> Option<Error>, targets: seq<SagaStep>)
    ensures var errs := CompensationErrors(compensate, targets);
      && |errs| == FailureCount(compensate, targets)
      && (forall k :: 0 <= k < |targets| && compensate(targets[k]).Some? ==>
            CompensationFailedFor(targets[k].branchId, compensate(targets[k]).value) in errs)
      && (forall e :: e in errs ==>
            exists k :: 0 <= k < |targets| && compensate(targets[k]).Some?
                        && e == CompensationFailedFor(targets[k].branchId, compensate(targets[k]).value))
    decreases |targets|
  {
    if targets != [] {
      var n := |targets|;
      var init := targets[..n - 1];
      var last := targets[n - 1];
      CompensationErrorsAggregate(compensate, init);
      assert forall k :: 0 <= k < |init| ==> init[k] == targets[k];
      var errs := CompensationErrors(compensate, targets);
      var tail := if compensate(last).Some? then [CompensationFailedFor(last.branchId, compensate(last).value)] else [];
      assert errs == CompensationErrors(compensate, init) + tail;
      forall e | e in errs
        ensures exists k :: 0 <= k < |targets| && compensate(targets[k]).Some?
                            && e == CompensationFailedFor(targets[k].branchId, compensate(targets[k]).value)
      {
        if e in tail {
          assert compensate(targets[n - 1]).Some?;
        } else {
          var k :| 0 <= k < |init| && compensate(init[k]).Some?
                   && e == CompensationFailedFor(init[k].branchId, compensate(init[k]).value);
          assert targets[k] == init[k];
        }
      }
    }
  }

  /** The outcome of executeCompensation: nil exactly when every started
      compensation succeeded, otherwise one error gathering them all. */
  function CompensationOutcome(compensate: SagaStep -> Option<Error>, targets: seq<SagaStep>): (r: Option<Error>)
    ensures r.None? <==> forall k :: 0 <= k < |targets| ==> compensate(targets[k]).None?
  {
    CompensationErrorsEmptyIff(compensate, targets);
    var errs := CompensationErrors(compensate, targets);
    if errs == [] then None else Some(CompensationFailed(errs))
  }

  /** A failed compensation run returns one aggregate error with one entry
      per failed compensation, the entry of every failed step among them. */
  lemma CompensationOutcomeGathers(compensate: SagaStep -> Option<Error>, targets: seq<SagaStep>)
    ensures var r := CompensationOutcome(compensate, targets);
      && (r.Some? ==> r.value.CompensationFailed? && |r.value.errors| == FailureCount(compensate, targets))
      && (r.Some? ==> forall k :: 0 <= k < |targets| && compensate(targets[k]).Some? ==>
                        CompensationFailedFor(targets[k].branchId, compensate(targets[k]).value) in r.value.errors)
  {
    CompensationErrorsAggregate(compensate, targets);
  }

  /** executeCompensation. The compensations run one after the other here,
      in the order Go starts its goroutines, and their errors are gathered
      in that order. */
  method ExecuteCompensation(steps: seq<SagaStep>, branches: seq<Branch>, compensate: SagaStep -> Option<Error>)
    returns (err: Option<Error>, invoked: seq<SagaStep>)
    ensures invoked == CompensationTargets(steps, branches, |steps|)
    ensures err == CompensationOutcome(compensate, invoked)
  {
    invoked := [];
    var errs: seq<Error> := [];
    var i := |steps|;
    while i > 0
      invariant 0 <= i <= |steps|
      invariant CompensationTargets(steps, branches, |steps|) == invoked + CompensationTargets(steps, branches, i)
      invariant errs == CompensationErrors(compensate, invoked)
    {
      i := i - 1;
      var step := steps[i];
      var failed := FindFailed(branches, step.branchId);
      if failed {
        var e := compensate(step);
        assert (invoked + [step])[..|invoked|] == invoked;
        invoked := invoked + [step];
        if e.Some? {
          errs := errs + [CompensationFailedFor(step.branchId, e.value)];
        }
      }
    }
    if |errs| > 0 {
      err := Some(CompensationFailed(errs));
    } else {
      err := None;
    }
  }

  // ---------------------------------------------------------------------
  // The two Saga runs of SagaManager.

  /** What a Saga run did: its result, every request it sent, and the
      steps it compensated. */
  datatype SagaRun = SagaRun(err: Option<Error>, sent: seq<Request>, compensated: seq<SagaStep>)

  /** The part of a Saga run after registration: submit (the n-th
      request), wait, and, when `compensate` is given and the transaction
      aborts, compensate. */
  function AfterRegistration(respond: (nat, Request) -> Reply, gid: string, steps: seq<SagaStep>,
                             wakes: seq<Wake>, compensate: Option<SagaStep -> Option<Error>>, n: nat): SagaRun
  {
    var submitReq := TxRequest(ApiSubmit, gid);
    var submitted := CallResult(ApiSubmit, Answer(respond, n, submitReq));
    if submitted.Some? then SagaRun(Some(SubmitFailed(submitted.value)), [submitReq], [])
    else
      var poll := PollFrom(respond, gid, wakes, compensate.Some?, n + 1, 0);
      match poll.end
      case Finished(e) => SagaRun(e, [submitReq] + poll.sent, [])
      case Compensate(branches) =>
        var targets := CompensationTargets(steps, branches, |steps|);
        SagaRun(CompensationOutcome(compensate.value, targets), [submitReq] + poll.sent, targets)
  }

  /** The part of a Saga run after the start: register every step, the
      first registration being the n-th request, then go on as above. */
  function AfterStart(respond: (nat, Request) -> Reply, gid: string, steps: seq<SagaStep>,
                      wakes: seq<Wake>, compensate: Option<SagaStep -> Option<Error>>, n: nat): SagaRun
  {
    var reg := RegisterFrom(respond, gid, steps, n, 0);
    if reg.err.Some? then SagaRun(reg.err, reg.sent, [])
    else
      var rest := AfterRegistration(respond, gid, steps, wakes, compensate, n + |reg.sent|);
      SagaRun(rest.err, reg.sent + rest.sent, rest.compensated)
  }

  /** A whole Saga run whose first request is the base-th of the
      coordinator's log. */
  function SagaSpec(respond: (nat, Request) -> Reply, uuid: string, payload: seq<byte>, steps: seq<SagaStep>,
                    wakes: seq<Wake>, compensate: Option<SagaStep -> Option<Error>>, base: nat): SagaRun
  {
    var startReq := StartRequest(uuid, ModeSaga, payload);
    var started := StartResult(Answer(respond, base, startReq));
    if started.Err? then SagaRun(Some(StartFailed(ModeSaga, started.error)), [startReq], [])
    else
      var rest := AfterStart(respond, started.value, steps, wakes, compensate, base + 1);
      SagaRun(rest.err, [startReq] + rest.sent, rest.compensated)
  }

  /** A refused start sends nothing more. */
  lemma SagaStartRefused(respond: (nat, Request) -> Reply, uuid: string, payload: seq<byte>, steps: seq<SagaStep>,
                         wakes: seq<Wake>, compensate: Option<SagaStep -> Option<Error>>, base: nat)
    requires StartResult(Answer(respond, base, StartRequest(uuid, ModeSaga, payload))).Err?
    ensures var run := SagaSpec(respond, uuid, payload, steps, wakes, compensate, base);
      && run.err == Some(StartFailed(ModeSaga, StartResult(Answer(respond, base, StartRequest(uuid, ModeSaga, payload))).error))
      && run.sent == [StartRequest(uuid, ModeSaga, payload)]
      && run.compensated == []
  {
  }

  /** When the registration of step k is the first refused, the run
      registers steps 0..k, aborts once, never submits, and reports step k. */
  lemma SagaRegistrationRefused(respond: (nat, Request) -> Reply, uuid: string, payload: seq<byte>, steps: seq<SagaStep>,
                                wakes: seq<Wake>, compensate: Option<SagaStep -> Option<Error>>, base: nat, k: nat)
    requires StartResult(Answer(respond, base, StartRequest(uuid, ModeSaga, payload))).Ok?
    requires k < |steps|
    requires var gid := StartResult(Answer(respond, base, StartRequest(uuid, ModeSaga, payload))).value;
      var regBase := base + 1;
      && (forall j :: 0 <= j < k ==> RegisterAccepted(respond, gid, steps, regBase, j))
      && !RegisterAccepted(respond, gid, steps, regBase, k)
    ensures var gid := StartResult(Answer(respond, base, StartRequest(uuid, ModeSaga, payload))).value;
      var run := SagaSpec(respond, uuid, payload, steps, wakes, compensate, base);
      && run.sent == [StartRequest(uuid, ModeSaga, payload)] + AddRequests(gid, steps[..k + 1]) + [TxRequest(ApiAbort, gid)]
      && run.err.Some? && run.err.value.AddBranchFailed? && run.err.value.branchId == steps[k].branchId
      && (forall q :: 0 <= q < |run.sent| ==> run.sent[q].endpoint != ApiSubmit)
      && run.compensated == []
  {
    var gid := StartResult(Answer(respond, base, StartRequest(uuid, ModeSaga, payload))).value;
    RegisterFirstRefused(respond, gid, steps, base + 1, 0, k);
    assert steps[0..k + 1] == steps[..k + 1];
    AddRequestsEndpoints(gid, steps[..k + 1]);
    AppendAssoc([StartRequest(uuid, ModeSaga, payload)], AddRequests(gid, steps[..k + 1]), [TxRequest(ApiAbort, gid)]);
  }

  /** When every registration is accepted but the submit is refused, the
      run stops there: it never queries the transaction's status. */
  lemma SagaSubmitRefused(respond: (nat, Request) -> Reply, uuid: string, payload: seq<byte>, steps: seq<SagaStep>,
                          wakes: seq<Wake>, compensate: Option<SagaStep -> Option<Error>>, base: nat)
    requires StartResult(Answer(respond, base, StartRequest(uuid, ModeSaga, payload))).Ok?
    requires var gid := StartResult(Answer(respond, base, StartRequest(uuid, ModeSaga, payload))).value;
      var regBase := base + 1;
      && (forall j :: 0 <= j < |steps| ==> RegisterAccepted(respond, gid, steps, regBase, j))
      && !Accepted(Answer(respond, base + 1 + |steps|, TxRequest(ApiSubmit, gid)))
    ensures var gid := StartResult(Answer(respond, base, StartRequest(uuid, ModeSaga, payload))).value;
      var run := SagaSpec(respond, uuid, payload, steps, wakes, compensate, base);
      && run.sent == [StartRequest(uuid, ModeSaga, payload)] + AddRequests(gid, steps) + [TxRequest(ApiSubmit, gid)]
      && run.err.Some? && run.err.value.SubmitFailed?
      && (forall q :: 0 <= q < |run.sent| ==> run.sent[q].endpoint != ApiTx)
      && run.compensated == []
  {
    var gid := StartResult(Answer(respond, base, StartRequest(uuid, ModeSaga, payload))).value;
    RegisterAllAccepted(respond, gid, steps, base + 1, 0);
    assert steps[0..] == steps;
    AddRequestsEndpoints(gid, steps);
    AppendAssoc([StartRequest(uuid, ModeSaga, payload)], AddRequests(gid, steps), [TxRequest(ApiSubmit, gid)]);
  }

  /** The plain run never compensates, and it succeeds only once the
      coordinator has reported the transaction COMMITTED. */
  lemma SagaSuccessMeansCommitted(respond: (nat, Request) -> Reply, uuid: string, payload: seq<byte>, steps: seq<SagaStep>,
                                  wakes: seq<Wake>, base: nat)
    ensures var run := SagaSpec(respond, uuid, payload, steps, wakes, None, base);
      && run.compensated == []
      && (run.err.None? ==>
            var gid := StartResult(Answer(respond, base, StartRequest(uuid, ModeSaga, payload))).value;
            var pollBase := base + 2 + |steps|;
            exists t :: 0 <= t < |wakes| && PollInfo(respond, gid, pollBase, t).Ok?
                        && PollInfo(respond, gid, pollBase, t).value.status == StatusCommitted)
  {
    var run := SagaSpec(respond, uuid, payload, steps, wakes, None, base);
    var started := StartResult(Answer(respond, base, StartRequest(uuid, ModeSaga, payload)));
    if started.Ok? {
      var gid := started.value;
      var reg := RegisterFrom(respond, gid, steps, base + 1, 0);
      if reg.err.None? {
        RegisterNoneMeansAll(respond, gid, steps, base + 1, 0);
        AddRequestsEndpoints(gid, steps);
        PollEndMeans(respond, gid, wakes, false, base + 2 + |steps|, 0);
      }
    }
  }

  /** In the compensating run, once the start, every registration and the
      submit are accepted and the wait ends on an aborted transaction: the
      wait saw an ABORTED report after only SUBMITTED ones, the steps
      compensated are exactly those that report lists FAILED, last step
      first, and the run succeeds exactly when all their compensations
      succeed; otherwise it returns every compensation error gathered. */
  lemma SagaAbortedCompensation(respond: (nat, Request) -> Reply, uuid: string, payload: seq<byte>, steps: seq<SagaStep>,
                                wakes: seq<Wake>, compensate: SagaStep -> Option<Error>, base: nat)
    requires StartResult(Answer(respond, base, StartRequest(uuid, ModeSaga, payload))).Ok?
    requires var gid := StartResult(Answer(respond, base, StartRequest(uuid, ModeSaga, payload))).value;
      var regBase := base + 1;
      && (forall j :: 0 <= j < |steps| ==> RegisterAccepted(respond, gid, steps, regBase, j))
      && Accepted(Answer(respond, base + 1 + |steps|, TxRequest(ApiSubmit, gid)))
      && PollFrom(respond, gid, wakes, true, base + 2 + |steps|, 0).end.Compensate?
    ensures var gid := StartResult(Answer(respond, base, StartRequest(uuid, ModeSaga, payload))).value;
      var pollBase := base + 2 + |steps|;
      var run := SagaSpec(respond, uuid, payload, steps, wakes, Some(compensate), base);
      && run.sent == [StartRequest(uuid, ModeSaga, payload)] + AddRequests(gid, steps) + [TxRequest(ApiSubmit, gid)]
                     + PollFrom(respond, gid, wakes, true, pollBase, 0).sent
      && (exists t :: 0 <= t < |wakes| && PollInfo(respond, gid, pollBase, t).Ok?
            && (forall u :: 0 <= u < t ==> StillRunning(respond, gid, wakes, pollBase, u))
            && PollInfo(respond, gid, pollBase, t).value.status == StatusAborted
            && run.compensated == Reverse(FailedSteps(steps, PollInfo(respond, gid, pollBase, t).value.branches)))
      && (run.err.None? <==> forall k :: 0 <= k < |run.compensated| ==> compensate(run.compensated[k]).None?)
      && (run.err.Some? ==> run.err == Some(CompensationFailed(CompensationErrors(compensate, run.compensated))))
  {
    var gid := StartResult(Answer(respond, base, StartRequest(uuid, ModeSaga, payload))).value;
    AbortedAfterStart(respond, gid, steps, wakes, compensate, base + 1, base + 1 + |steps|, base + 2 + |steps|);
    var poll := PollFrom(respond, gid, wakes, true, base + 2 + |steps|, 0);
    var start := [StartRequest(uuid, ModeSaga, payload)];
    AppendAssoc(start, AddRequests(gid, steps), [TxRequest(ApiSubmit, gid)] + poll.sent);
    AppendAssoc(start + AddRequests(gid, steps), [TxRequest(ApiSubmit, gid)], poll.sent);
  }

  /** The same from the first registration on: the registrations, the
      submit (the n-th request) and the queries (from the pollBase-th on). */
  lemma AbortedAfterStart(respond: (nat, Request) -> Reply, gid: string, steps: seq<SagaStep>, wakes: seq<Wake>,
                          compensate: SagaStep -> Option<Error>, regBase: nat, n: nat, pollBase: nat)
    requires n == regBase + |steps| && pollBase == n + 1
    requires forall j :: 0 <= j < |steps| ==> RegisterAccepted(respond, gid, steps, regBase, j)
    requires Accepted(Answer(respond, n, TxRequest(ApiSubmit, gid)))
    requires PollFrom(respond, gid, wakes, true, pollBase, 0).end.Compensate?
    ensures var after := AfterStart(respond, gid, steps, wakes, Some(compensate), regBase);
      && after.sent == AddRequests(gid, steps) + ([TxRequest(ApiSubmit, gid)] + PollFrom(respond, gid, wakes, true, pollBase, 0).sent)
      && (exists t :: 0 <= t < |wakes| && PollInfo(respond, gid, pollBase, t).Ok?
            && (forall u :: 0 <= u < t ==> StillRunning(respond, gid, wakes, pollBase, u))
            && PollInfo(respond, gid, pollBase, t).value.status == StatusAborted
            && after.compensated == Reverse(FailedSteps(steps, PollInfo(respond, gid, pollBase, t).value.branches)))
      && (after.err.None? <==> forall k :: 0 <= k < |after.compensated| ==> compensate(after.compensated[k]).None?)
      && (after.err.Some? ==> after.err == Some(CompensationFailed(CompensationErrors(compensate, after.compensated))))
  {
    AfterStartRegistered(respond, gid, steps, wakes, Some(compensate), regBase, n);
    AbortedAfterRegistration(respond, gid, steps, wakes, compensate, n);
  }

  /** With every registration accepted, the part after the start sends the
      registrations and goes on with the submit as the n-th request. */
  lemma AfterStartRegistered(respond: (nat, Request) -> Reply, gid: string, steps: seq<SagaStep>, wakes: seq<Wake>,
                             compensate: Option<SagaStep -> Option<Error>>, regBase: nat, n: nat)
    requires n == regBase + |steps|
    requires forall j :: 0 <= j < |steps| ==> RegisterAccepted(respond, gid, steps, regBase, j)
    ensures var rest := AfterRegistration(respond, gid, steps, wakes, compensate, n);
      AfterStart(respond, gid, steps, wakes, compensate, regBase) == SagaRun(rest.err, AddRequests(gid, steps) + rest.sent, rest.compensated)
  {
    RegisterAllAccepted(respond, gid, steps, regBase, 0);
    assert steps[0..] == steps;
    AddRequestsEndpoints(gid, steps);
    var reg := RegisterFrom(respond, gid, steps, regBase, 0);
    assert n == regBase + |reg.sent|;
  }

  /** After an accepted submit (the n-th request), a wait that ends in
      compensation compensates the steps the ABORTED report lists FAILED. */
  lemma AbortedAfterRegistration(respond: (nat, Request) -> Reply, gid: string, steps: seq<SagaStep>, wakes: seq<Wake>,
                                 compensate: SagaStep -> Option<Error>, n: nat)
    requires Accepted(Answer(respond, n, TxRequest(ApiSubmit, gid)))
    requires PollFrom(respond, gid, wakes, true, n + 1, 0).end.Compensate?
    ensures var rest := AfterRegistration(respond, gid, steps, wakes, Some(compensate), n);
      var pollBase := n + 1;
      && rest.sent == [TxRequest(ApiSubmit, gid)] + PollFrom(respond, gid, wakes, true, pollBase, 0).sent
      && (exists t :: 0 <= t < |wakes| && PollInfo(respond, gid, pollBase, t).Ok?
            && (forall u :: 0 <= u < t ==> StillRunning(respond, gid, wakes, pollBase, u))
            && PollInfo(respond, gid, pollBase, t).value.status == StatusAborted
            && rest.compensated == Reverse(FailedSteps(steps, PollInfo(respond, gid, pollBase, t).value.branches)))
      && (rest.err.None? <==> forall k :: 0 <= k < |rest.compensated| ==> compensate(rest.compensated[k]).None?)
      && (rest.err.Some? ==> rest.err == Some(CompensationFailed(CompensationErrors(compensate, rest.compensated))))
  {
    var poll := PollFrom(respond, gid, wakes, true, n + 1, 0);
    PollEndMeans(respond, gid, wakes, true, n + 1, 0);
    CompensationTargetsReversed(steps, poll.end.branches, |steps|);
    assert steps[..|steps|] == steps;
  }

  /** Only that situation leads to compensation: a run that compensated
      anything had its start, registrations and submit accepted, and its
      wait ended on an aborted transaction. */
  lemma SagaCompensatesOnlyWhenAborted(respond: (nat, Request) -> Reply, uuid: string, payload: seq<byte>, steps: seq<SagaStep>,
                                       wakes: seq<Wake>, compensate: SagaStep -> Option<Error>, base: nat)
    ensures var run := SagaSpec(respond, uuid, payload, steps, wakes, Some(compensate), base);
      run.compensated != [] ==>
        && StartResult(Answer(respond, base, StartRequest(uuid, ModeSaga, payload))).Ok?
        && var gid := StartResult(Answer(respond, base, StartRequest(uuid, ModeSaga, payload))).value;
           var regBase := base + 1;
           && (forall j :: 0 <= j < |steps| ==> RegisterAccepted(respond, gid, steps, regBase, j))
           && Accepted(Answer(respond, base + 1 + |steps|, TxRequest(ApiSubmit, gid)))
           && PollFrom(respond, gid, wakes, true, base + 2 + |steps|, 0).end.Compensate?
  {
    var started := StartResult(Answer(respond, base, StartRequest(uuid, ModeSaga, payload)));
    if started.Ok? {
      var gid := started.value;
      var reg := RegisterFrom(respond, gid, steps, base + 1, 0);
      if reg.err.None? {
        RegisterNoneMeansAll(respond, gid, steps, base + 1, 0);
        AddRequestsEndpoints(gid, steps);
      }
    }
  }

  /** A registration that reports no error registered every step. */
  lemma {:induction false} RegisterNoneMeansAll(respond: (nat, Request) -> Reply, gid: string, steps: seq<SagaStep>, base: nat, i: nat)
    requires i <= |steps|
    requires RegisterFrom(respond, gid, steps, base, i).err.None?
    ensures forall k :: i <= k < |steps| ==> RegisterAccepted(respond, gid, steps, base, k)
    ensures RegisterFrom(respond, gid, steps, base, i).sent == AddRequests(gid, steps[i..])
    decreases |steps| - i
  {
    if i < |steps| {
      RegisterNoneMeansAll(respond, gid, steps, base, i + 1);
      assert steps[i..][1..] == steps[i + 1..];
    } else {
      assert steps[i..] == [];
    }
  }

  /** SagaManager: runs Saga workflows against one coordinator. */
  class SagaManager {
    const client: Coordinator

    constructor (client: Coordinator)
      ensures this.client == client
    {
      this.client := client;
    }

    /** ExecuteSaga; `uuid` is the id the client proposes for the new
        transaction and `wakes` which select case wakes each turn of the wait. */
    method ExecuteSaga(workflow: SagaWorkflow, payload: seq<byte>, uuid: string, wakes: seq<Wake>)
      returns (err: Option<Error>)
      modifies client
      ensures var run := SagaSpec(client.respond, uuid, payload, workflow.steps, wakes, None, |old(client.sent)|);
        client.sent == old(client.sent) + run.sent && err == run.err
    {
      var tx, e := StartTransaction(client, uuid, ModeSaga, payload);
      if e.Some? {
        return Some(StartFailed(ModeSaga, e.value));
      }
      ghost var mid := client.sent;
      var compensated;
      err, compensated := RunStarted(tx, workflow.steps, wakes, None);
      AppendAssoc(old(client.sent), mid[|old(client.sent)|..], client.sent[|mid|..]);
    }

    /** ExecuteSagaWithCompensation; also returns the steps it compensated. */
    method ExecuteSagaWithCompensation(workflow: SagaWorkflow, payload: seq<byte>, uuid: string, wakes: seq<Wake>,
                                       compensate: SagaStep -> Option<Error>)
      returns (err: Option<Error>, compensated: seq<SagaStep>)
      modifies client
      ensures var run := SagaSpec(client.respond, uuid, payload, workflow.steps, wakes, Some(compensate), |old(client.sent)|);
        client.sent == old(client.sent) + run.sent && err == run.err && compensated == run.compensated
    {
      var tx, e := StartTransaction(client, uuid, ModeSaga, payload);
      if e.Some? {
        return Some(StartFailed(ModeSaga, e.value)), [];
      }
      ghost var mid := client.sent;
      err, compensated := RunStarted(tx, workflow.steps, wakes, Some(compensate));
      AppendAssoc(old(client.sent), mid[|old(client.sent)|..], client.sent[|mid|..]);
    }
  }

  /** What both runs do once the transaction is started: register the
      steps, aborting on the first refusal, then finish. */
  method RunStarted(tx: Transaction, steps: seq<SagaStep>, wakes: seq<Wake>, compensate: Option<SagaStep -> Option<Error>>)
    returns (err: Option<Error>, compensated: seq<SagaStep>)
    modifies tx, tx.client
    ensures var run := AfterStart(tx.client.respond, tx.gid, steps, wakes, compensate, |old(tx.client.sent)|);
      tx.client.sent == old(tx.client.sent) + run.sent && err == run.err && compensated == run.compensated
  {
    ghost var respond := tx.client.respond;
    ghost var reg := RegisterFrom(respond, tx.gid, steps, |old(tx.client.sent)|, 0);
    var e := RegisterBranches(tx, steps);
    if e.Some? {
      return e, [];
    }
    ghost var rest := AfterRegistration(respond, tx.gid, steps, wakes, compensate, |old(tx.client.sent)| + |reg.sent|);
    assert |tx.client.sent| == |old(tx.client.sent)| + |reg.sent|;
    err, compensated := FinishSaga(tx, steps, wakes, compensate);
    AppendAssoc(old(tx.client.sent), reg.sent, rest.sent);
  }
  /** Submit, then waitForCompletion (no `compensate`) or
      executeWithCompensation followed by executeCompensation. */
  method FinishSaga(tx: Transaction, steps: seq<SagaStep>, wakes: seq<Wake>, compensate: Option<SagaStep -> Option<Error>>)
    returns (err: Option<Error>, compensated: seq<SagaStep>)
    modifies tx.client
    ensures var run := AfterRegistration(tx.client.respond, tx.gid, steps, wakes, compensate, |old(tx.client.sent)|);
      tx.client.sent == old(tx.client.sent) + run.sent && err == run.err && compensated == run.compensated
  {
    compensated := [];
    var sub := tx.Submit();
    if sub.Some? {
      return Some(SubmitFailed(sub.value)), compensated;
    }
    ghost var mid := tx.client.sent;
    var end := Poll(tx, wakes, compensate.Some?);
    AppendAssoc(old(tx.client.sent), mid[|old(tx.client.sent)|..], tx.client.sent[|mid|..]);
    if end.Finished? {
      return end.err, compensated;
    }
    err, compensated := ExecuteCompensation(steps, end.branches, compensate.value);
  }
}
