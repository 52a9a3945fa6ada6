// Driving a backend from the running configuration to the candidate, and back
// on a failure (control_link_bringup/src/reconfiguration_transaction.cpp).
module ReconfigurationTransaction {
  import opened Common
  import opened ReconfigurationBackend
  import R = Reconfiguration

  datatype Status = NoOp | Rejected | Committed | RolledBack | RollbackFailed

  datatype StepRecord = StepRecord(step: Step, success: bool)

  // Of the result, what says what happened; times, texts and the candidate's
  // components are left out.
  datatype TransactionResult = TransactionResult(
    status: Status,
    steps: seq<StepRecord>,
    failedStep: Option<Step>,
    rollbackFailedStep: Option<Step>,
    rollbackAttempted: bool,
    rollbackSucceeded: bool,
    finalHash: string)

  // What the transaction reads of the plan. Both bundles are present unless a
  // pointer is null.
  datatype Request = Request(
    transactionId: string,
    bundlesPresent: bool,
    classification: R.ChangeClass,
    oldHash: string,
    requestedHash: string)

  function RequestOf(transactionId: string, plan: R.Plan): Request {
    Request(transactionId, true, plan.diff.classification, plan.diff.current.decisionHash,
            plan.diff.candidate.decisionHash)
  }

  const FORWARD: seq<Step> :=
    [DeactivateCurrent, CleanupCurrent, SetCandidateConfig, ConfigureCandidate, VerifyCandidate, ActivateCandidate,
     CommitCandidate]

  const ROLLBACK: seq<Step> :=
    [CleanupCandidate, RestorePreviousConfig, ConfigurePrevious, VerifyPrevious, ActivatePrevious]

  // --------------------------------------------------- as functions

  // The hash that has to be read back after a step.
  function HashAfter(q: Request, step: Step): Option<string> {
    match step
    case VerifyCandidate => Some(q.requestedHash)
    case ActivateCandidate => Some(q.requestedHash)
    case VerifyPrevious => Some(q.oldHash)
    case ActivatePrevious => Some(q.oldHash)
    case _ => None
  }

  function RequireHash(replies: nat -> Reply, w: World, expected: string): (bool, World) {
    var (hash, next) := CurrentHash(replies, w);
    (hash == Some(expected), next)
  }

  // A step of either path: the operation, and the hash check that goes with it.
  function RunStep(t: Target, replies: nat -> Reply, q: Request, w: World, step: Step): (bool, World) {
    var (ok, next) := Operate(t, replies, w, step);
    if !ok || HashAfter(q, step).None? then (ok, next) else RequireHash(replies, next, HashAfter(q, step).value)
  }

  // The steps from position i on, up to the first that fails.
  datatype PathOutcome = PathOutcome(records: seq<StepRecord>, failed: Option<Step>, world: World)

  function RunPath(t: Target, replies: nat -> Reply, q: Request, path: seq<Step>, w: World): PathOutcome {
    if path == [] then PathOutcome([], None, w)
    else
      var (ok, next) := RunStep(t, replies, q, w, path[0]);
      if !ok then PathOutcome([StepRecord(path[0], false)], Some(path[0]), next)
      else
        var rest := RunPath(t, replies, q, path[1..], next);
        rest.(records := [StepRecord(path[0], true)] + rest.records)
  }

  predicate PlanAllowed(q: Request) {
    q.bundlesPresent && (q.classification.IdentityOnly? || q.classification.EndpointRebuildRequired?)
  }

  function RunPrecheck(replies: nat -> Reply, q: Request, w: World): (bool, World) {
    if !PlanAllowed(q) then (false, w) else RequireHash(replies, w, q.oldHash)
  }

  const EMPTY := TransactionResult(Rejected, [], None, None, false, false, "")

  function FinalHash(replies: nat -> Reply, w: World): (string, World) {
    var (hash, next) := CurrentHash(replies, w);
    (if hash.Some? then hash.value else "", next)
  }

  // After a failed forward step.
  function Recover(t: Target, replies: nat -> Reply, q: Request, forward: PathOutcome): (TransactionResult, World)
    requires forward.failed.Some?
  {
    var back := RunPath(t, replies, q, ROLLBACK, forward.world);
    var steps := [StepRecord(Precheck, true)] + forward.records + back.records;
    if back.failed.None? then
      (TransactionResult(RolledBack, steps, forward.failed, None, true, true, q.oldHash), back.world)
    else
      var (hash, last) := FinalHash(replies, back.world);
      (TransactionResult(RollbackFailed, steps, forward.failed, back.failed, true, false, hash), last)
  }

  function Execute(t: Target, replies: nat -> Reply, q: Request, w: World): (TransactionResult, World) {
    if q.transactionId == "" then (EMPTY, w)
    else
      var (ok, checked) := RunPrecheck(replies, q, w);
      if !ok then (EMPTY.(steps := [StepRecord(Precheck, false)], failedStep := Some(Precheck)), checked)
      else if q.classification.IdentityOnly? then
        (EMPTY.(status := NoOp, steps := [StepRecord(Precheck, true)], finalHash := q.oldHash), checked)
      else
        var forward := RunPath(t, replies, q, FORWARD, checked);
        if forward.failed.None? then
          (EMPTY.(status := Committed, steps := [StepRecord(Precheck, true)] + forward.records,
                  finalHash := q.requestedHash), forward.world)
        else Recover(t, replies, q, forward)
  }

  // --------------------------------------------------- as it is carried out

  class Transaction {
    const request: Request
    const backend: Backend
    var steps: seq<StepRecord>

    constructor (request: Request, backend: Backend)
      ensures this.request == request && this.backend == backend && steps == []
    {
      this.request, this.backend := request, backend;
      steps := [];
    }

    method CheckHash(expected: string) returns (ok: bool)
      modifies backend
      ensures (ok, backend.State()) == RequireHash(backend.replies, old(backend.State()), expected)
    {
      var hash := backend.CurrentDecisionConfigHash();
      return hash == Some(expected);
    }

    method CallBackend(step: Step) returns (ok: bool)
      requires step != Precheck
      modifies backend
      ensures (ok, backend.State()) == Operate(backend.target, backend.replies, old(backend.State()), step)
    {
      match step {
        case DeactivateCurrent => ok := backend.DeactivateCurrentGateway();
        case CleanupCurrent => ok := backend.CleanupCurrentGateway();
        case SetCandidateConfig => ok := backend.SetCandidate();
        case ConfigureCandidate => ok := backend.Configure(step);
        case VerifyCandidate => ok := backend.Verify(step);
        case ActivateCandidate => ok := backend.Activate(step);
        case CommitCandidate => ok := backend.Commit();
        case CleanupCandidate => ok := backend.CleanupPartialCandidate();
        case RestorePreviousConfig => ok := backend.Restore();
        case ConfigurePrevious => ok := backend.Configure(step);
        case VerifyPrevious => ok := backend.Verify(step);
        case ActivatePrevious => ok := backend.Activate(step);
      }
    }

    // Records the step whether or not it succeeds.
    method Run(step: Step) returns (ok: bool)
      requires step != Precheck
      modifies this, backend
      ensures (ok, backend.State()) == RunStep(backend.target, backend.replies, request, old(backend.State()), step)
      ensures steps == old(steps) + [StepRecord(step, ok)]
    {
      ok := CallBackend(step);
      var expected := HashAfter(request, step);
      if ok && expected.Some? {
        ok := CheckHash(expected.value);
      }
      steps := steps + [StepRecord(step, ok)];
    }

    // The steps of one try block, one after the other: the first that fails, if
    // any.
    method DrivePath(path: seq<Step>) returns (failedStep: Option<Step>)
      requires Precheck !in path
      modifies this, backend
      ensures var r := RunPath(backend.target, backend.replies, request, path, old(backend.State()));
              failedStep == r.failed && backend.State() == r.world && steps == old(steps) + r.records
    {
      ghost var start := backend.State();
      ghost var done: seq<StepRecord> := [];
      Departed(backend.target, backend.replies, request, path, start);
      for i := 0 to |path|
        invariant steps == old(steps) + done
        invariant Reached(backend.target, backend.replies, request, path, i, start, backend.State(), done)
      {
        Advance(backend.target, backend.replies, request, path, i, start, backend.State(), done);
        var ok := Run(path[i]);
        done := done + [StepRecord(path[i], ok)];
        if !ok {
          return Some(path[i]);
        }
      }
      Arrived(backend.target, backend.replies, request, path, start, backend.State(), done);
      return None;
    }

    method PrecheckStep() returns (ok: bool)
      modifies this, backend
      ensures (ok, backend.State()) == RunPrecheck(backend.replies, request, old(backend.State()))
      ensures steps == old(steps) + [StepRecord(Precheck, ok)]
    {
      ok := PlanAllowed(request);
      if ok {
        ok := CheckHash(request.oldHash);
      }
      steps := steps + [StepRecord(Precheck, ok)];
    }

    method ExecuteReconfiguration() returns (r: TransactionResult)
      requires steps == []
      modifies this, backend
      ensures (r, backend.State()) == Execute(backend.target, backend.replies, request, old(backend.State()))
    {
      if request.transactionId == "" {
        return EMPTY;
      }
      var ok := PrecheckStep();
      assert steps == [StepRecord(Precheck, ok)];
      if !ok {
        return EMPTY.(steps := steps, failedStep := Some(Precheck));
      }
      if request.classification.IdentityOnly? {
        return EMPTY.(status := NoOp, steps := steps, finalHash := request.oldHash);
      }
      var failed := DrivePath(FORWARD);
      if failed.None? {
        return EMPTY.(status := Committed, steps := steps, finalHash := request.requestedHash);
      }
      var rollbackFailed := DrivePath(ROLLBACK);
      if rollbackFailed.None? {
        return TransactionResult(RolledBack, steps, failed, None, true, true, request.oldHash);
      }
      var hash := backend.CurrentDecisionConfigHash();
      return TransactionResult(RollbackFailed, steps, failed, rollbackFailed, true, false,
                               if hash.Some? then hash.value else "");
    }
  }

  // The first i steps of a path went well and led from `start` to `w`.
  ghost predicate Reached(t: Target, replies: nat -> Reply, q: Request, path: seq<Step>, i: nat, start: World, w: World,
                          done: seq<StepRecord>)
    requires i <= |path|
  {
    var rest := RunPath(t, replies, q, path[i..], w);
    RunPath(t, replies, q, path, start) == rest.(records := done + rest.records)
  }

  lemma Departed(t: Target, replies: nat -> Reply, q: Request, path: seq<Step>, start: World)
    ensures Reached(t, replies, q, path, 0, start, start, [])
  {
    assert path[0..] == path;
    var rest := RunPath(t, replies, q, path, start);
    assert [] + rest.records == rest.records;
  }

  lemma Advance(t: Target, replies: nat -> Reply, q: Request, path: seq<Step>, i: nat, start: World, w: World,
                done: seq<StepRecord>)
    requires i < |path| && Reached(t, replies, q, path, i, start, w, done)
    ensures var (ok, next) := RunStep(t, replies, q, w, path[i]);
            && (ok ==> Reached(t, replies, q, path, i + 1, start, next, done + [StepRecord(path[i], true)]))
            && (!ok ==> RunPath(t, replies, q, path, start) ==
                        PathOutcome(done + [StepRecord(path[i], false)], Some(path[i]), next))
  {
    assert path[i..][0] == path[i] && path[i..][1..] == path[i + 1..];
    var rest := RunPath(t, replies, q, path[i..], w);
    assert RunPath(t, replies, q, path, start) == rest.(records := done + rest.records);
    var (ok, next) := RunStep(t, replies, q, w, path[i]);
    if ok {
      var after := RunPath(t, replies, q, path[i + 1..], next);
      assert done + ([StepRecord(path[i], true)] + after.records) == done + [StepRecord(path[i], true)] + after.records;
    }
  }

  lemma Arrived(t: Target, replies: nat -> Reply, q: Request, path: seq<Step>, start: World, w: World,
                done: seq<StepRecord>)
    requires Reached(t, replies, q, path, |path|, start, w, done)
    ensures RunPath(t, replies, q, path, start) == PathOutcome(done, None, w)
  {
    assert path[|path|..] == [];
  }

  // ------------------------------------------------------------ the log

  // The records of a path that stopped at `failed`, or did not stop: one for
  // each step in order, all successful but the one that failed.
  predicate IsLogOf(path: seq<Step>, records: seq<StepRecord>, failed: Option<Step>) {
    && |records| <= |path|
    && (forall i :: 0 <= i < |records| ==> records[i].step == path[i])
    && (forall i :: 0 <= i < |records| ==>
          (records[i].success <==> failed.None? || i < |records| - 1))
    && (failed.None? ==> |records| == |path|)
    && (failed.Some? ==> records != [] && records[|records| - 1].step == failed.value)
  }

  // The calls a path makes when nothing fails.
  function CallsOf(q: Request, path: seq<Step>): seq<Call> {
    if path == [] then []
    else
      CallsOfStep(q, path[0]) + CallsOf(q, path[1..])
  }

  // The calls of one step that succeeds.
  function CallsOfStep(q: Request, step: Step): seq<Call> {
    [Perform(step)] + (if HashAfter(q, step).Some? then [ReadHash] else [])
  }

  lemma StepCalls(t: Target, replies: nat -> Reply, q: Request, w: World, step: Step)
    ensures var (ok, next) := RunStep(t, replies, q, w, step);
            next.count > w.count && (ok ==> next.calls == w.calls + CallsOfStep(q, step))
  {
    assert w.calls + [Perform(step)] + [ReadHash] == w.calls + ([Perform(step)] + [ReadHash]);
  }

  lemma {:induction false} PathCalls(t: Target, replies: nat -> Reply, q: Request, path: seq<Step>, w: World)
    ensures var r := RunPath(t, replies, q, path, w);
            r.world.count >= w.count && (r.failed.None? ==> r.world.calls == w.calls + CallsOf(q, path))
  {
    if path != [] {
      StepCalls(t, replies, q, w, path[0]);
      var (ok, next) := RunStep(t, replies, q, w, path[0]);
      if ok {
        PathCalls(t, replies, q, path[1..], next);
        assert w.calls + CallsOfStep(q, path[0]) + CallsOf(q, path[1..]) ==
               w.calls + (CallsOfStep(q, path[0]) + CallsOf(q, path[1..]));
      }
    }
  }

  lemma {:induction false} PathIsLogged(t: Target, replies: nat -> Reply, q: Request, path: seq<Step>, w: World)
    ensures var r := RunPath(t, replies, q, path, w); IsLogOf(path, r.records, r.failed)
  {
    if path != [] {
      var (ok, next) := RunStep(t, replies, q, w, path[0]);
      if ok {
        PathIsLogged(t, replies, q, path[1..], next);
        var rest := RunPath(t, replies, q, path[1..], next);
        LogGrows(path, rest.records, rest.failed);
      }
    }
  }

  lemma LogGrows(path: seq<Step>, records: seq<StepRecord>, failed: Option<Step>)
    requires path != [] && IsLogOf(path[1..], records, failed)
    ensures IsLogOf(path, [StepRecord(path[0], true)] + records, failed)
  {
  }

  // The log of a run is the precheck, then a prefix of the forward path and,
  // after a failure on it, a prefix of the rollback path.
  lemma LogIsPrefix(t: Target, replies: nat -> Reply, q: Request, w: World)
    ensures var r := Execute(t, replies, q, w).0;
            && (r.status.Rejected? ==> r.steps == [] || r.steps == [StepRecord(Precheck, false)])
            && (r.status.NoOp? ==> r.steps == [StepRecord(Precheck, true)])
            && (r.status.Committed? ==>
                  exists forward :: IsLogOf(FORWARD, forward, None) && r.steps == [StepRecord(Precheck, true)] + forward)
            && (r.status.RolledBack? || r.status.RollbackFailed? ==>
                  exists forward, back ::
                    && IsLogOf(FORWARD, forward, r.failedStep) && r.failedStep.Some?
                    && IsLogOf(ROLLBACK, back, r.rollbackFailedStep)
                    && r.steps == [StepRecord(Precheck, true)] + forward + back
                    && (r.status.RolledBack? <==> r.rollbackFailedStep.None?))
  {
    var checked := RunPrecheck(replies, q, w).1;
    var forward := RunPath(t, replies, q, FORWARD, checked);
    PathIsLogged(t, replies, q, FORWARD, checked);
    PathIsLogged(t, replies, q, ROLLBACK, forward.world);
  }

  // The status of a run that was not rolled back says exactly which calls were
  // made.
  lemma StatusTellsCalls(t: Target, replies: nat -> Reply, q: Request, w: World)
    ensures var (r, last) := Execute(t, replies, q, w);
            && (r.status.Rejected? ==>
                  last.calls == w.calls + if q.transactionId != "" && PlanAllowed(q) then [ReadHash] else [])
            && (r.status.NoOp? ==> last.calls == w.calls + [ReadHash])
            && (r.status.Committed? ==> last.calls == w.calls + [ReadHash] + CallsOf(q, FORWARD))
  {
    PathCalls(t, replies, q, FORWARD, RunPrecheck(replies, q, w).1);
  }

  // --------------------------------------------- where the gateway ends up

  lemma Unfold(t: Target, replies: nat -> Reply, q: Request, path: seq<Step>, i: nat, w: World)
    requires i < |path|
    ensures var (ok, next) := RunStep(t, replies, q, w, path[i]);
            var r := RunPath(t, replies, q, path[i..], w);
            && (!ok ==> r.failed == Some(path[i]) && r.world == next)
            && (ok ==> r.failed == RunPath(t, replies, q, path[i + 1..], next).failed
                       && r.world == RunPath(t, replies, q, path[i + 1..], next).world)
  {
    assert path[i..][0] == path[i] && path[i..][1..] == path[i + 1..];
  }

  // What a step that succeeds has done to the gateway.
  lemma StepEffect(t: Target, replies: nat -> Reply, q: Request, w: World, step: Step)
    requires RunStep(t, replies, q, w, step).0
    ensures var next := RunStep(t, replies, q, w, step).1;
            && Effect(t, w.gateway, step, replies(w.count).reported) == (true, next.gateway)
            && (HashAfter(q, step).Some? ==> next.gateway.reported == HashAfter(q, step).value)
            && next.count > w.count
  {
  }

  // What is known of the gateway before step i of the forward path.
  predicate ForwardAt(t: Target, q: Request, i: nat, g: Gateway) {
    && (i == 1 ==> g.lifecycle.Inactive?)
    && (i == 2 || i == 3 ==> g.lifecycle.Unconfigured?)
    && (i >= 3 ==> g.parameters == t.candidate)
    && (i == 4 || i == 5 ==> g.lifecycle.Inactive?)
    && (i >= 5 ==> g.reported == q.requestedHash)
    && (i >= 6 ==> g.lifecycle.Active?)
  }

  lemma ForwardStep(t: Target, replies: nat -> Reply, q: Request, i: nat, w: World)
    requires i < |FORWARD| && ForwardAt(t, q, i, w.gateway) && RunStep(t, replies, q, w, FORWARD[i]).0
    ensures ForwardAt(t, q, i + 1, RunStep(t, replies, q, w, FORWARD[i]).1.gateway)
  {
    StepEffect(t, replies, q, w, FORWARD[i]);
  }

  lemma {:induction false} ForwardFrom(t: Target, replies: nat -> Reply, q: Request, i: nat, w: World)
    requires i <= |FORWARD| && ForwardAt(t, q, i, w.gateway)
    requires RunPath(t, replies, q, FORWARD[i..], w).failed.None?
    ensures ForwardAt(t, q, |FORWARD|, RunPath(t, replies, q, FORWARD[i..], w).world.gateway)
    decreases |FORWARD| - i
  {
    if i < |FORWARD| {
      Unfold(t, replies, q, FORWARD, i, w);
      ForwardStep(t, replies, q, i, w);
      ForwardFrom(t, replies, q, i + 1, RunStep(t, replies, q, w, FORWARD[i]).1);
    }
  }

  // A committed gateway is active on the candidate's parameters and reports the
  // requested hash.
  lemma CommittedRunsCandidate(t: Target, replies: nat -> Reply, q: Request, w: World)
    requires RunPath(t, replies, q, FORWARD, w).failed.None?
    ensures RunPath(t, replies, q, FORWARD, w).world.gateway == Gateway(Active, t.candidate, q.requestedHash)
  {
    assert FORWARD[0..] == FORWARD;
    ForwardFrom(t, replies, q, 0, w);
  }

  // The same for the rollback path.
  predicate RollbackAt(t: Target, q: Request, i: nat, g: Gateway) {
    && (i == 1 || i == 2 ==> g.lifecycle.Unconfigured?)
    && (i >= 2 ==> g.parameters == Restored(t))
    && (i == 3 || i == 4 ==> g.lifecycle.Inactive?)
    && (i >= 4 ==> g.reported == q.oldHash)
    && (i >= 5 ==> g.lifecycle.Active?)
  }

  lemma RollbackStep(t: Target, replies: nat -> Reply, q: Request, i: nat, w: World)
    requires i < |ROLLBACK| && RollbackAt(t, q, i, w.gateway) && RunStep(t, replies, q, w, ROLLBACK[i]).0
    ensures RollbackAt(t, q, i + 1, RunStep(t, replies, q, w, ROLLBACK[i]).1.gateway)
  {
    StepEffect(t, replies, q, w, ROLLBACK[i]);
  }

  lemma {:induction false} RollbackFrom(t: Target, replies: nat -> Reply, q: Request, i: nat, w: World)
    requires i <= |ROLLBACK| && RollbackAt(t, q, i, w.gateway)
    requires RunPath(t, replies, q, ROLLBACK[i..], w).failed.None?
    ensures RollbackAt(t, q, |ROLLBACK|, RunPath(t, replies, q, ROLLBACK[i..], w).world.gateway)
    decreases |ROLLBACK| - i
  {
    if i < |ROLLBACK| {
      Unfold(t, replies, q, ROLLBACK, i, w);
      RollbackStep(t, replies, q, i, w);
      RollbackFrom(t, replies, q, i + 1, RunStep(t, replies, q, w, ROLLBACK[i]).1);
    }
  }

  // A gateway that was rolled back is active on the previous parameters and
  // reports the old hash, however many calls failed before.
  lemma RolledBackRunsPrevious(t: Target, replies: nat -> Reply, q: Request, w: World)
    requires RunPath(t, replies, q, ROLLBACK, w).failed.None?
    ensures RunPath(t, replies, q, ROLLBACK, w).world.gateway == Gateway(Active, Restored(t), q.oldHash)
  {
    assert ROLLBACK[0..] == ROLLBACK;
    RollbackFrom(t, replies, q, 0, w);
  }

  ghost predicate NoFailureFrom(replies: nat -> Reply, n: nat) {
    forall k: nat :: k >= n ==> !replies(k).fails
  }

  lemma StepSucceeds(t: Target, replies: nat -> Reply, q: Request, i: nat, w: World)
    requires NoFailureFrom(replies, w.count) && t.previousHash == q.oldHash
    requires i < |ROLLBACK| && RollbackAt(t, q, i, w.gateway) && (i == 0 ==> !w.gateway.lifecycle.Other?)
    ensures RunStep(t, replies, q, w, ROLLBACK[i]).0
  {
    assert !replies(w.count).fails && !replies(w.count + 1).fails;
  }

  lemma {:induction false} RollbackSucceeds(t: Target, replies: nat -> Reply, q: Request, i: nat, w: World)
    requires NoFailureFrom(replies, w.count) && t.previousHash == q.oldHash
    requires i <= |ROLLBACK| && RollbackAt(t, q, i, w.gateway) && (i == 0 ==> !w.gateway.lifecycle.Other?)
    ensures RunPath(t, replies, q, ROLLBACK[i..], w).failed.None?
    decreases |ROLLBACK| - i
  {
    if i < |ROLLBACK| {
      StepSucceeds(t, replies, q, i, w);
      Unfold(t, replies, q, ROLLBACK, i, w);
      RollbackStep(t, replies, q, i, w);
      StepEffect(t, replies, q, w, ROLLBACK[i]);
      RollbackSucceeds(t, replies, q, i + 1, RunStep(t, replies, q, w, ROLLBACK[i]).1);
    }
  }

  // Without failing calls the rollback succeeds from every state the cleanup
  // can take down, and stops at the cleanup otherwise.
  lemma RollbackExactly(t: Target, replies: nat -> Reply, q: Request, w: World)
    requires NoFailureFrom(replies, w.count) && t.previousHash == q.oldHash
    ensures var r := RunPath(t, replies, q, ROLLBACK, w);
            && (r.failed.None? <==> !w.gateway.lifecycle.Other?)
            && (w.gateway.lifecycle.Other? ==> r.failed == Some(CleanupCandidate) && r.world.gateway == w.gateway)
            && r.world.count >= w.count
  {
    assert ROLLBACK[0..] == ROLLBACK;
    PathCalls(t, replies, q, ROLLBACK, w);
    if w.gateway.lifecycle.Other? {
      assert !replies(w.count).fails;
      Unfold(t, replies, q, ROLLBACK, 0, w);
    } else {
      RollbackSucceeds(t, replies, q, 0, w);
    }
  }

  // A run in which a forward step fails and no later call does: it ends rolled
  // back, with the gateway active on the previous parameters, exactly when the
  // failure leaves the gateway in a primary state; otherwise the rollback stops
  // at its first step and leaves the gateway as it is.
  lemma SingleFaultRecovery(t: Target, replies: nat -> Reply, q: Request, w: World)
    requires q.transactionId != "" && q.classification.EndpointRebuildRequired? && RunPrecheck(replies, q, w).0
    requires t.previousHash == q.oldHash
    requires var forward := RunPath(t, replies, q, FORWARD, RunPrecheck(replies, q, w).1);
             forward.failed.Some? && NoFailureFrom(replies, forward.world.count)
    ensures var left := RunPath(t, replies, q, FORWARD, RunPrecheck(replies, q, w).1).world.gateway;
            var (r, last) := Execute(t, replies, q, w);
            && (r.status.RolledBack? <==> !left.lifecycle.Other?)
            && (!left.lifecycle.Other? ==> last.gateway == Gateway(Active, Restored(t), q.oldHash))
            && (left.lifecycle.Other? ==>
                  r.status.RollbackFailed? && r.rollbackFailedStep == Some(CleanupCandidate) && last.gateway == left)
  {
    var forward := RunPath(t, replies, q, FORWARD, RunPrecheck(replies, q, w).1);
    RollbackExactly(t, replies, q, forward.world);
    if !forward.world.gateway.lifecycle.Other? {
      RolledBackRunsPrevious(t, replies, q, forward.world);
    }
  }

  // What the status promises in every run, whatever failed.
  lemma StatusIsTrue(t: Target, replies: nat -> Reply, q: Request, w: World)
    ensures var (r, last) := Execute(t, replies, q, w);
            && (r.status.Committed? ==> last.gateway == Gateway(Active, t.candidate, q.requestedHash))
            && (r.status.RolledBack? ==>
                  last.gateway == Gateway(Active, t.previous.(tracePath := t.rollbackTracePath), q.oldHash))
            && (r.status.NoOp? ==> last.gateway == w.gateway && w.gateway.reported == q.oldHash)
            && (r.status.Rejected? && !replies(w.count).fails ==> last.gateway == w.gateway)
            && (r.status.Committed? || r.status.RolledBack? || r.status.NoOp? ==> r.finalHash == last.gateway.reported)
            && (r.status.RollbackFailed? ==>
                  && last.count > 0
                  && r.finalHash == if replies(last.count - 1).fails then "" else last.gateway.reported)
            && (r.status.Rejected? ==> r.finalHash == "")
  {
    var checked := RunPrecheck(replies, q, w).1;
    var forward := RunPath(t, replies, q, FORWARD, checked);
    if forward.failed.None? {
      CommittedRunsCandidate(t, replies, q, checked);
    } else if RunPath(t, replies, q, ROLLBACK, forward.world).failed.None? {
      RolledBackRunsPrevious(t, replies, q, forward.world);
    }
  }

  // ------------------------------------------------------ from a plan

  // The diff names the identities of the plan's two bundles.
  predicate OwnIdentities(plan: R.Plan) {
    plan.diff.current == plan.current.identity && plan.diff.candidate == plan.candidate.identity
  }

  // Every plan that is built is of this kind.
  lemma PlansNameBundles(plan: R.Plan)
    requires R.IsPlan(plan)
    ensures OwnIdentities(plan)
  {
    R.DiffMadeExactly(plan.current, plan.candidate);
    R.DiffNames(R.FootprintOf(plan.current), R.FootprintOf(plan.candidate));
  }

  // The backend is built from the two identities of the diff.
  function TargetOf(plan: R.Plan, previous: Parameters, candidate: Parameters, rollbackTracePath: string): Target {
    Target(previous, candidate, rollbackTracePath, plan.diff.current.decisionHash, plan.diff.candidate.decisionHash)
  }

  // A plan that may not be carried out is rejected without a call, and nothing
  // but an identical one is a no-op.
  lemma ClassDecides(t: Target, replies: nat -> Reply, q: Request, w: World)
    ensures var (r, last) := Execute(t, replies, q, w);
            && (!PlanAllowed(q) ==> r.status.Rejected? && last == w)
            && (r.status.NoOp? ==> q.classification.IdentityOnly?)
  {
  }

  // A plan that is carried out leaves the gateway reporting the hash of one of
  // its two bundles, and active on the parameters that go with it; and a plan
  // that is incompatible or needs a profile restart is rejected without a call.
  lemma PlanIsCarriedOut(plan: R.Plan, t: Target, replies: nat -> Reply, q: Request, w: World)
    requires OwnIdentities(plan) && t == TargetOf(plan, t.previous, t.candidate, t.rollbackTracePath)
    requires q == RequestOf(q.transactionId, plan)
    ensures var (r, last) := Execute(t, replies, q, w);
            && (r.status.Committed? ==>
                  last.gateway == Gateway(Active, t.candidate, plan.candidate.identity.decisionHash))
            && (r.status.RolledBack? ==>
                  last.gateway == Gateway(Active, Restored(t), plan.current.identity.decisionHash))
            && (r.status.NoOp? ==> plan.diff.classification.IdentityOnly? && last.gateway == w.gateway
                                   && last.gateway.reported == plan.current.identity.decisionHash)
            && (plan.diff.classification.Incompatible? || plan.diff.classification.ProfileRestartRequired? ==>
                  r.status.Rejected? && last == w)
  {
    StatusIsTrue(t, replies, q, w);
    ClassDecides(t, replies, q, w);
  }

  // And it recovers from a single fault that leaves a primary state.
  lemma PlanRecovers(plan: R.Plan, t: Target, replies: nat -> Reply, q: Request, w: World)
    requires OwnIdentities(plan) && t == TargetOf(plan, t.previous, t.candidate, t.rollbackTracePath)
    requires q == RequestOf(q.transactionId, plan) && q.transactionId != ""
    requires plan.diff.classification.EndpointRebuildRequired? && RunPrecheck(replies, q, w).0
    requires var forward := RunPath(t, replies, q, FORWARD, RunPrecheck(replies, q, w).1);
             && forward.failed.Some? && NoFailureFrom(replies, forward.world.count)
             && !forward.world.gateway.lifecycle.Other?
    ensures var (r, last) := Execute(t, replies, q, w);
            r.status.RolledBack? && last.gateway == Gateway(Active, Restored(t), plan.current.identity.decisionHash)
  {
    SingleFaultRecovery(t, replies, q, w);
  }
}
