// The steps and the calls of a reconfiguration written out, and exactly when
// it commits and when it rolls back
// (control_link_bringup/src/reconfiguration_transaction.cpp).
module ReconfigurationLaws {
  import opened Common
  import opened ReconfigurationBackend
  import opened ReconfigurationTransaction

  // ------------------------------------------------------- step by step

  // The n calls from number c on are answered without a failure.
  ghost predicate Clear(replies: nat -> Reply, c: nat, n: nat) {
    forall k: nat :: c <= k < c + n ==> !replies(k).fails
  }

  lemma ClearFirst(replies: nat -> Reply, c: nat, n: nat, m: nat)
    requires n <= m
    ensures Clear(replies, c, m) <==> Clear(replies, c, n) && Clear(replies, c + n, m - n)
  {
  }

  // The calls of a step that goes well.
  function Width(step: Step): nat {
    match step
    case VerifyCandidate => 2
    case ActivateCandidate => 2
    case VerifyPrevious => 2
    case ActivatePrevious => 2
    case _ => 1
  }

  // The calls from position i of the forward path on, and of the rollback path.
  function ForwardLeft(i: nat): nat
    requires i <= 7
  {
    if i <= 4 then 9 - i else if i == 5 then 3 else 7 - i
  }

  function RollbackLeft(i: nat): nat
    requires i <= 5
  {
    if i <= 3 then 7 - i else if i == 4 then 2 else 0
  }

  lemma ForwardStepExactly(t: Target, replies: nat -> Reply, q: Request, i: nat, w: World)
    requires i < 7 && ForwardAt(t, q, i, w.gateway)
    ensures RunStep(t, replies, q, w, FORWARD[i]).0 <==>
              && Clear(replies, w.count, Width(FORWARD[i]))
              && (i == 0 ==> w.gateway.lifecycle.Active?) && (i == 4 ==> t.candidateHash == q.requestedHash)
    ensures RunStep(t, replies, q, w, FORWARD[i]).0 ==>
              && RunStep(t, replies, q, w, FORWARD[i]).1.count == w.count + Width(FORWARD[i])
              && ForwardLeft(i) == Width(FORWARD[i]) + ForwardLeft(i + 1)
  {
    assert Clear(replies, w.count, Width(FORWARD[i])) ==> !replies(w.count).fails;
    assert Clear(replies, w.count, 2) ==> !replies(w.count + 1).fails;
  }

  // From position i on the forward path succeeds exactly when none of its calls
  // fails, the gateway is active at its start, and the backend verifies the
  // requested hash.
  lemma {:induction false} ForwardExactly(t: Target, replies: nat -> Reply, q: Request, i: nat, w: World)
    requires i <= 7 && ForwardAt(t, q, i, w.gateway)
    ensures RunPath(t, replies, q, FORWARD[i..], w).failed.None? <==>
              && Clear(replies, w.count, ForwardLeft(i))
              && (i == 0 ==> w.gateway.lifecycle.Active?) && (i <= 4 ==> t.candidateHash == q.requestedHash)
    decreases 7 - i
  {
    if i < 7 {
      Unfold(t, replies, q, FORWARD, i, w);
      ForwardStepExactly(t, replies, q, i, w);
      var (ok, next) := RunStep(t, replies, q, w, FORWARD[i]);
      ClearFirst(replies, w.count, Width(FORWARD[i]), ForwardLeft(i));
      if ok {
        ForwardStep(t, replies, q, i, w);
        ForwardExactly(t, replies, q, i + 1, next);
      }
    }
  }

  lemma RollbackStepExactly(t: Target, replies: nat -> Reply, q: Request, i: nat, w: World)
    requires i < 5 && RollbackAt(t, q, i, w.gateway)
    ensures RunStep(t, replies, q, w, ROLLBACK[i]).0 <==>
              && Clear(replies, w.count, Width(ROLLBACK[i]))
              && (i == 0 ==> !w.gateway.lifecycle.Other?) && (i == 3 ==> t.previousHash == q.oldHash)
    ensures RunStep(t, replies, q, w, ROLLBACK[i]).0 ==>
              && RunStep(t, replies, q, w, ROLLBACK[i]).1.count == w.count + Width(ROLLBACK[i])
              && RollbackLeft(i) == Width(ROLLBACK[i]) + RollbackLeft(i + 1)
  {
    assert Clear(replies, w.count, Width(ROLLBACK[i])) ==> !replies(w.count).fails;
    assert Clear(replies, w.count, 2) ==> !replies(w.count + 1).fails;
  }

  lemma {:induction false} RollbackPathExactly(t: Target, replies: nat -> Reply, q: Request, i: nat, w: World)
    requires i <= 5 && RollbackAt(t, q, i, w.gateway)
    ensures RunPath(t, replies, q, ROLLBACK[i..], w).failed.None? <==>
              && Clear(replies, w.count, RollbackLeft(i))
              && (i == 0 ==> !w.gateway.lifecycle.Other?) && (i <= 3 ==> t.previousHash == q.oldHash)
    decreases 5 - i
  {
    if i < 5 {
      Unfold(t, replies, q, ROLLBACK, i, w);
      RollbackStepExactly(t, replies, q, i, w);
      var (ok, next) := RunStep(t, replies, q, w, ROLLBACK[i]);
      ClearFirst(replies, w.count, Width(ROLLBACK[i]), RollbackLeft(i));
      if ok {
        RollbackStep(t, replies, q, i, w);
        RollbackPathExactly(t, replies, q, i + 1, next);
      }
    }
  }

  // --------------------------------------------------------- the results

  // A run commits exactly when the request may be carried out, the gateway is
  // active on the hash the plan starts from, the backend verifies the requested
  // hash, and none of the ten calls fails. It is a no-op exactly when the
  // plan changes nothing and the gateway reports the hash it starts from, and
  // rejected exactly when its request or its first read says so.
  lemma CommitsExactly(t: Target, replies: nat -> Reply, q: Request, w: World)
    ensures Execute(t, replies, q, w).0.status.Committed? <==>
              && q.transactionId != "" && q.bundlesPresent && q.classification.EndpointRebuildRequired?
              && w.gateway.reported == q.oldHash && w.gateway.lifecycle.Active?
              && t.candidateHash == q.requestedHash && Clear(replies, w.count, 10)
    ensures Execute(t, replies, q, w).0.status.NoOp? <==>
              && q.transactionId != "" && q.bundlesPresent && q.classification.IdentityOnly?
              && w.gateway.reported == q.oldHash && !replies(w.count).fails
    ensures Execute(t, replies, q, w).0.status.Rejected? <==>
              || q.transactionId == "" || !q.bundlesPresent
              || !(q.classification.IdentityOnly? || q.classification.EndpointRebuildRequired?)
              || w.gateway.reported != q.oldHash || replies(w.count).fails
  {
    var checked := RunPrecheck(replies, q, w).1;
    assert FORWARD[0..] == FORWARD;
    ForwardExactly(t, replies, q, 0, checked);
    ClearFirst(replies, w.count, 1, 10);
    assert Clear(replies, w.count, 1) <==> !replies(w.count).fails;
  }

  // After a failed forward step the run is rolled back exactly when that step
  // left the gateway in a primary state, the backend verifies the old hash, and
  // none of the seven rollback calls fails.
  lemma RollsBackExactly(t: Target, replies: nat -> Reply, q: Request, w: World)
    requires q.transactionId != "" && q.classification.EndpointRebuildRequired? && RunPrecheck(replies, q, w).0
    requires RunPath(t, replies, q, FORWARD, RunPrecheck(replies, q, w).1).failed.Some?
    ensures var left := RunPath(t, replies, q, FORWARD, RunPrecheck(replies, q, w).1).world;
            Execute(t, replies, q, w).0.status.RolledBack? <==>
              !left.gateway.lifecycle.Other? && t.previousHash == q.oldHash && Clear(replies, left.count, 7)
  {
    var left := RunPath(t, replies, q, FORWARD, RunPrecheck(replies, q, w).1).world;
    assert ROLLBACK[0..] == ROLLBACK;
    RollbackPathExactly(t, replies, q, 0, left);
  }

  // ------------------------------------------------ the log, written out

  lemma CallsFirst(q: Request, path: seq<Step>)
    requires path != []
    ensures CallsOf(q, path) == CallsOfStep(q, path[0]) + CallsOf(q, path[1..])
  {
  }

  lemma ForwardCalls(q: Request)
    ensures CallsOf(q, FORWARD) ==
            [Perform(DeactivateCurrent), Perform(CleanupCurrent), Perform(SetCandidateConfig),
             Perform(ConfigureCandidate), Perform(VerifyCandidate), ReadHash, Perform(ActivateCandidate), ReadHash,
             Perform(CommitCandidate)]
  {
    CallsFirst(q, FORWARD);
    CallsFirst(q, FORWARD[1..]);
    assert FORWARD[1..][1..] == FORWARD[2..];
    CallsFirst(q, FORWARD[2..]);
    assert FORWARD[2..][1..] == FORWARD[3..];
    CallsFirst(q, FORWARD[3..]);
    assert FORWARD[3..][1..] == [VerifyCandidate, ActivateCandidate, CommitCandidate];
    TailCalls(q);
  }

  lemma TailCalls(q: Request)
    ensures CallsOf(q, [VerifyCandidate, ActivateCandidate, CommitCandidate]) ==
            [Perform(VerifyCandidate), ReadHash, Perform(ActivateCandidate), ReadHash, Perform(CommitCandidate)]
  {
    var tail := [VerifyCandidate, ActivateCandidate, CommitCandidate];
    CallsFirst(q, tail);
    assert tail[1..] == [ActivateCandidate, CommitCandidate];
    CallsFirst(q, [ActivateCandidate, CommitCandidate]);
    assert [ActivateCandidate, CommitCandidate][1..] == [CommitCandidate];
    CallsFirst(q, [CommitCandidate]);
    assert CallsOf(q, [CommitCandidate]) == [Perform(CommitCandidate)];
  }

  lemma RollbackCalls(q: Request)
    ensures CallsOf(q, ROLLBACK) ==
            [Perform(CleanupCandidate), Perform(RestorePreviousConfig), Perform(ConfigurePrevious),
             Perform(VerifyPrevious), ReadHash, Perform(ActivatePrevious), ReadHash]
  {
    CallsFirst(q, ROLLBACK);
    CallsFirst(q, ROLLBACK[1..]);
    assert ROLLBACK[1..][1..] == ROLLBACK[2..];
    CallsFirst(q, ROLLBACK[2..]);
    assert ROLLBACK[2..][1..] == [VerifyPrevious, ActivatePrevious];
    CallsFirst(q, [VerifyPrevious, ActivatePrevious]);
    assert [VerifyPrevious, ActivatePrevious][1..] == [ActivatePrevious];
    CallsFirst(q, [ActivatePrevious]);
    assert CallsOf(q, [ActivatePrevious]) == [Perform(ActivatePrevious), ReadHash];
  }

  lemma CommittedLog(t: Target, replies: nat -> Reply, q: Request, w: World)
    requires Execute(t, replies, q, w).0.status.Committed?
    ensures Execute(t, replies, q, w).0.steps ==
            [StepRecord(Precheck, true), StepRecord(DeactivateCurrent, true), StepRecord(CleanupCurrent, true),
             StepRecord(SetCandidateConfig, true), StepRecord(ConfigureCandidate, true),
             StepRecord(VerifyCandidate, true), StepRecord(ActivateCandidate, true), StepRecord(CommitCandidate, true)]
  {
    var checked := RunPrecheck(replies, q, w).1;
    PathIsLogged(t, replies, q, FORWARD, checked);
    AllTaken(RunPath(t, replies, q, FORWARD, checked).records);
  }

  lemma AllTaken(records: seq<StepRecord>)
    requires IsLogOf(FORWARD, records, None)
    ensures records ==
            [StepRecord(DeactivateCurrent, true), StepRecord(CleanupCurrent, true), StepRecord(SetCandidateConfig, true),
             StepRecord(ConfigureCandidate, true), StepRecord(VerifyCandidate, true),
             StepRecord(ActivateCandidate, true), StepRecord(CommitCandidate, true)]
  {
  }

  // A run that reports Committed went through the eight steps in this order,
  // made these ten calls, the commit last, and none of them failed.
  lemma CommittedInFull(t: Target, replies: nat -> Reply, q: Request, w: World)
    requires Execute(t, replies, q, w).0.status.Committed?
    ensures Execute(t, replies, q, w).0.steps ==
            [StepRecord(Precheck, true), StepRecord(DeactivateCurrent, true), StepRecord(CleanupCurrent, true),
             StepRecord(SetCandidateConfig, true), StepRecord(ConfigureCandidate, true),
             StepRecord(VerifyCandidate, true), StepRecord(ActivateCandidate, true), StepRecord(CommitCandidate, true)]
    ensures Execute(t, replies, q, w).1.calls == w.calls +
            [ReadHash, Perform(DeactivateCurrent), Perform(CleanupCurrent), Perform(SetCandidateConfig),
             Perform(ConfigureCandidate), Perform(VerifyCandidate), ReadHash, Perform(ActivateCandidate), ReadHash,
             Perform(CommitCandidate)]
    ensures Clear(replies, w.count, 10)
  {
    CommittedLog(t, replies, q, w);
    StatusTellsCalls(t, replies, q, w);
    ForwardCalls(q);
    assert w.calls + [ReadHash] + CallsOf(q, FORWARD) == w.calls + ([ReadHash] + CallsOf(q, FORWARD));
    CommitsExactly(t, replies, q, w);
  }

  // What was tried of a list of steps: all before the last one went well, and
  // the last one too if `whole`.
  predicate Tried(records: seq<StepRecord>, steps: seq<Step>, whole: bool) {
    && 0 < |records| <= |steps| && (whole ==> |records| == |steps|)
    && forall i :: 0 <= i < |records| ==> records[i] == StepRecord(steps[i], whole || i < |records| - 1)
  }

  lemma LogIsTried(path: seq<Step>, records: seq<StepRecord>, failed: Option<Step>)
    requires IsLogOf(path, records, failed) && path != []
    ensures Tried(records, path, failed.None?)
  {
  }

  // A run that was rolled back, or tried to, went through these steps: the
  // precheck, the forward steps up to the one that failed, and the five
  // rollback steps, or those up to the one that failed.
  lemma RolledBackInFull(t: Target, replies: nat -> Reply, q: Request, w: World)
    returns (forward: seq<StepRecord>, back: seq<StepRecord>)
    requires Execute(t, replies, q, w).0.rollbackAttempted
    ensures Execute(t, replies, q, w).0.steps == [StepRecord(Precheck, true)] + forward + back
    ensures Tried(forward, [DeactivateCurrent, CleanupCurrent, SetCandidateConfig, ConfigureCandidate, VerifyCandidate,
                            ActivateCandidate, CommitCandidate], false)
    ensures Execute(t, replies, q, w).0.failedStep == Some(forward[|forward| - 1].step)
    ensures Execute(t, replies, q, w).0.status ==
            if Execute(t, replies, q, w).0.rollbackSucceeded then RolledBack else RollbackFailed
    ensures Tried(back, [CleanupCandidate, RestorePreviousConfig, ConfigurePrevious, VerifyPrevious, ActivatePrevious],
                  Execute(t, replies, q, w).0.status.RolledBack?)
    ensures Execute(t, replies, q, w).0.status.RolledBack? ==>
              Ends(Execute(t, replies, q, w).1.calls,
                   [Perform(CleanupCandidate), Perform(RestorePreviousConfig), Perform(ConfigurePrevious),
                    Perform(VerifyPrevious), ReadHash, Perform(ActivatePrevious), ReadHash])
    ensures Execute(t, replies, q, w).0.status.RollbackFailed? ==> Ends(Execute(t, replies, q, w).1.calls, [ReadHash])
  {
    var checked := RunPrecheck(replies, q, w).1;
    var there := RunPath(t, replies, q, FORWARD, checked);
    var again := RunPath(t, replies, q, ROLLBACK, there.world);
    forward, back := there.records, again.records;
    PathIsLogged(t, replies, q, FORWARD, checked);
    PathIsLogged(t, replies, q, ROLLBACK, there.world);
    LogIsTried(FORWARD, forward, there.failed);
    LogIsTried(ROLLBACK, back, again.failed);
    PathCalls(t, replies, q, ROLLBACK, there.world);
    RollbackCalls(q);
  }

  predicate Ends(calls: seq<Call>, last: seq<Call>) {
    |calls| >= |last| && calls[|calls| - |last|..] == last
  }
}
