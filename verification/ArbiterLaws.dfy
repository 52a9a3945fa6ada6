// What one tick of the arbiter decides, in terms of the snapshots alone
// (control_link_gateway/src/source_arbiter.cpp).
module ArbiterLaws {
  import opened Common
  import opened Messages
  import opened Sorting
  import opened CommandValidator
  import opened SourceArbiter

  // The snapshot is that of a configured source, its command is not too old by
  // ROS time, and its lease runs by the steady clock.
  predicate Eligible(s: SourceSnapshot, rules: ArbiterRules, nowRosNs: int64, nowSteady: int) {
    && s.sourceId in rules.policy && s.priority == rules.policy[s.sourceId].priority
    && nowRosNs >= 0 && s.sourceStampNs >= 0
    && nowRosNs - s.sourceStampNs <= rules.commandTimeoutMs * 1_000_000
    && 0 <= nowSteady - s.receivedAt <= rules.policy[s.sourceId].leaseTimeoutMs * 1_000_000
  }

  lemma CandidateExactly(s: SourceSnapshot, rules: ArbiterRules, nowRosNs: int64, nowSteady: int)
    ensures IsCandidate(s, rules, nowRosNs, nowSteady) <==> Eligible(s, rules, nowRosNs, nowSteady)
  {
    if nowRosNs >= 0 && s.sourceStampNs >= 0 {
      ExceedsIsComparison(nowRosNs - s.sourceStampNs, rules.commandTimeoutMs);
    }
  }

  // An eligible snapshot such that no eligible one has a higher priority, a
  // newer stamp at equal priority, or a smaller id at equal both.
  ghost predicate Top(s: SourceSnapshot, t: Tick, rules: ArbiterRules) {
    && s in t.snapshots && Eligible(s, rules, t.nowRosNs, t.nowSteady)
    && forall u :: u in t.snapshots && Eligible(u, rules, t.nowRosNs, t.nowSteady) ==>
         && u.priority <= s.priority
         && (u.priority == s.priority ==> u.sourceStampNs <= s.sourceStampNs)
         && (u.priority == s.priority && u.sourceStampNs == s.sourceStampNs ==> !SmallerText(u.sourceId, s.sourceId))
  }

  ghost predicate NothingEligible(t: Tick, rules: ArbiterRules) {
    forall u :: u in t.snapshots ==> !Eligible(u, rules, t.nowRosNs, t.nowSteady)
  }

  ghost predicate StillEligible(id: string, t: Tick, rules: ArbiterRules) {
    exists u :: u in t.snapshots && u.sourceId == id && Eligible(u, rules, t.nowRosNs, t.nowSteady)
  }

  lemma BestIsTop(s: SourceSnapshot, t: Tick, rules: ArbiterRules)
    requires IsBest(s, t.snapshots, rules, t.nowRosNs, t.nowSteady)
    ensures Top(s, t, rules)
  {
    CandidateExactly(s, rules, t.nowRosNs, t.nowSteady);
    forall u | u in t.snapshots && Eligible(u, rules, t.nowRosNs, t.nowSteady)
      ensures !Precedes(u, s)
    {
      CandidateExactly(u, rules, t.nowRosNs, t.nowSteady);
    }
  }

  // Since when the source has been the challenger, this tick included.
  function ChallengedSince(a: ArbiterState, id: string, nowSteady: int): int {
    if a.challenger.Some? && a.challenger.value.sourceId == id then a.challenger.value.betterSince else nowSteady
  }

  // With no active source, or one that is no longer eligible, the top source is
  // followed at once; an active source that is the top one is kept; and one that
  // is not is kept until the top source has challenged it for the hold.
  lemma DecisionExactly(a: ArbiterState, t: Tick, rules: ArbiterRules)
    returns (top: SourceSnapshot)
    requires Arbitrate(a, t.snapshots, rules, t.nowRosNs, t.nowSteady).Some?
    requires !NothingEligible(t, rules)
    ensures Top(top, t, rules)
    ensures var (after, decision) := Arbitrate(a, t.snapshots, rules, t.nowRosNs, t.nowSteady).value;
            var since := ChallengedSince(a, top.sourceId, t.nowSteady);
            decision.selected.Some? &&
            if a.active.None? then
              && decision.event == FirstSelection && decision.selected.value == top
              && after == ArbiterState(Some(top.sourceId), None)
            else if !StillEligible(a.active.value, t, rules) then
              && decision.event == Fallback && decision.selected.value == top
              && after == ArbiterState(Some(top.sourceId), None)
            else if a.active.value == top.sourceId then
              && decision.event == NoChange && decision.selected.value.sourceId == top.sourceId
              && after == ArbiterState(Some(top.sourceId), None)
            else if rules.switchHoldMs <= MAX_INT64 && t.nowSteady - since >= rules.switchHoldMs * 1_000_000 then
              && decision.event == Switch && decision.selected.value == top
              && after == ArbiterState(Some(top.sourceId), None)
            else
              && decision.event == NoChange && decision.selected.value.sourceId == a.active.value
              && after == ArbiterState(a.active, Some(Challenger(top.sourceId, since)))
  {
    SortedCandidates(t.snapshots, rules, t.nowRosNs, t.nowSteady);
    var sorted := Sort(CandidateKey, Candidates(t.snapshots, rules, t.nowRosNs, t.nowSteady));
    forall u
      ensures u in sorted <==> u in t.snapshots && Eligible(u, rules, t.nowRosNs, t.nowSteady)
    {
      CandidateExactly(u, rules, t.nowRosNs, t.nowSteady);
    }
    top := sorted[0];
    BestIsTop(top, t, rules);
    if a.active.Some? {
      Looked(sorted, a.active.value);
      assert Find(sorted, a.active.value).Some? <==> StillEligible(a.active.value, t, rules);
    }
  }

  lemma Looked(sorted: seq<SourceSnapshot>, id: string)
    ensures Find(sorted, id).Some? <==> exists u :: u in sorted && u.sourceId == id
  {
  }

  // With nothing eligible nothing is followed, and the past is forgotten.
  lemma NothingFollowed(a: ArbiterState, t: Tick, rules: ArbiterRules)
    requires Arbitrate(a, t.snapshots, rules, t.nowRosNs, t.nowSteady).Some? && NothingEligible(t, rules)
    ensures Arbitrate(a, t.snapshots, rules, t.nowRosNs, t.nowSteady).value ==
            (ArbiterState(None, None), Arbitration(None, if a.active.Some? then NoQualifiedSource else NoChange))
  {
    SortedCandidates(t.snapshots, rules, t.nowRosNs, t.nowSteady);
    var sorted := Sort(CandidateKey, Candidates(t.snapshots, rules, t.nowRosNs, t.nowSteady));
    if sorted != [] {
      CandidateExactly(sorted[0], rules, t.nowRosNs, t.nowSteady);
    }
  }

  // The tick throws on a snapshot that does not fit the policy or the clock,
  // and otherwise only where the clock is behind the start of a challenge.
  lemma ThrowsOnly(a: ArbiterState, t: Tick, rules: ArbiterRules)
    ensures (exists u :: u in t.snapshots &&
              (|| u.sourceId !in rules.policy || u.priority != rules.policy[u.sourceId].priority
               || t.nowSteady < u.receivedAt)) ==>
              Arbitrate(a, t.snapshots, rules, t.nowRosNs, t.nowSteady).None?
    ensures (forall u :: u in t.snapshots ==>
               && u.sourceId in rules.policy && u.priority == rules.policy[u.sourceId].priority
               && u.receivedAt <= t.nowSteady)
            && (a.challenger.Some? ==> a.challenger.value.betterSince <= t.nowSteady) ==>
              Arbitrate(a, t.snapshots, rules, t.nowRosNs, t.nowSteady).Some?
  {
    if u :| u in t.snapshots && (|| u.sourceId !in rules.policy || u.priority != rules.policy[u.sourceId].priority
                                 || t.nowSteady < u.receivedAt) {
      assert !Plausible(u, rules, t.nowSteady);
    }
  }
}
