// Which source the gateway follows (control_link_gateway/src/source_arbiter.cpp).
module SourceArbiter {
  import opened Common
  import opened Messages
  import opened Sorting
  import opened CommandValidator

  datatype PolicyEntry = PolicyEntry(priority: uint8, leaseTimeoutMs: nat)

  datatype ArbiterRules = ArbiterRules(
    commandTimeoutMs: uint64,
    switchHoldMs: uint64,
    policy: map<string, PolicyEntry>)

  datatype Assessment = Assessment(commandFresh: bool, leaseValid: bool, ageNs: int)

  predicate Qualified(a: Assessment) {
    a.commandFresh && a.leaseValid
  }

  predicate CommandIsFresh(s: SourceSnapshot, nowRosNs: int64, commandTimeoutMs: uint64) {
    nowRosNs >= 0 && s.sourceStampNs >= 0 &&
    (s.sourceStampNs > nowRosNs || !ExceedsMilliseconds(nowRosNs - s.sourceStampNs, commandTimeoutMs))
  }

  // The snapshot belongs to a configured source, with its priority, and was
  // not received in the future.
  predicate Plausible(s: SourceSnapshot, rules: ArbiterRules, nowSteady: int) {
    && s.sourceId in rules.policy && s.priority == rules.policy[s.sourceId].priority
    && s.receivedAt <= nowSteady
  }

  // None stands for a logic_error.
  function Assess(s: SourceSnapshot, rules: ArbiterRules, nowRosNs: int64, nowSteady: int): Option<Assessment> {
    if !Plausible(s, rules, nowSteady) then None
    else
      var age := nowRosNs - s.sourceStampNs;
      Some(Assessment(
             CommandIsFresh(s, nowRosNs, rules.commandTimeoutMs),
             nowSteady - s.receivedAt <= rules.policy[s.sourceId].leaseTimeoutMs * NS_PER_MILLISECOND,
             if age > 0 then age else 0))
  }

  predicate IsCandidate(s: SourceSnapshot, rules: ArbiterRules, nowRosNs: int64, nowSteady: int) {
    var a := Assess(s, rules, nowRosNs, nowSteady);
    a.Some? && Qualified(a.value)
  }

  // Higher priority first, then the younger command, then the smaller id.
  predicate CandidateIsBetter(left: SourceSnapshot, right: SourceSnapshot, nowRosNs: int64) {
    if left.priority != right.priority then left.priority > right.priority
    else if nowRosNs - left.sourceStampNs != nowRosNs - right.sourceStampNs then
      nowRosNs - left.sourceStampNs < nowRosNs - right.sourceStampNs
    else StringLess(left.sourceId, right.sourceId)
  }

  // The same order as a sorting key: it does not depend on the time at which
  // ages are compared.
  function CandidateKey(s: SourceSnapshot): seq<int> {
    [0 - s.priority, 0 - s.sourceStampNs] + Codes(s.sourceId)
  }

  lemma KeyOrders(left: SourceSnapshot, right: SourceSnapshot, nowRosNs: int64)
    ensures CandidateIsBetter(left, right, nowRosNs) <==> !LexLeq(CandidateKey(right), CandidateKey(left))
  {
    var l, r := CandidateKey(left), CandidateKey(right);
    assert l[1..] == [0 - left.sourceStampNs] + Codes(left.sourceId);
    assert r[1..] == [0 - right.sourceStampNs] + Codes(right.sourceId);
    assert l[1..][1..] == Codes(left.sourceId) && r[1..][1..] == Codes(right.sourceId);
  }

  function Candidates(snapshots: seq<SourceSnapshot>, rules: ArbiterRules, nowRosNs: int64, nowSteady: int)
    : seq<SourceSnapshot>
  {
    if snapshots == [] then []
    else
      var n := |snapshots| - 1;
      Candidates(snapshots[..n], rules, nowRosNs, nowSteady)
      + (if IsCandidate(snapshots[n], rules, nowRosNs, nowSteady) then [snapshots[n]] else [])
  }

  lemma {:induction false} CandidatesAre(snapshots: seq<SourceSnapshot>, rules: ArbiterRules, nowRosNs: int64,
                                         nowSteady: int, s: SourceSnapshot)
    ensures s in Candidates(snapshots, rules, nowRosNs, nowSteady) <==>
            s in snapshots && IsCandidate(s, rules, nowRosNs, nowSteady)
  {
    if snapshots != [] {
      var n := |snapshots| - 1;
      CandidatesAre(snapshots[..n], rules, nowRosNs, nowSteady, s);
      assert snapshots == snapshots[..n] + [snapshots[n]];
    }
  }

  datatype ArbitrationEvent = NoChange | FirstSelection | Switch | Fallback | NoQualifiedSource

  datatype Arbitration = Arbitration(selected: Option<SourceSnapshot>, event: ArbitrationEvent)

  datatype Challenger = Challenger(sourceId: string, betterSince: int)

  datatype ArbiterState = ArbiterState(active: Option<string>, challenger: Option<Challenger>)

  const NO_HISTORY := ArbiterState(None, None)

  function Find(candidates: seq<SourceSnapshot>, sourceId: string): (r: Option<SourceSnapshot>)
    ensures r.Some? ==> r.value in candidates && r.value.sourceId == sourceId
    ensures r.None? ==> forall s :: s in candidates ==> s.sourceId != sourceId
  {
    if candidates == [] then None
    else if candidates[0].sourceId == sourceId then Some(candidates[0])
    else Find(candidates[1..], sourceId)
  }

  predicate ReachesMilliseconds(elapsed: int, limitMs: uint64) {
    limitMs <= MAX_INT64 && elapsed >= limitMs * NS_PER_MILLISECOND
  }

  // A better source has to stay the best one for the hold before it takes
  // over. None stands for the logic_error on a clock that went backwards.
  function Challenge(a: ArbiterState, current: SourceSnapshot, best: SourceSnapshot, holdMs: uint64, nowSteady: int)
    : Option<(ArbiterState, Arbitration)>
  {
    var challenger :=
      if a.challenger.None? || a.challenger.value.sourceId != best.sourceId then Challenger(best.sourceId, nowSteady)
      else a.challenger.value;
    if nowSteady < challenger.betterSince then None
    else if !ReachesMilliseconds(nowSteady - challenger.betterSince, holdMs) then
      Some((a.(challenger := Some(challenger)), Arbitration(Some(current), NoChange)))
    else Some((ArbiterState(Some(best.sourceId), None), Arbitration(Some(best), Switch)))
  }

  // The decision on sorted candidates.
  function Choose(a: ArbiterState, candidates: seq<SourceSnapshot>, holdMs: uint64, nowSteady: int)
    : Option<(ArbiterState, Arbitration)>
  {
    if candidates == [] then
      Some((NO_HISTORY, Arbitration(None, if a.active.Some? then NoQualifiedSource else NoChange)))
    else
      var best := candidates[0];
      var followBest := ArbiterState(Some(best.sourceId), None);
      if a.active.None? then Some((followBest, Arbitration(Some(best), FirstSelection)))
      else
        var current := Find(candidates, a.active.value);
        if current.None? then Some((followBest, Arbitration(Some(best), Fallback)))
        else if best.sourceId == current.value.sourceId then
          Some((a.(challenger := None), Arbitration(current, NoChange)))
        else Challenge(a, current.value, best, holdMs, nowSteady)
  }

  function Arbitrate(a: ArbiterState, snapshots: seq<SourceSnapshot>, rules: ArbiterRules, nowRosNs: int64, nowSteady: int)
    : Option<(ArbiterState, Arbitration)>
  {
    if exists s :: s in snapshots && !Plausible(s, rules, nowSteady) then None
    else
      Choose(a, Sort(CandidateKey, Candidates(snapshots, rules, nowRosNs, nowSteady)), rules.switchHoldMs, nowSteady)
  }

  // The object; false stands for a logic_error.
  class Arbiter {
    const rules: ArbiterRules
    var activeSourceId: Option<string>
    var challenger: Option<Challenger>

    ghost function State(): ArbiterState
      reads this
    {
      ArbiterState(activeSourceId, challenger)
    }

    constructor (rules: ArbiterRules)
      ensures this.rules == rules && State() == NO_HISTORY
    {
      this.rules := rules;
      activeSourceId, challenger := None, None;
    }

    method CollectQualifiedCandidates(snapshots: seq<SourceSnapshot>, nowRosNs: int64, nowSteady: int)
      returns (r: Option<seq<SourceSnapshot>>)
      ensures r.None? <==> exists s :: s in snapshots && !Plausible(s, rules, nowSteady)
      ensures r.Some? ==> r.value == Sort(CandidateKey, Candidates(snapshots, rules, nowRosNs, nowSteady))
    {
      var candidates: seq<SourceSnapshot> := [];
      for i := 0 to |snapshots|
        invariant forall k :: 0 <= k < i ==> Plausible(snapshots[k], rules, nowSteady)
        invariant candidates == Candidates(snapshots[..i], rules, nowRosNs, nowSteady)
      {
        assert snapshots[..i + 1][..i] == snapshots[..i];
        var assessment := Assess(snapshots[i], rules, nowRosNs, nowSteady);
        if assessment.None? {
          return None;
        }
        if Qualified(assessment.value) {
          candidates := candidates + [snapshots[i]];
        }
      }
      assert snapshots[..|snapshots|] == snapshots;
      return Some(Sort(CandidateKey, candidates));
    }

    method EvaluateTick(snapshots: seq<SourceSnapshot>, nowRosNs: int64, nowSteady: int)
      returns (r: Option<Arbitration>)
      modifies this
      ensures match Arbitrate(old(State()), snapshots, rules, nowRosNs, nowSteady)
              case None => r == None && State() == old(State())
              case Some((after, decision)) => r == Some(decision) && State() == after
    {
      var collected := CollectQualifiedCandidates(snapshots, nowRosNs, nowSteady);
      if collected.None? {
        return None;
      }
      r := Decide(collected.value, nowSteady);
    }

    method Decide(candidates: seq<SourceSnapshot>, nowSteady: int) returns (r: Option<Arbitration>)
      modifies this
      ensures match Choose(old(State()), candidates, rules.switchHoldMs, nowSteady)
              case None => r == None && State() == old(State())
              case Some((after, decision)) => r == Some(decision) && State() == after
    {
      if candidates == [] {
        var lostActive := activeSourceId.Some?;
        activeSourceId, challenger := None, None;
        return Some(Arbitration(None, if lostActive then NoQualifiedSource else NoChange));
      }
      var best := candidates[0];
      if activeSourceId.None? {
        activeSourceId, challenger := Some(best.sourceId), None;
        return Some(Arbitration(Some(best), FirstSelection));
      }
      var current := Find(candidates, activeSourceId.value);
      if current.None? {
        activeSourceId, challenger := Some(best.sourceId), None;
        return Some(Arbitration(Some(best), Fallback));
      }
      if best.sourceId == current.value.sourceId {
        challenger := None;
        return Some(Arbitration(current, NoChange));
      }
      if challenger.None? || challenger.value.sourceId != best.sourceId {
        challenger := Some(Challenger(best.sourceId, nowSteady));
      }
      if nowSteady < challenger.value.betterSince {
        return None;
      }
      if !ReachesMilliseconds(nowSteady - challenger.value.betterSince, rules.switchHoldMs) {
        return Some(Arbitration(current, NoChange));
      }
      activeSourceId, challenger := Some(best.sourceId), None;
      return Some(Arbitration(Some(best), Switch));
    }
  }

  // ------------------------------------------------------------ properties

  // The first difference decides, and a prefix comes first.
  ghost predicate SmallerText(a: string, b: string) {
    exists i :: 0 <= i <= |a| && i < |b| && a[..i] == b[..i] && (i == |a| || a[i] < b[i])
  }

  // The higher priority comes first, then the newer stamp, then the smaller id.
  ghost predicate Precedes(s: SourceSnapshot, t: SourceSnapshot) {
    || s.priority > t.priority
    || (s.priority == t.priority && s.sourceStampNs > t.sourceStampNs)
    || (s.priority == t.priority && s.sourceStampNs == t.sourceStampNs && SmallerText(s.sourceId, t.sourceId))
  }

  // The shape of SmallerText on codes, from the front.
  ghost predicate DiffersAt(a: seq<int>, b: seq<int>, i: nat) {
    i <= |a| && i < |b| && a[..i] == b[..i] && (i == |a| || a[i] < b[i])
  }

  lemma SameFirst(a: seq<int>, b: seq<int>, i: nat)
    requires 0 < i <= |a| && i <= |b| && a[..i] == b[..i]
    ensures a[0] == b[0]
  {
    assert a[..i][0] == b[..i][0];
  }

  lemma {:induction false} FirstDifference(a: seq<int>, b: seq<int>)
    ensures !LexLeq(b, a) <==> exists i: nat :: DiffersAt(a, b, i)
  {
    if b == [] {
    } else if a == [] {
      assert DiffersAt(a, b, 0);
    } else if a[0] != b[0] {
      if a[0] < b[0] {
        assert DiffersAt(a, b, 0);
      }
      forall i: nat | DiffersAt(a, b, i)
        ensures i == 0
      {
        if i > 0 {
          SameFirst(a, b, i);
        }
      }
    } else {
      FirstDifference(a[1..], b[1..]);
      if i: nat :| DiffersAt(a, b, i) {
        assert a[1..][..i - 1] == a[..i][1..] && b[1..][..i - 1] == b[..i][1..];
        assert DiffersAt(a[1..], b[1..], i - 1);
      }
      if i: nat :| DiffersAt(a[1..], b[1..], i) {
        assert a[..i + 1] == [a[0]] + a[1..][..i] && b[..i + 1] == [b[0]] + b[1..][..i];
        assert DiffersAt(a, b, i + 1);
      }
    }
  }

  lemma LessIsSmaller(a: string, b: string)
    ensures StringLess(a, b) <==> SmallerText(a, b)
  {
    FirstDifference(Codes(a), Codes(b));
    if i: nat :| DiffersAt(Codes(a), Codes(b), i) {
      SamePrefix(a, b, i);
    }
    if i :| 0 <= i <= |a| && i < |b| && a[..i] == b[..i] && (i == |a| || a[i] < b[i]) {
      SamePrefix(a, b, i);
      assert DiffersAt(Codes(a), Codes(b), i);
    }
  }

  lemma SamePrefix(a: string, b: string, i: nat)
    requires i <= |a| && i <= |b|
    ensures a[..i] == b[..i] <==> Codes(a)[..i] == Codes(b)[..i]
  {
    if Codes(a)[..i] == Codes(b)[..i] {
      forall k | 0 <= k < i
        ensures a[k] == b[k]
      {
        assert Codes(a)[..i][k] == Codes(b)[..i][k];
      }
    } else if a[..i] == b[..i] {
      forall k | 0 <= k < i
        ensures Codes(a)[k] == Codes(b)[k]
      {
        assert a[..i][k] == b[..i][k];
      }
    }
  }

  // The comparison of ages is that order, whatever the time.
  lemma BetterIsPrecedes(left: SourceSnapshot, right: SourceSnapshot, nowRosNs: int64)
    ensures CandidateIsBetter(left, right, nowRosNs) <==> Precedes(left, right)
  {
    LessIsSmaller(left.sourceId, right.sourceId);
  }

  // No other candidate comes before it.
  ghost predicate IsBest(s: SourceSnapshot, snapshots: seq<SourceSnapshot>, rules: ArbiterRules,
                         nowRosNs: int64, nowSteady: int)
  {
    && s in snapshots && IsCandidate(s, rules, nowRosNs, nowSteady)
    && forall t :: t in snapshots && IsCandidate(t, rules, nowRosNs, nowSteady) ==> !Precedes(t, s)
  }

  lemma SortedAre(snapshots: seq<SourceSnapshot>, rules: ArbiterRules, nowRosNs: int64, nowSteady: int)
    ensures var sorted := Sort(CandidateKey, Candidates(snapshots, rules, nowRosNs, nowSteady));
            forall s :: s in sorted <==> s in snapshots && IsCandidate(s, rules, nowRosNs, nowSteady)
  {
    var candidates := Candidates(snapshots, rules, nowRosNs, nowSteady);
    var sorted := Sort(CandidateKey, candidates);
    SortPermutes(CandidateKey, candidates);
    forall s
      ensures s in sorted <==> s in snapshots && IsCandidate(s, rules, nowRosNs, nowSteady)
    {
      CandidatesAre(snapshots, rules, nowRosNs, nowSteady, s);
      assert s in multiset(sorted) <==> s in multiset(candidates);
    }
  }

  lemma SortedCandidates(snapshots: seq<SourceSnapshot>, rules: ArbiterRules, nowRosNs: int64, nowSteady: int)
    ensures var sorted := Sort(CandidateKey, Candidates(snapshots, rules, nowRosNs, nowSteady));
            && (forall s :: s in sorted <==> s in snapshots && IsCandidate(s, rules, nowRosNs, nowSteady))
            && (sorted != [] ==> IsBest(sorted[0], snapshots, rules, nowRosNs, nowSteady))
  {
    var sorted := Sort(CandidateKey, Candidates(snapshots, rules, nowRosNs, nowSteady));
    SortedAre(snapshots, rules, nowRosNs, nowSteady);
    if sorted != [] {
      SortSorts(CandidateKey, Candidates(snapshots, rules, nowRosNs, nowSteady));
      forall t | t in snapshots && IsCandidate(t, rules, nowRosNs, nowSteady)
        ensures !Precedes(t, sorted[0])
      {
        assert t in sorted;
        LeastFirst(CandidateKey, sorted, t);
        KeyOrders(t, sorted[0], nowRosNs);
        BetterIsPrecedes(t, sorted[0], nowRosNs);
      }
    }
  }

  lemma ChosenFrom(a: ArbiterState, candidates: seq<SourceSnapshot>, holdMs: uint64, nowSteady: int)
    requires Choose(a, candidates, holdMs, nowSteady).Some?
    ensures var (after, decision) := Choose(a, candidates, holdMs, nowSteady).value;
            && (decision.selected.Some? <==> candidates != [])
            && (decision.selected.None? ==> after == NO_HISTORY)
            && (decision.selected.Some? ==>
                  && decision.selected.value in candidates && after.active == Some(decision.selected.value.sourceId)
                  && (decision.selected.value == candidates[0] ||
                      (a.active == Some(decision.selected.value.sourceId) && after.challenger.Some?)))
  {
  }

  lemma SwitchHeld(a: ArbiterState, candidates: seq<SourceSnapshot>, holdMs: uint64, nowSteady: int)
    requires Choose(a, candidates, holdMs, nowSteady).Some? && Choose(a, candidates, holdMs, nowSteady).value.1.event.Switch?
    ensures var decision := Choose(a, candidates, holdMs, nowSteady).value.1;
            && decision.selected.Some? && a.active.Some? && a.active.value != decision.selected.value.sourceId
            && (holdMs > 0 ==>
                  && a.challenger.Some? && a.challenger.value.sourceId == decision.selected.value.sourceId
                  && nowSteady - a.challenger.value.betterSince >= holdMs * NS_PER_MILLISECOND)
  {
  }

  // Whatever the arbiter follows is a fresh, leased snapshot of this tick, and
  // it follows something exactly when there is one.
  lemma SelectionQualified(a: ArbiterState, snapshots: seq<SourceSnapshot>, rules: ArbiterRules,
                           nowRosNs: int64, nowSteady: int)
    requires Arbitrate(a, snapshots, rules, nowRosNs, nowSteady).Some?
    ensures var (after, decision) := Arbitrate(a, snapshots, rules, nowRosNs, nowSteady).value;
            && (decision.selected.Some? <==> exists s :: s in snapshots && IsCandidate(s, rules, nowRosNs, nowSteady))
            && (decision.selected.Some? ==>
                  && decision.selected.value in snapshots
                  && IsCandidate(decision.selected.value, rules, nowRosNs, nowSteady)
                  && after.active == Some(decision.selected.value.sourceId))
            && (decision.selected.None? ==> after == NO_HISTORY)
  {
    SortedAre(snapshots, rules, nowRosNs, nowSteady);
    var sorted := Sort(CandidateKey, Candidates(snapshots, rules, nowRosNs, nowSteady));
    ChosenFrom(a, sorted, rules.switchHoldMs, nowSteady);
    if s :| s in snapshots && IsCandidate(s, rules, nowRosNs, nowSteady) {
      assert s in sorted;
    }
  }

  // A source is taken over from another that still qualifies only after it was
  // the best one for the hold; in every other case the best one is followed.
  lemma HoldBeforeSwitch(a: ArbiterState, snapshots: seq<SourceSnapshot>, rules: ArbiterRules,
                         nowRosNs: int64, nowSteady: int)
    requires Arbitrate(a, snapshots, rules, nowRosNs, nowSteady).Some?
    requires Arbitrate(a, snapshots, rules, nowRosNs, nowSteady).value.1.selected.Some?
    ensures var (after, decision) := Arbitrate(a, snapshots, rules, nowRosNs, nowSteady).value;
            var s := decision.selected.value;
            && (decision.event.Switch? ==>
                  && a.active.Some? && a.active.value != s.sourceId
                  && (rules.switchHoldMs > 0 ==>
                        && a.challenger.Some? && a.challenger.value.sourceId == s.sourceId
                        && nowSteady - a.challenger.value.betterSince >= rules.switchHoldMs * NS_PER_MILLISECOND))
            && (a.active != Some(s.sourceId) ==> IsBest(s, snapshots, rules, nowRosNs, nowSteady))
            && (!IsBest(s, snapshots, rules, nowRosNs, nowSteady) ==>
                  a.active == Some(s.sourceId) && after.challenger.Some?)
  {
    SortedCandidates(snapshots, rules, nowRosNs, nowSteady);
    var sorted := Sort(CandidateKey, Candidates(snapshots, rules, nowRosNs, nowSteady));
    ChosenFrom(a, sorted, rules.switchHoldMs, nowSteady);
    if Choose(a, sorted, rules.switchHoldMs, nowSteady).value.1.event.Switch? {
      SwitchHeld(a, sorted, rules.switchHoldMs, nowSteady);
    }
  }

  // ------------------------------------------------------ over many ticks

  datatype Tick = Tick(snapshots: seq<SourceSnapshot>, nowRosNs: int64, nowSteady: int)

  // The arbiter after some ticks; None once it has thrown.
  function AfterTicks(rules: ArbiterRules, ticks: seq<Tick>): Option<ArbiterState>
    decreases |ticks|
  {
    if ticks == [] then Some(NO_HISTORY)
    else
      var n := |ticks| - 1;
      var before := AfterTicks(rules, ticks[..n]);
      if before.None? then None
      else
        var r := Arbitrate(before.value, ticks[n].snapshots, rules, ticks[n].nowRosNs, ticks[n].nowSteady);
        if r.None? then None else Some(r.value.0)
  }

  ghost predicate BestAt(rules: ArbiterRules, tick: Tick, sourceId: string) {
    exists s :: IsBest(s, tick.snapshots, rules, tick.nowRosNs, tick.nowSteady) && s.sourceId == sourceId
  }

  // The challenger was the best source at every tick since it challenges.
  ghost predicate BestSince(rules: ArbiterRules, ticks: seq<Tick>, c: Challenger) {
    exists i: nat :: i < |ticks| && ticks[i].nowSteady == c.betterSince
                     && forall k :: i <= k < |ticks| ==> BestAt(rules, ticks[k], c.sourceId)
  }

  lemma BestSinceGrows(rules: ArbiterRules, ticks: seq<Tick>, c: Challenger)
    requires ticks != [] && BestSince(rules, ticks[..|ticks| - 1], c) && BestAt(rules, ticks[|ticks| - 1], c.sourceId)
    ensures BestSince(rules, ticks, c)
  {
    var before := ticks[..|ticks| - 1];
    var i: nat :| i < |before| && before[i].nowSteady == c.betterSince
                  && forall k :: i <= k < |before| ==> BestAt(rules, before[k], c.sourceId);
    assert ticks[i].nowSteady == c.betterSince;
    forall k | i <= k < |ticks|
      ensures BestAt(rules, ticks[k], c.sourceId)
    {
      if k < |before| {
        assert before[k] == ticks[k];
      }
    }
  }

  lemma {:induction false} ChallengerIsBest(rules: ArbiterRules, ticks: seq<Tick>)
    requires AfterTicks(rules, ticks).Some? && AfterTicks(rules, ticks).value.challenger.Some?
    ensures BestSince(rules, ticks, AfterTicks(rules, ticks).value.challenger.value)
    decreases |ticks|
  {
    var n := |ticks| - 1;
    var t := ticks[n];
    var before := AfterTicks(rules, ticks[..n]).value;
    var after := AfterTicks(rules, ticks).value;
    SortedCandidates(t.snapshots, rules, t.nowRosNs, t.nowSteady);
    if before.challenger == after.challenger {
      ChallengerIsBest(rules, ticks[..n]);
      BestSinceGrows(rules, ticks, after.challenger.value);
    }
  }

  // So a source that still qualifies loses to another one only if that was the
  // best candidate at every tick of at least the hold.
  lemma SwitchEarned(rules: ArbiterRules, ticks: seq<Tick>, last: Tick)
    requires AfterTicks(rules, ticks).Some? && rules.switchHoldMs > 0
    requires var r := Arbitrate(AfterTicks(rules, ticks).value, last.snapshots, rules, last.nowRosNs, last.nowSteady);
             r.Some? && r.value.1.event.Switch?
    ensures var r := Arbitrate(AfterTicks(rules, ticks).value, last.snapshots, rules, last.nowRosNs, last.nowSteady);
            r.value.1.selected.Some?
    ensures var r := Arbitrate(AfterTicks(rules, ticks).value, last.snapshots, rules, last.nowRosNs, last.nowSteady);
            var id := r.value.1.selected.value.sourceId;
            exists c: Challenger :: c.sourceId == id && BestSince(rules, ticks + [last], c)
                                    && last.nowSteady - c.betterSince >= rules.switchHoldMs * NS_PER_MILLISECOND
  {
    var before := AfterTicks(rules, ticks).value;
    SelectionQualified(before, last.snapshots, rules, last.nowRosNs, last.nowSteady);
    HoldBeforeSwitch(before, last.snapshots, rules, last.nowRosNs, last.nowSteady);
    ChallengerIsBest(rules, ticks);
    assert (ticks + [last])[..|ticks|] == ticks;
    BestSinceGrows(rules, ticks + [last], before.challenger.value);
  }
}
