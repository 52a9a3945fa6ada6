// The adapter's view of the controller that executes its commands
// (control_link_adapters/src/controller_endpoint_monitor.cpp).
module ControllerEndpointMonitor {
  import opened Common
  import opened GraphEndpoints

  datatype ControllerState = Unavailable | Stabilizing | Healthy | TimedOut | Ambiguous

  datatype Snapshot = Snapshot(state: ControllerState, gid: Option<seq<uint8>>)

  // One poll of the graph, as far as the monitor looks at it.
  datatype Poll =
    | Alone(gid: seq<uint8>)
    | Several
    | Nobody(rolePresent: bool)

  datatype Expected = Expected(nodeFqn: string, topicType: string, windowNs: nat, timeoutNs: nat)

  predicate PlaysRole(x: Expected, e: EndpointInfo) {
    e.kind.Subscription? && NodeFqn(e) == x.nodeFqn
  }

  predicate IsMatch(x: Expected, e: EndpointInfo) {
    PlaysRole(x, e) && e.topicType == x.topicType && e.qos.ddsCompatible
  }

  function MatchesIn(x: Expected, subscriptions: seq<EndpointInfo>): seq<EndpointInfo> {
    if subscriptions == [] then []
    else
      var n := |subscriptions| - 1;
      MatchesIn(x, subscriptions[..n]) + (if IsMatch(x, subscriptions[n]) then [subscriptions[n]] else [])
  }

  function PollOf(x: Expected, subscriptions: seq<EndpointInfo>): Poll {
    var matches := MatchesIn(x, subscriptions);
    if |matches| > 1 then Several
    else if |matches| == 1 then Alone(matches[0].gid)
    else Nobody(exists e :: e in subscriptions && PlaysRole(x, e))
  }

  datatype Candidate = Candidate(gid: seq<uint8>, since: int)

  datatype MonitorState = MonitorState(
    stable: Option<seq<uint8>>,
    candidate: Option<Candidate>,
    lastConfirmedAt: Option<int>,
    everConfirmed: bool,
    lastObservedAt: Option<int>,
    current: Snapshot)

  const INITIAL := MonitorState(None, None, None, false, None, Snapshot(Unavailable, None))

  function NobodySeen(x: Expected, s: MonitorState, rolePresent: bool, at: int): MonitorState {
    if && !rolePresent && s.stable.Some? && s.lastConfirmedAt.Some?
       && at - s.lastConfirmedAt.value <= x.timeoutNs then
      s.(candidate := None, current := Snapshot(Healthy, s.stable))
    else
      s.(candidate := None, stable := None,
         current := Snapshot(if !rolePresent && s.everConfirmed then TimedOut else Unavailable, None))
  }

  function AloneSeen(x: Expected, s: MonitorState, gid: seq<uint8>, at: int): MonitorState {
    if s.stable == Some(gid) then
      s.(lastConfirmedAt := Some(at), candidate := None, current := Snapshot(Healthy, s.stable))
    else if s.candidate.None? || s.candidate.value.gid != gid then
      s.(candidate := Some(Candidate(gid, at)), current := Snapshot(Stabilizing, None))
    else if at - s.candidate.value.since < x.windowNs then
      s.(current := Snapshot(Stabilizing, None))
    else
      s.(stable := Some(gid), candidate := None, lastConfirmedAt := Some(at), everConfirmed := true,
         current := Snapshot(Healthy, Some(gid)))
  }

  function Step(x: Expected, s: MonitorState, poll: Poll, at: int): MonitorState {
    var seen := s.(lastObservedAt := Some(at));
    match poll
    case Several => seen.(candidate := None, current := Snapshot(Ambiguous, None))
    case Nobody(rolePresent) => NobodySeen(x, seen, rolePresent, at)
    case Alone(gid) => AloneSeen(x, seen, gid, at)
  }

  datatype TimedPoll = TimedPoll(poll: Poll, at: int)

  ghost predicate TimeOrdered(h: seq<TimedPoll>) {
    forall i, j :: 0 <= i < j < |h| ==> h[i].at <= h[j].at
  }

  function After(x: Expected, h: seq<TimedPoll>): MonitorState
    decreases |h|
  {
    if h == [] then INITIAL
    else
      var n := |h| - 1;
      Step(x, After(x, h[..n]), h[n].poll, h[n].at)
  }

  lemma OneMore(x: Expected, h: seq<TimedPoll>, p: TimedPoll)
    requires TimeOrdered(h)
    requires After(x, h).lastObservedAt.Some? ==> After(x, h).lastObservedAt.value <= p.at
    ensures After(x, h + [p]) == Step(x, After(x, h), p.poll, p.at)
    ensures TimeOrdered(h + [p])
  {
    assert (h + [p])[..|h|] == h;
    LastObserved(x, h);
    StillOrdered(h, p);
  }

  lemma StillOrdered(h: seq<TimedPoll>, p: TimedPoll)
    requires TimeOrdered(h) && (h != [] ==> h[|h| - 1].at <= p.at)
    ensures TimeOrdered(h + [p])
  {
  }

  lemma LastObserved(x: Expected, h: seq<TimedPoll>)
    ensures After(x, h).lastObservedAt == if h == [] then None else Some(h[|h| - 1].at)
  {
  }

  // -------------------------------------------------------- the object

  class Monitor {
    const expected: Expected
    var stableGid: Option<seq<uint8>>
    var candidateGid: Option<seq<uint8>>
    var candidateSince: Option<int>
    var lastConfirmedAt: Option<int>
    var everConfirmed: bool
    var lastObservedAt: Option<int>
    var current: Snapshot
    ghost var history: seq<TimedPoll>

    ghost function Abstract(): MonitorState
      reads this
    {
      MonitorState(
        stableGid,
        if candidateGid.Some? && candidateSince.Some? then Some(Candidate(candidateGid.value, candidateSince.value)) else None,
        lastConfirmedAt, everConfirmed, lastObservedAt, current)
    }

    ghost predicate Valid()
      reads this
    {
      && expected.windowNs > 0 && expected.timeoutNs > 0
      && (candidateGid.Some? <==> candidateSince.Some?)
      && TimeOrdered(history)
      && Abstract() == After(expected, history)
    }

    constructor (expected: Expected)
      requires expected.nodeFqn != "" && expected.topicType != ""
      requires expected.windowNs > 0 && expected.timeoutNs > 0
      ensures Valid() && history == [] && this.expected == expected
    {
      this.expected := expected;
      stableGid, candidateGid, candidateSince, lastConfirmedAt := None, None, None, None;
      everConfirmed, lastObservedAt, current := false, None, Snapshot(Unavailable, None);
      history := [];
    }

    method MatchingEndpoints(subscriptions: seq<EndpointInfo>) returns (matches: seq<EndpointInfo>)
      ensures matches == MatchesIn(expected, subscriptions)
    {
      matches := [];
      for i := 0 to |subscriptions|
        invariant matches == MatchesIn(expected, subscriptions[..i])
      {
        assert subscriptions[..i + 1][..i] == subscriptions[..i];
        if IsMatch(expected, subscriptions[i]) {
          matches := matches + [subscriptions[i]];
        }
      }
      assert subscriptions[..|subscriptions|] == subscriptions;
    }

    method RolePresent(subscriptions: seq<EndpointInfo>) returns (present: bool)
      ensures present <==> exists e :: e in subscriptions && PlaysRole(expected, e)
    {
      present := false;
      for i := 0 to |subscriptions|
        invariant present <==> exists k :: 0 <= k < i && PlaysRole(expected, subscriptions[k])
      {
        present := present || PlaysRole(expected, subscriptions[i]);
      }
    }

    // None stands for the exception on a time that went backwards.
    method Observe(subscriptions: seq<EndpointInfo>, at: int) returns (r: Option<Snapshot>)
      requires Valid()
      modifies this
      ensures Valid()
      ensures r.Some? <==> old(history) == [] || old(history)[|old(history)| - 1].at <= at
      ensures history ==
              if r.Some? then old(history) + [TimedPoll(PollOf(expected, subscriptions), at)] else old(history)
      ensures r.Some? ==> r.value == current
    {
      if lastObservedAt.Some? && at < lastObservedAt.value {
        return None;
      }
      var matches := MatchingEndpoints(subscriptions);
      if |matches| > 1 {
        RecordPoll(Several, at);
        return Some(current);
      }
      if |matches| == 0 {
        var present := RolePresent(subscriptions);
        RecordPoll(Nobody(present), at);
        return Some(current);
      }
      RecordPoll(Alone(matches[0].gid), at);
      return Some(current);
    }

    method RecordPoll(poll: Poll, at: int)
      requires Valid() && (lastObservedAt.Some? ==> lastObservedAt.value <= at)
      modifies this
      ensures Valid() && history == old(history) + [TimedPoll(poll, at)]
    {
      OneMore(expected, history, TimedPoll(poll, at));
      LookAt(poll, at);
      history := history + [TimedPoll(poll, at)];
    }

    method LookAt(poll: Poll, at: int)
      requires candidateGid.Some? <==> candidateSince.Some?
      modifies `stableGid, `candidateGid, `candidateSince, `lastConfirmedAt, `everConfirmed, `lastObservedAt, `current
      ensures Abstract() == Step(expected, old(Abstract()), poll, at)
      ensures candidateGid.Some? <==> candidateSince.Some?
    {
      lastObservedAt := Some(at);
      match poll {
        case Several =>
          candidateGid, candidateSince := None, None;
          current := Snapshot(Ambiguous, None);
        case Nobody(rolePresent) => SeeNobody(rolePresent, at);
        case Alone(gid) => SeeAlone(gid, at);
      }
    }

    method SeeNobody(rolePresent: bool, at: int)
      modifies `stableGid, `candidateGid, `candidateSince, `current
      ensures Abstract() == NobodySeen(expected, old(Abstract()), rolePresent, at)
      ensures candidateGid.None? && candidateSince.None?
    {
      candidateGid, candidateSince := None, None;
      if !rolePresent && stableGid.Some? && lastConfirmedAt.Some?
         && at - lastConfirmedAt.value <= expected.timeoutNs {
        current := Snapshot(Healthy, stableGid);
      } else {
        stableGid := None;
        current := Snapshot(if !rolePresent && everConfirmed then TimedOut else Unavailable, None);
      }
    }

    method SeeAlone(gid: seq<uint8>, at: int)
      requires candidateGid.Some? <==> candidateSince.Some?
      modifies `stableGid, `candidateGid, `candidateSince, `lastConfirmedAt, `everConfirmed, `current
      ensures Abstract() == AloneSeen(expected, old(Abstract()), gid, at)
      ensures candidateGid.Some? <==> candidateSince.Some?
    {
      if stableGid == Some(gid) {
        lastConfirmedAt := Some(at);
        candidateGid, candidateSince := None, None;
        current := Snapshot(Healthy, stableGid);
      } else if candidateGid.None? || candidateGid.value != gid {
        candidateGid, candidateSince := Some(gid), Some(at);
        current := Snapshot(Stabilizing, None);
      } else if at - candidateSince.value < expected.windowNs {
        current := Snapshot(Stabilizing, None);
      } else {
        stableGid := Some(gid);
        candidateGid, candidateSince := None, None;
        lastConfirmedAt := Some(at);
        everConfirmed := true;
        current := Snapshot(Healthy, Some(gid));
      }
    }
  }

  // ---------------------------------------------------- over the history

  // The polls from i to j all saw g alone, over at least the window.
  ghost predicate SeenAlone(x: Expected, h: seq<TimedPoll>, g: seq<uint8>, i: nat, j: nat) {
    && i <= j < |h| && h[j].at - h[i].at >= x.windowNs
    && forall k :: i <= k <= j ==> h[k].poll == Alone(g)
  }

  // g was seen alone over the window up to j, and has stayed the stable
  // endpoint ever since.
  ghost predicate ConfirmedSince(x: Expected, h: seq<TimedPoll>, g: seq<uint8>, j: nat) {
    && j < |h|
    && (exists i: nat :: SeenAlone(x, h, g, i, j))
    && forall k :: j < k <= |h| ==> After(x, h[..k]).stable == Some(g)
  }

  // The last poll that saw g alone, and no other endpoint since then.
  ghost predicate LastSeen(h: seq<TimedPoll>, g: seq<uint8>, m: nat) {
    m < |h| && h[m].poll == Alone(g) && forall k :: m < k < |h| ==> h[k].poll != Alone(g)
  }

  ghost predicate CandidateSeen(h: seq<TimedPoll>, c: Candidate) {
    exists i: nat :: i < |h| && h[i].at == c.since && forall k :: i <= k < |h| ==> h[k].poll == Alone(c.gid)
  }

  ghost predicate HistoryTells(x: Expected, h: seq<TimedPoll>) {
    var s := After(x, h);
    && (s.candidate.Some? ==> CandidateSeen(h, s.candidate.value))
    && (s.stable.Some? ==>
          && s.everConfirmed && s.lastConfirmedAt.Some?
          && (exists j: nat :: ConfirmedSince(x, h, s.stable.value, j))
          && exists m: nat :: LastSeen(h, s.stable.value, m) && h[m].at == s.lastConfirmedAt.value)
    && (s.everConfirmed ==> exists g, i: nat, j: nat :: SeenAlone(x, h, g, i, j))
  }

  lemma CandidateGrows(h: seq<TimedPoll>, c: Candidate)
    requires h != [] && h[|h| - 1].poll == Alone(c.gid) && CandidateSeen(h[..|h| - 1], c)
    ensures CandidateSeen(h, c)
  {
    var before := h[..|h| - 1];
    var i: nat :| i < |before| && before[i].at == c.since
                  && forall k :: i <= k < |before| ==> before[k].poll == Alone(c.gid);
    assert h[i].at == c.since;
  }

  lemma SeenAlonePrefix(x: Expected, h: seq<TimedPoll>, g: seq<uint8>, i: nat, j: nat)
    requires h != [] && SeenAlone(x, h[..|h| - 1], g, i, j)
    ensures SeenAlone(x, h, g, i, j)
  {
  }

  lemma StillConfirmed(x: Expected, h: seq<TimedPoll>, g: seq<uint8>, j: nat)
    requires h != [] && ConfirmedSince(x, h[..|h| - 1], g, j) && After(x, h).stable == Some(g)
    ensures ConfirmedSince(x, h, g, j)
  {
    var n := |h| - 1;
    var i: nat :| SeenAlone(x, h[..n], g, i, j);
    SeenAlonePrefix(x, h, g, i, j);
    forall k | j < k <= |h|
      ensures After(x, h[..k]).stable == Some(g)
    {
      if k <= n {
        assert h[..n][..k] == h[..k];
      } else {
        assert h[..k] == h;
      }
    }
  }

  lemma NewlyConfirmed(x: Expected, h: seq<TimedPoll>, c: Candidate)
    requires h != [] && h[|h| - 1].poll == Alone(c.gid) && CandidateSeen(h, c)
    requires h[|h| - 1].at - c.since >= x.windowNs && After(x, h).stable == Some(c.gid)
    ensures ConfirmedSince(x, h, c.gid, |h| - 1)
    ensures exists g, i: nat, j: nat :: SeenAlone(x, h, g, i, j)
  {
    var i: nat :| i < |h| && h[i].at == c.since && forall k :: i <= k < |h| ==> h[k].poll == Alone(c.gid);
    assert SeenAlone(x, h, c.gid, i, |h| - 1);
    assert h[..|h|] == h;
  }

  lemma StepWhileStable(x: Expected, s: MonitorState, poll: Poll, at: int, g: seq<uint8>)
    requires s.stable == Some(g) && s.lastConfirmedAt.Some?
    ensures var t := Step(x, s, poll, at);
            && (t.stable == Some(g) ==>
                  t.lastConfirmedAt == if poll == Alone(g) then Some(at) else s.lastConfirmedAt)
            && (t.current == Snapshot(Healthy, Some(g)) <==>
                  poll == Alone(g) || (poll == Nobody(false) && at - s.lastConfirmedAt.value <= x.timeoutNs))
  {
  }

  lemma LastSeenGoesOn(h: seq<TimedPoll>, g: seq<uint8>, m: nat)
    requires h != [] && LastSeen(h[..|h| - 1], g, m) && h[|h| - 1].poll != Alone(g)
    ensures LastSeen(h, g, m)
  {
  }

  lemma LastSeenUnique(h: seq<TimedPoll>, g: seq<uint8>, m: nat, k: nat)
    requires LastSeen(h, g, m) && LastSeen(h, g, k)
    ensures m == k
  {
  }

  lemma StableGoesOn(x: Expected, h: seq<TimedPoll>, g: seq<uint8>)
    requires h != [] && HistoryTells(x, h[..|h| - 1])
    requires After(x, h[..|h| - 1]).stable == Some(g) == After(x, h).stable
    ensures exists j: nat :: ConfirmedSince(x, h, g, j)
    ensures exists m: nat :: LastSeen(h, g, m) && h[m].at == After(x, h).lastConfirmedAt.value
  {
    var n := |h| - 1;
    var before := h[..n];
    var j: nat :| ConfirmedSince(x, before, g, j);
    StillConfirmed(x, h, g, j);
    StepWhileStable(x, After(x, before), h[n].poll, h[n].at, g);
    if h[n].poll == Alone(g) {
      assert LastSeen(h, g, n);
    } else {
      var m: nat :| LastSeen(before, g, m) && before[m].at == After(x, before).lastConfirmedAt.value;
      LastSeenGoesOn(h, g, m);
    }
  }

  lemma EverConfirmedGoesOn(x: Expected, h: seq<TimedPoll>)
    requires h != [] && HistoryTells(x, h[..|h| - 1]) && After(x, h[..|h| - 1]).everConfirmed
    ensures exists g, i: nat, j: nat :: SeenAlone(x, h, g, i, j)
  {
    var g, i: nat, j: nat :| SeenAlone(x, h[..|h| - 1], g, i, j);
    SeenAlonePrefix(x, h, g, i, j);
  }

  lemma CandidateTold(x: Expected, h: seq<TimedPoll>)
    requires h != [] && HistoryTells(x, h[..|h| - 1]) && After(x, h).candidate.Some?
    ensures CandidateSeen(h, After(x, h).candidate.value)
  {
    var n := |h| - 1;
    var before := After(x, h[..n]);
    var c := After(x, h).candidate.value;
    if before.candidate == Some(c) {
      CandidateGrows(h, c);
    } else {
      assert h[n].at == c.since;
    }
  }

  lemma ConfirmationTold(x: Expected, h: seq<TimedPoll>)
    requires h != [] && HistoryTells(x, h[..|h| - 1])
    requires After(x, h).stable.Some? && After(x, h[..|h| - 1]).stable != After(x, h).stable
    ensures var s := After(x, h);
            && s.everConfirmed && s.lastConfirmedAt == Some(h[|h| - 1].at)
            && ConfirmedSince(x, h, s.stable.value, |h| - 1) && LastSeen(h, s.stable.value, |h| - 1)
            && exists g, i: nat, j: nat :: SeenAlone(x, h, g, i, j)
  {
    var c := After(x, h[..|h| - 1]).candidate.value;
    CandidateGrows(h, c);
    NewlyConfirmed(x, h, c);
  }

  lemma {:induction false} HistoryTold(x: Expected, h: seq<TimedPoll>)
    ensures HistoryTells(x, h)
    decreases |h|
  {
    if h != [] {
      var n := |h| - 1;
      HistoryTold(x, h[..n]);
      var before, after := After(x, h[..n]), After(x, h);
      if after.candidate.Some? {
        CandidateTold(x, h);
      }
      if before.everConfirmed {
        EverConfirmedGoesOn(x, h);
      }
      if after.stable.Some? {
        if before.stable == after.stable {
          StableGoesOn(x, h, after.stable.value);
        } else {
          ConfirmationTold(x, h);
        }
      }
    }
  }

  // Healthy(g) is reported only if g was seen alone over the window at some
  // time since when it never ceased to be the stable endpoint, and the last
  // poll that saw it alone is no older than the state timeout.
  lemma HealthyIsEarned(x: Expected, h: seq<TimedPoll>)
    requires TimeOrdered(h) && h != [] && After(x, h).current.state.Healthy?
    ensures var s := After(x, h).current;
            && s.gid.Some?
            && (exists j: nat :: ConfirmedSince(x, h, s.gid.value, j))
            && exists m: nat :: LastSeen(h, s.gid.value, m) && h[|h| - 1].at - h[m].at <= x.timeoutNs
  {
    var n := |h| - 1;
    HealthyStep(x, After(x, h[..n]), h[n].poll, h[n].at);
    HistoryTold(x, h);
    var m: nat :| LastSeen(h, After(x, h).stable.value, m) && h[m].at == After(x, h).lastConfirmedAt.value;
  }

  // What a poll that reports a healthy controller leaves behind.
  lemma HealthyStep(x: Expected, s: MonitorState, poll: Poll, at: int)
    requires Step(x, s, poll, at).current.state.Healthy?
    ensures var t := Step(x, s, poll, at);
            && t.stable.Some? && t.current.gid == t.stable
            && t.lastConfirmedAt.Some? && at - t.lastConfirmedAt.value <= x.timeoutNs
  {
  }

  // A timeout is reported only when nobody plays the role any more and some
  // endpoint had been confirmed; otherwise the endpoint is unavailable.
  lemma TimedOutMeansLost(x: Expected, h: seq<TimedPoll>)
    requires h != [] && After(x, h).current.state.TimedOut?
    ensures h[|h| - 1].poll == Nobody(false)
    ensures exists g, i: nat, j: nat :: SeenAlone(x, h, g, i, j)
  {
    HistoryTold(x, h);
  }

  // The converse: the poll that sees the stable endpoint alone reports it.
  lemma StableSeenIsHealthy(x: Expected, h: seq<TimedPoll>, g: seq<uint8>)
    requires h != [] && After(x, h[..|h| - 1]).stable == Some(g)
    ensures After(x, h).current == Snapshot(Healthy, Some(g)) <==>
            || h[|h| - 1].poll == Alone(g)
            || (h[|h| - 1].poll == Nobody(false)
                && exists m: nat :: LastSeen(h[..|h| - 1], g, m) && h[|h| - 1].at - h[m].at <= x.timeoutNs)
  {
    var n := |h| - 1;
    var before := h[..n];
    HistoryTold(x, before);
    StepWhileStable(x, After(x, before), h[n].poll, h[n].at, g);
    var m: nat :| LastSeen(before, g, m) && before[m].at == After(x, before).lastConfirmedAt.value;
    forall k: nat | LastSeen(before, g, k)
      ensures k == m
    {
      LastSeenUnique(before, g, m, k);
    }
    assert before[m] == h[m];
  }
}
