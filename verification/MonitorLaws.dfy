// Exactly what the controller monitor reports after a history of polls
// (control_link_adapters/src/controller_endpoint_monitor.cpp).
module MonitorLaws {
  import opened Common
  import opened ControllerEndpointMonitor

  // g is stable, or a candidate since no later than `since`.
  predicate OnItsWay(s: MonitorState, g: seq<uint8>, since: int) {
    s.stable == Some(g) || (s.candidate.Some? && s.candidate.value.gid == g && s.candidate.value.since <= since)
  }

  lemma AloneStep(x: Expected, s: MonitorState, g: seq<uint8>, at: int, since: int)
    ensures (s.candidate.Some? ==> s.candidate.value.since <= at) ==> OnItsWay(Step(x, s, Alone(g), at), g, at)
    ensures OnItsWay(s, g, since) ==> OnItsWay(Step(x, s, Alone(g), at), g, since)
    ensures OnItsWay(s, g, since) && at - since >= x.windowNs ==>
              Step(x, s, Alone(g), at).stable == Some(g) && Step(x, s, Alone(g), at).current == Snapshot(Healthy, Some(g))
  {
  }

  lemma NextPoll(x: Expected, h: seq<TimedPoll>, n: nat)
    requires n < |h|
    ensures After(x, h[..n + 1]) == Step(x, After(x, h[..n]), h[n].poll, h[n].at)
  {
    assert h[..n + 1][..n] == h[..n];
  }

  lemma CandidateInPast(x: Expected, h: seq<TimedPoll>, at: int)
    requires forall i :: 0 <= i < |h| ==> h[i].at <= at
    ensures After(x, h).candidate.Some? ==> After(x, h).candidate.value.since <= at
  {
    HistoryTold(x, h);
  }

  lemma {:induction false} AloneGoesOn(x: Expected, h: seq<TimedPoll>, g: seq<uint8>, i: nat, k: nat)
    requires TimeOrdered(h) && i <= k < |h| && forall m :: i <= m <= k ==> h[m].poll == Alone(g)
    ensures OnItsWay(After(x, h[..k + 1]), g, h[i].at)
    decreases k
  {
    NextPoll(x, h, k);
    if k == i {
      CandidateInPast(x, h[..k], h[k].at);
      AloneStep(x, After(x, h[..k]), g, h[k].at, h[k].at);
    } else {
      AloneGoesOn(x, h, g, i, k - 1);
      AloneStep(x, After(x, h[..k]), g, h[k].at, h[i].at);
    }
  }

  // An endpoint that is seen alone over the window is then the stable one.
  lemma SeenIsConfirmed(x: Expected, h: seq<TimedPoll>, g: seq<uint8>, i: nat, j: nat)
    requires x.windowNs > 0 && TimeOrdered(h) && SeenAlone(x, h, g, i, j)
    ensures After(x, h[..j + 1]).stable == Some(g) && After(x, h[..j + 1]).current == Snapshot(Healthy, Some(g))
  {
    assert i < j;
    AloneGoesOn(x, h, g, i, j - 1);
    NextPoll(x, h, j);
    AloneStep(x, After(x, h[..j]), g, h[j].at, h[i].at);
  }

  ghost predicate OverWindow(x: Expected, h: seq<TimedPoll>, g: seq<uint8>, j: nat) {
    exists i: nat :: SeenAlone(x, h, g, i, j)
  }

  ghost predicate EverSeen(x: Expected, h: seq<TimedPoll>) {
    exists g: seq<uint8>, i: nat, j: nat :: SeenAlone(x, h, g, i, j)
  }

  lemma {:induction false} StaysConfirmed(x: Expected, h: seq<TimedPoll>, n: nat)
    requires n <= |h| && After(x, h[..n]).everConfirmed
    ensures After(x, h).everConfirmed
    decreases |h| - n
  {
    if n == |h| {
      assert h[..n] == h;
    } else {
      NextPoll(x, h, n);
      StaysConfirmed(x, h, n + 1);
    }
  }

  // Some endpoint was confirmed exactly when one was seen alone over the
  // window.
  lemma ConfirmedExactly(x: Expected, h: seq<TimedPoll>)
    requires x.windowNs > 0 && TimeOrdered(h)
    ensures After(x, h).everConfirmed <==> EverSeen(x, h)
  {
    HistoryTold(x, h);
    if g: seq<uint8>, i: nat, j: nat :| SeenAlone(x, h, g, i, j) {
      SeenIsConfirmed(x, h, g, i, j);
      HistoryTold(x, h[..j + 1]);
      StaysConfirmed(x, h, j + 1);
    }
  }

  // The newest poll decides what is reported. An endpoint that is alone is
  // healthy if it is the stable one or was seen alone over the window, and
  // stabilizing otherwise; several are ambiguous; and with nobody the stable
  // endpoint, if there is one, stays healthy until the timeout, after which it
  // is timed out, or unavailable if the role is played or none was ever
  // confirmed.
  lemma ReportedExactly(x: Expected, h: seq<TimedPoll>)
    requires x.windowNs > 0 && TimeOrdered(h) && h != []
    ensures var n := |h| - 1;
            var stable, report := After(x, h[..n]).stable, After(x, h).current;
            match h[n].poll
            case Several => report == Snapshot(Ambiguous, None)
            case Alone(g) =>
              report == if stable == Some(g) || OverWindow(x, h, g, n) then Snapshot(Healthy, Some(g))
                        else Snapshot(Stabilizing, None)
            case Nobody(rolePresent) =>
              report == if !rolePresent && stable.Some? && StillFresh(x, h[..n], stable.value, h[n].at)
                        then Snapshot(Healthy, stable)
                        else if !rolePresent && EverSeen(x, h[..n]) then Snapshot(TimedOut, None)
                        else Snapshot(Unavailable, None)
  {
    var n := |h| - 1;
    match h[n].poll
    case Several =>
    case Alone(g) => AloneReported(x, h, g);
    case Nobody(rolePresent) =>
      ConfirmedExactly(x, h[..n]);
      if After(x, h[..n]).stable.Some? {
        LastConfirmed(x, h[..n], After(x, h[..n]).stable.value, h[n].at);
      }
  }

  // The last poll that saw g alone is no older than the timeout.
  ghost predicate StillFresh(x: Expected, h: seq<TimedPoll>, g: seq<uint8>, at: int) {
    exists m: nat :: LastSeen(h, g, m) && at - h[m].at <= x.timeoutNs
  }

  lemma LastConfirmed(x: Expected, h: seq<TimedPoll>, g: seq<uint8>, at: int)
    requires After(x, h).stable == Some(g)
    ensures After(x, h).lastConfirmedAt.Some?
    ensures StillFresh(x, h, g, at) <==> at - After(x, h).lastConfirmedAt.value <= x.timeoutNs
  {
    HistoryTold(x, h);
    var m: nat :| LastSeen(h, g, m) && h[m].at == After(x, h).lastConfirmedAt.value;
    forall k: nat | LastSeen(h, g, k)
      ensures k == m
    {
      LastSeenUnique(h, g, m, k);
    }
  }

  lemma AloneReported(x: Expected, h: seq<TimedPoll>, g: seq<uint8>)
    requires x.windowNs > 0 && TimeOrdered(h) && h != [] && h[|h| - 1].poll == Alone(g)
    ensures After(x, h).current ==
            if After(x, h[..|h| - 1]).stable == Some(g) || OverWindow(x, h, g, |h| - 1)
            then Snapshot(Healthy, Some(g)) else Snapshot(Stabilizing, None)
  {
    var n := |h| - 1;
    var before := After(x, h[..n]);
    assert h[..n + 1] == h;
    NextPoll(x, h, n);
    AloneShown(x, before, g, h[n].at);
    if i: nat :| SeenAlone(x, h, g, i, n) {
      SeenIsConfirmed(x, h, g, i, n);
    } else if before.candidate.Some? && before.candidate.value.gid == g {
      CandidateOf(x, h[..n]);
      NotOverWindow(x, h, before.candidate.value);
    }
  }

  lemma CandidateOf(x: Expected, h: seq<TimedPoll>)
    requires After(x, h).candidate.Some?
    ensures CandidateSeen(h, After(x, h).candidate.value)
  {
    HistoryTold(x, h);
  }

  lemma AloneShown(x: Expected, s: MonitorState, g: seq<uint8>, at: int)
    ensures Step(x, s, Alone(g), at).current ==
            if || s.stable == Some(g)
               || (s.candidate.Some? && s.candidate.value.gid == g && at - s.candidate.value.since >= x.windowNs)
            then Snapshot(Healthy, Some(g)) else Snapshot(Stabilizing, None)
  {
  }

  lemma NotOverWindow(x: Expected, h: seq<TimedPoll>, c: Candidate)
    requires h != [] && h[|h| - 1].poll == Alone(c.gid) && CandidateSeen(h[..|h| - 1], c)
    requires !OverWindow(x, h, c.gid, |h| - 1)
    ensures h[|h| - 1].at - c.since < x.windowNs
  {
    CandidateGrows(h, c);
    var i: nat :| i < |h| && h[i].at == c.since && forall k :: i <= k < |h| ==> h[k].poll == Alone(c.gid);
    assert !SeenAlone(x, h, c.gid, i, |h| - 1);
  }

  // The stable endpoint ends with a poll that finds the role played by another
  // or nobody for longer than the timeout, and with another that is seen alone
  // over the window; and with nothing else.
  lemma StableExactly(x: Expected, h: seq<TimedPoll>, g: seq<uint8>)
    requires x.windowNs > 0 && TimeOrdered(h) && h != [] && After(x, h[..|h| - 1]).stable == Some(g)
    ensures var n := |h| - 1;
            After(x, h).stable ==
            match h[n].poll
            case Several => Some(g)
            case Nobody(rolePresent) =>
              if rolePresent || !StillFresh(x, h[..n], g, h[n].at) then None else Some(g)
            case Alone(other) => if OverWindow(x, h, other, n) then Some(other) else Some(g)
  {
    var n := |h| - 1;
    LastConfirmed(x, h[..n], g, h[n].at);
    if h[n].poll.Alone? {
      AloneReported(x, h, h[n].poll.gid);
      AloneStable(x, After(x, h[..n]), h[n].poll.gid, h[n].at);
      if OverWindow(x, h, h[n].poll.gid, n) {
        var i: nat :| SeenAlone(x, h, h[n].poll.gid, i, n);
        SeenIsConfirmed(x, h, h[n].poll.gid, i, n);
        assert h[..n + 1] == h;
      }
    }
  }

  lemma AloneStable(x: Expected, s: MonitorState, g: seq<uint8>, at: int)
    ensures var t := Step(x, s, Alone(g), at);
            t.stable == if t.current.state.Healthy? then Some(g) else s.stable
  {
  }
}
