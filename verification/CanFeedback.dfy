// When the adapter trusts the vehicle's frames: the receive path over a whole
// history of frames, timeout checks and I/O errors (socketcan_adapter.cpp,
// handle_can_frame, handle_can_error, mark_can_timeout_locked,
// compose_vehicle_state_locked).
module CanFeedback {
  import opened Common
  import opened CanCodec
  import opened RollingCounter
  import opened SocketCanAdapter
  import G = CanonicalInputGuard

  datatype FeedbackEvent =
    | FrameSeen(decoded: Result<CanVehicleStateSignals, RejectReason>, receivedAt: int)
    | TimeoutChecked(now: int)
    | IoErrorSeen(isFatal: bool)

  // A timeout check that throws leaves the state alone.
  function Step(cfg: AdapterConfig, f: FeedbackSide, e: FeedbackEvent): FeedbackSide
    requires cfg.Valid()
  {
    match e
    case FrameSeen(decoded, receivedAt) => FrameRegion(cfg, f, decoded, receivedAt)
    case IoErrorSeen(isFatal) => ErrorRegion(f, isFatal)
    case TimeoutChecked(now) =>
      match TimeoutRegion(cfg, f, now) case Some(g) => g case None => f
  }

  function After(cfg: AdapterConfig, start: int, events: seq<FeedbackEvent>): FeedbackSide
    requires cfg.Valid()
    decreases |events|
  {
    if events == [] then InitialFeedbackSide(start)
    else Step(cfg, After(cfg, start, events[..|events| - 1]), events[|events| - 1])
  }

  // The frame is a valid one with the counter expected of it.
  predicate IsAccepted(cfg: AdapterConfig, f: FeedbackSide, e: FeedbackEvent)
    requires cfg.Valid()
  {
    e.FrameSeen? && e.decoded.Ok? &&
    IsTrusted(Observe(cfg.codec.modulo, f.baseline, e.decoded.value.stateCounter).0)
  }

  // The events that take the link down.
  predicate Drops(cfg: AdapterConfig, f: FeedbackSide, e: FeedbackEvent) {
    (e.IoErrorSeen? && e.isFatal) ||
    (e.TimeoutChecked? && e.now - TimeoutReference(f) >= cfg.stateTimeoutNs)
  }

  // The events that interrupt a recovery: a refused frame does, although it
  // does not take a healthy link down.
  predicate Breaks(cfg: AdapterConfig, f: FeedbackSide, e: FeedbackEvent)
    requires cfg.Valid()
  {
    Drops(cfg, f, e) || (e.FrameSeen? && !IsAccepted(cfg, f, e))
  }

  ghost predicate AcceptedAt(cfg: AdapterConfig, start: int, events: seq<FeedbackEvent>, i: nat)
    requires cfg.Valid() && i < |events|
  {
    IsAccepted(cfg, After(cfg, start, events[..i]), events[i])
  }

  ghost predicate BrokenAt(cfg: AdapterConfig, start: int, events: seq<FeedbackEvent>, i: nat)
    requires cfg.Valid() && i < |events|
  {
    Breaks(cfg, After(cfg, start, events[..i]), events[i])
  }

  ghost predicate DroppedAt(cfg: AdapterConfig, start: int, events: seq<FeedbackEvent>, i: nat)
    requires cfg.Valid() && i < |events|
  {
    Drops(cfg, After(cfg, start, events[..i]), events[i])
  }

  // The positions of the accepted frames among the first n events, since the
  // last interruption.
  ghost function Recovery(cfg: AdapterConfig, start: int, events: seq<FeedbackEvent>, n: nat): (r: seq<nat>)
    requires cfg.Valid() && n <= |events|
    ensures forall k :: 0 <= k < |r| ==> r[k] < n
  {
    if n == 0 || BrokenAt(cfg, start, events, n - 1) then []
    else
      var before := Recovery(cfg, start, events, n - 1);
      if AcceptedAt(cfg, start, events, n - 1) then before + [n - 1] else before
  }

  predicate HasCounter(e: FeedbackEvent) {
    e.FrameSeen? && e.decoded.Ok?
  }

  function CounterOf(e: FeedbackEvent): uint8
    requires HasCounter(e)
  {
    e.decoded.value.stateCounter
  }

  // Accepted frames in order, uninterrupted from the first one to the end of
  // the first n events, none left out, each counter following the one before.
  ghost predicate IsRecovery(cfg: AdapterConfig, start: int, events: seq<FeedbackEvent>, n: nat, run: seq<nat>)
    requires cfg.Valid() && n <= |events|
  {
    && (forall k :: 0 <= k < |run| ==> run[k] < n && AcceptedAt(cfg, start, events, run[k]))
    && (run != [] ==> forall i :: run[0] <= i < n ==> !BrokenAt(cfg, start, events, i))
    && (forall k :: 0 < k < |run| ==> Follows(cfg, start, events, run[k - 1], run[k]))
    && (run != [] ==> NoneAccepted(cfg, start, events, run[|run| - 1], n))
  }

  ghost predicate NoneAccepted(cfg: AdapterConfig, start: int, events: seq<FeedbackEvent>, i: nat, n: nat)
    requires cfg.Valid() && n <= |events|
  {
    forall k :: i < k < n ==> !AcceptedAt(cfg, start, events, k)
  }

  // The frames at i and j are accepted one after the other, and the counter of
  // the second is one more than that of the first.
  ghost predicate Follows(cfg: AdapterConfig, start: int, events: seq<FeedbackEvent>, i: nat, j: nat)
    requires cfg.Valid() && i < |events| && j < |events| && HasCounter(events[i]) && HasCounter(events[j])
  {
    && i < j && NoneAccepted(cfg, start, events, i, j)
    && CounterOf(events[j]) == (CounterOf(events[i]) + 1) % cfg.codec.modulo
  }

  lemma BaselineAfter(cfg: AdapterConfig, f: FeedbackSide, e: FeedbackEvent)
    requires cfg.Valid() && !Breaks(cfg, f, e)
    ensures IsAccepted(cfg, f, e) ==>
              && HasCounter(e) && Step(cfg, f, e).baseline == Some(CounterOf(e))
              && (f.baseline.Some? ==> CounterOf(e) == (f.baseline.value + 1) % cfg.codec.modulo)
    ensures !IsAccepted(cfg, f, e) ==> Step(cfg, f, e).baseline == f.baseline
  {
  }

  lemma AfterNext(cfg: AdapterConfig, start: int, events: seq<FeedbackEvent>, n: nat)
    requires cfg.Valid() && n < |events|
    ensures After(cfg, start, events[..n + 1]) == Step(cfg, After(cfg, start, events[..n]), events[n])
  {
    assert events[..n + 1][..n] == events[..n];
  }

  lemma QuietEvent(cfg: AdapterConfig, start: int, events: seq<FeedbackEvent>, n: nat, run: seq<nat>)
    requires cfg.Valid() && n < |events| && IsRecovery(cfg, start, events, n, run)
    requires !BrokenAt(cfg, start, events, n) && !AcceptedAt(cfg, start, events, n)
    ensures IsRecovery(cfg, start, events, n + 1, run)
  {
  }

  lemma NextFrame(cfg: AdapterConfig, start: int, events: seq<FeedbackEvent>, n: nat, run: seq<nat>)
    requires cfg.Valid() && n < |events| && IsRecovery(cfg, start, events, n, run)
    requires !BrokenAt(cfg, start, events, n) && AcceptedAt(cfg, start, events, n)
    requires run != [] ==>
               CounterOf(events[n]) == (CounterOf(events[run[|run| - 1]]) + 1) % cfg.codec.modulo
    ensures IsRecovery(cfg, start, events, n + 1, run + [n])
  {
    if run != [] {
      assert Follows(cfg, start, events, run[|run| - 1], n);
    }
  }

  // The checker's baseline is the counter of the last frame of the run.
  ghost predicate EndsAtBaseline(cfg: AdapterConfig, start: int, events: seq<FeedbackEvent>, n: nat, run: seq<nat>)
    requires cfg.Valid() && n <= |events|
  {
    run != [] ==>
      && run[|run| - 1] < n && HasCounter(events[run[|run| - 1]])
      && After(cfg, start, events[..n]).baseline == Some(CounterOf(events[run[|run| - 1]]))
  }

  lemma RecoveryGoesOn(cfg: AdapterConfig, start: int, events: seq<FeedbackEvent>, m: nat, run: seq<nat>)
    requires cfg.Valid() && m < |events| && !BrokenAt(cfg, start, events, m)
    requires IsRecovery(cfg, start, events, m, run) && EndsAtBaseline(cfg, start, events, m, run)
    ensures var longer := if AcceptedAt(cfg, start, events, m) then run + [m] else run;
            IsRecovery(cfg, start, events, m + 1, longer) && EndsAtBaseline(cfg, start, events, m + 1, longer)
  {
    AfterNext(cfg, start, events, m);
    BaselineAfter(cfg, After(cfg, start, events[..m]), events[m]);
    if AcceptedAt(cfg, start, events, m) {
      NextFrame(cfg, start, events, m, run);
    } else {
      QuietEvent(cfg, start, events, m, run);
    }
  }

  lemma {:induction false} RecoveryIsOne(cfg: AdapterConfig, start: int, events: seq<FeedbackEvent>, n: nat)
    requires cfg.Valid() && n <= |events|
    ensures IsRecovery(cfg, start, events, n, Recovery(cfg, start, events, n))
    ensures EndsAtBaseline(cfg, start, events, n, Recovery(cfg, start, events, n))
  {
    if n == 0 || BrokenAt(cfg, start, events, n - 1) {
      NoFramesYet(cfg, start, events, n);
    } else {
      RecoveryIsOne(cfg, start, events, n - 1);
      RecoveryGoesOn(cfg, start, events, n - 1, Recovery(cfg, start, events, n - 1));
    }
  }

  lemma NoFramesYet(cfg: AdapterConfig, start: int, events: seq<FeedbackEvent>, n: nat)
    requires cfg.Valid() && n <= |events|
    ensures IsRecovery(cfg, start, events, n, []) && EndsAtBaseline(cfg, start, events, n, [])
  {
  }

  // ------------------------------------------------ when the link is healthy

  lemma StepHealth(cfg: AdapterConfig, f: FeedbackSide, e: FeedbackEvent)
    requires cfg.Valid()
    ensures var g := Step(cfg, f, e);
            && (Drops(cfg, f, e) ==> !g.linkHealthy && g.recoveryCount == 0)
            && (f.linkHealthy && !Drops(cfg, f, e) ==> g.linkHealthy)
            && (!f.linkHealthy && Breaks(cfg, f, e) ==> !g.linkHealthy && g.recoveryCount == 0)
            && (!f.linkHealthy && !Breaks(cfg, f, e) && !IsAccepted(cfg, f, e) ==>
                  !g.linkHealthy && g.recoveryCount == f.recoveryCount)
            && (!f.linkHealthy && IsAccepted(cfg, f, e) && f.recoveryCount < cfg.recoveryValidFrames ==>
                  g.recoveryCount == f.recoveryCount + 1 &&
                  (g.linkHealthy <==> g.recoveryCount >= cfg.recoveryValidFrames))
  {
  }

  // The first n events contain a complete recovery after which nothing took
  // the link down.
  ghost predicate Recovered(cfg: AdapterConfig, start: int, events: seq<FeedbackEvent>, n: nat)
    requires cfg.Valid() && n <= |events|
  {
    exists m :: 0 <= m <= n && |Recovery(cfg, start, events, m)| >= cfg.recoveryValidFrames
                && forall i :: m <= i < n ==> !DroppedAt(cfg, start, events, i)
  }

  lemma {:induction false} HealthIsRecovery(cfg: AdapterConfig, start: int, events: seq<FeedbackEvent>, n: nat)
    requires cfg.Valid() && n <= |events|
    ensures var f := After(cfg, start, events[..n]);
            && (f.linkHealthy <==> Recovered(cfg, start, events, n))
            && (!f.linkHealthy ==>
                  f.recoveryCount == |Recovery(cfg, start, events, n)| < cfg.recoveryValidFrames)
  {
    if n > 0 {
      HealthIsRecovery(cfg, start, events, n - 1);
      AfterNext(cfg, start, events, n - 1);
      StepHealth(cfg, After(cfg, start, events[..n - 1]), events[n - 1]);
      RecoveredNext(cfg, start, events, n);
    }
  }

  lemma RecoveredNext(cfg: AdapterConfig, start: int, events: seq<FeedbackEvent>, n: nat)
    requires cfg.Valid() && 0 < n <= |events|
    ensures Recovered(cfg, start, events, n) <==>
            || |Recovery(cfg, start, events, n)| >= cfg.recoveryValidFrames
            || (Recovered(cfg, start, events, n - 1) && !DroppedAt(cfg, start, events, n - 1))
  {
  }

  // The link is healthy exactly when, at some point of the history, at least
  // `recoveryValidFrames` accepted frames with successive counters had come in
  // without an interruption, and no timeout or fatal error was seen since.
  lemma HealthyExactlyWhen(cfg: AdapterConfig, start: int, events: seq<FeedbackEvent>)
    requires cfg.Valid()
    ensures After(cfg, start, events).linkHealthy <==>
            exists m, run :: 0 <= m <= |events| && IsRecovery(cfg, start, events, m, run)
                             && |run| >= cfg.recoveryValidFrames
                             && forall i :: m <= i < |events| ==> !DroppedAt(cfg, start, events, i)
  {
    var n := |events|;
    assert events[..n] == events;
    HealthIsRecovery(cfg, start, events, n);
    if Recovered(cfg, start, events, n) {
      var m :| 0 <= m <= n && |Recovery(cfg, start, events, m)| >= cfg.recoveryValidFrames
               && forall i :: m <= i < n ==> !DroppedAt(cfg, start, events, i);
      RecoveryIsOne(cfg, start, events, m);
    }
    if m, run :| 0 <= m <= n && IsRecovery(cfg, start, events, m, run) && |run| >= cfg.recoveryValidFrames
                 && forall i :: m <= i < n ==> !DroppedAt(cfg, start, events, i) {
      RecoveryIsLongest(cfg, start, events, m, run);
    }
  }

  lemma {:induction false} RecoveryIsLongest(cfg: AdapterConfig, start: int, events: seq<FeedbackEvent>, n: nat, run: seq<nat>)
    requires cfg.Valid() && n <= |events| && IsRecovery(cfg, start, events, n, run)
    ensures |run| <= |Recovery(cfg, start, events, n)|
    decreases n
  {
    if run != [] {
      assert run[0] < n;
      var m := n - 1;
      IncreasingRun(cfg, start, events, n, run, |run| - 1);
      assert !BrokenAt(cfg, start, events, m);
      if run[|run| - 1] == m {
        ShorterRun(cfg, start, events, n, run);
        RecoveryIsLongest(cfg, start, events, m, run[..|run| - 1]);
      } else {
        UnfinishedRun(cfg, start, events, n, run);
        RecoveryIsLongest(cfg, start, events, m, run);
      }
    }
  }

  lemma ShorterRun(cfg: AdapterConfig, start: int, events: seq<FeedbackEvent>, n: nat, run: seq<nat>)
    requires cfg.Valid() && 0 < n <= |events| && IsRecovery(cfg, start, events, n, run)
    requires run != [] && run[|run| - 1] == n - 1
    ensures IsRecovery(cfg, start, events, n - 1, run[..|run| - 1])
  {
    var shorter := run[..|run| - 1];
    forall k | 0 <= k < |shorter|
      ensures shorter[k] < n - 1 && AcceptedAt(cfg, start, events, shorter[k])
    {
      IncreasingRun(cfg, start, events, n, run, |run| - 1);
      assert shorter[k] == run[k];
    }
    forall k | 0 < k < |shorter|
      ensures Follows(cfg, start, events, shorter[k - 1], shorter[k])
    {
      assert Follows(cfg, start, events, run[k - 1], run[k]);
    }
    if |run| > 1 {
      assert Follows(cfg, start, events, run[|run| - 2], n - 1);
    }
  }

  lemma UnfinishedRun(cfg: AdapterConfig, start: int, events: seq<FeedbackEvent>, n: nat, run: seq<nat>)
    requires cfg.Valid() && 0 < n <= |events| && IsRecovery(cfg, start, events, n, run)
    requires run != [] && run[|run| - 1] < n - 1
    ensures IsRecovery(cfg, start, events, n - 1, run)
  {
    IncreasingRun(cfg, start, events, n, run, |run| - 1);
  }

  lemma {:induction false} IncreasingRun(cfg: AdapterConfig, start: int, events: seq<FeedbackEvent>, n: nat, run: seq<nat>, k: nat)
    requires cfg.Valid() && n <= |events| && IsRecovery(cfg, start, events, n, run) && k < |run|
    ensures forall j :: 0 <= j < k ==> run[j] < run[k]
  {
    if k > 0 {
      IncreasingRun(cfg, start, events, n, run, k - 1);
    }
  }

  // ---------------------------------------------------- what is published

  // A fatal I/O error is never forgotten: from then on the published state is
  // a safe stop with the I/O fault, whatever arrives on the bus.
  lemma {:induction false} FatalForGood(cfg: AdapterConfig, start: int, events: seq<FeedbackEvent>, i: nat,
                                        c: CommandSide, now: int)
    requires cfg.Valid() && i < |events| && events[i] == IoErrorSeen(true)
    ensures After(cfg, start, events).fatal
    ensures var v := Compose(cfg, c, After(cfg, start, events), now);
            v.Some? && v.value.state == StateSafeStop && v.value.fault == AdasCanIo
    decreases |events|
  {
    if i < |events| - 1 {
      FatalForGood(cfg, start, events[..|events| - 1], i, c, now);
    }
  }

  // Anything but a safe stop is published only over a recovered link with no
  // fatal error behind it, and a state without a fault only while the canonical
  // command is live too.
  lemma OperationalOnlyWhenRecovered(cfg: AdapterConfig, start: int, events: seq<FeedbackEvent>, c: CommandSide, now: int)
    requires cfg.Valid()
    requires var v := Compose(cfg, c, After(cfg, start, events), now); v.Some? && !v.value.state.StateSafeStop?
    ensures Recovered(cfg, start, events, |events|)
    ensures forall i :: 0 <= i < |events| ==> events[i] != IoErrorSeen(true)
    ensures var v := Compose(cfg, c, After(cfg, start, events), now).value;
            !v.state.StateFault? ==>
              && v.fault == FaultNone && c.endpointState.Confirmed? && c.latest.Some? && c.lease.Some?
              && 0 <= now - c.lease.value <= cfg.watchdogTimeoutNs
  {
    assert events[..|events|] == events;
    HealthIsRecovery(cfg, start, events, |events|);
    forall i | 0 <= i < |events|
      ensures events[i] != IoErrorSeen(true)
    {
      if events[i] == IoErrorSeen(true) {
        FatalForGood(cfg, start, events, i, c, now);
      }
    }
  }

  // The reject reasons that say nothing of the command itself.
  predicate BlamesEndpoint(reason: G.CanonicalReject) {
    reason.EndpointUnavailable? || reason.EndpointUnstable?
  }

  // Composing the fault throws exactly when no ambiguity or refused command
  // settles it first and the clock is behind the lease, or the lease outlived
  // the command it was given for.
  lemma FaultThrowsExactly(cfg: AdapterConfig, c: CommandSide, now: int)
    ensures CanonicalFault(cfg, c, now).None? <==>
            && !c.endpointState.Ambiguous? && (c.lastReject.Some? ==> BlamesEndpoint(c.lastReject.value))
            && c.lease.Some?
            && (|| now < c.lease.value
                || (c.endpointState.Confirmed? && c.latest.None? && now - c.lease.value <= cfg.watchdogTimeoutNs))
  {
  }
}
