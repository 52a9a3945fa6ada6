// What the receive path keeps and publishes, read off the history of events
// alone (control_link_adapters/src/socketcan_adapter.cpp).
module FeedbackLaws {
  import opened Common
  import opened RollingCounter
  import opened SocketCanAdapter
  import opened CanFeedback
  import G = CanonicalInputGuard

  // ---------------------------------------------- the last accepted frame

  // The frame at i is the last one accepted among the first n events.
  ghost predicate LastAccepted(cfg: AdapterConfig, start: int, events: seq<FeedbackEvent>, n: nat, i: nat)
    requires cfg.Valid() && n <= |events|
  {
    i < n && AcceptedAt(cfg, start, events, i) && NoneAccepted(cfg, start, events, i, n)
  }

  ghost predicate NothingAccepted(cfg: AdapterConfig, start: int, events: seq<FeedbackEvent>, n: nat)
    requires cfg.Valid() && n <= |events|
  {
    forall i :: 0 <= i < n ==> !AcceptedAt(cfg, start, events, i)
  }

  function Snapshot(e: FeedbackEvent): ValidCanState
    requires HasCounter(e)
  {
    ValidCanState(e.decoded.value, e.receivedAt)
  }

  lemma StepKeeps(cfg: AdapterConfig, f: FeedbackSide, e: FeedbackEvent)
    requires cfg.Valid()
    ensures IsAccepted(cfg, f, e) ==> HasCounter(e) && Step(cfg, f, e).latestState == Some(Snapshot(e))
    ensures !IsAccepted(cfg, f, e) ==> Step(cfg, f, e).latestState == f.latestState
  {
  }

  lemma EventKeeps(cfg: AdapterConfig, start: int, events: seq<FeedbackEvent>, n: nat)
    requires cfg.Valid() && n < |events|
    ensures AcceptedAt(cfg, start, events, n) ==>
              HasCounter(events[n]) && After(cfg, start, events[..n + 1]).latestState == Some(Snapshot(events[n]))
    ensures !AcceptedAt(cfg, start, events, n) ==>
              After(cfg, start, events[..n + 1]).latestState == After(cfg, start, events[..n]).latestState
  {
    AfterNext(cfg, start, events, n);
    StepKeeps(cfg, After(cfg, start, events[..n]), events[n]);
  }

  lemma {:induction false} NothingKept(cfg: AdapterConfig, start: int, events: seq<FeedbackEvent>, n: nat)
    requires cfg.Valid() && n <= |events| && NothingAccepted(cfg, start, events, n)
    ensures After(cfg, start, events[..n]).latestState.None?
  {
    if n > 0 {
      NothingKept(cfg, start, events, n - 1);
      assert !AcceptedAt(cfg, start, events, n - 1);
      EventKeeps(cfg, start, events, n - 1);
    }
  }

  // The state that is kept has the signals and the receive time of the last
  // accepted frame.
  lemma {:induction false} KeepsLastAccepted(cfg: AdapterConfig, start: int, events: seq<FeedbackEvent>, n: nat, i: nat)
    requires cfg.Valid() && n <= |events| && LastAccepted(cfg, start, events, n, i)
    ensures HasCounter(events[i])
    ensures After(cfg, start, events[..n]).latestState ==
            Some(ValidCanState(events[i].decoded.value, events[i].receivedAt))
    decreases n
  {
    EventKeeps(cfg, start, events, n - 1);
    if i < n - 1 {
      assert !AcceptedAt(cfg, start, events, n - 1);
      KeepsLastAccepted(cfg, start, events, n - 1, i);
    }
  }

  // So it is there exactly when a frame was accepted.
  lemma KeepsIfAccepted(cfg: AdapterConfig, start: int, events: seq<FeedbackEvent>, n: nat)
    requires cfg.Valid() && n <= |events|
    ensures After(cfg, start, events[..n]).latestState.None? <==> NothingAccepted(cfg, start, events, n)
  {
    if NothingAccepted(cfg, start, events, n) {
      NothingKept(cfg, start, events, n);
    } else {
      var i := SomeLastAccepted(cfg, start, events, n);
      KeepsLastAccepted(cfg, start, events, n, i);
    }
  }

  lemma {:induction false} SomeLastAccepted(cfg: AdapterConfig, start: int, events: seq<FeedbackEvent>, n: nat)
    returns (i: nat)
    requires cfg.Valid() && n <= |events| && !NothingAccepted(cfg, start, events, n)
    ensures LastAccepted(cfg, start, events, n, i)
  {
    if AcceptedAt(cfg, start, events, n - 1) {
      i := n - 1;
    } else {
      i := SomeLastAccepted(cfg, start, events, n - 1);
    }
  }

  // ------------------------------------------------------------- timeouts

  // At `now` nothing was accepted for the timeout: not since the start, and not
  // since the last accepted frame.
  ghost predicate Silent(cfg: AdapterConfig, start: int, events: seq<FeedbackEvent>, n: nat, now: int)
    requires cfg.Valid() && n <= |events|
  {
    && (NothingAccepted(cfg, start, events, n) ==> now - start >= cfg.stateTimeoutNs)
    && forall i: nat :: LastAccepted(cfg, start, events, n, i) ==>
         HasCounter(events[i]) && now - events[i].receivedAt >= cfg.stateTimeoutNs
  }

  lemma {:induction false} StartIsKept(cfg: AdapterConfig, start: int, events: seq<FeedbackEvent>)
    requires cfg.Valid()
    ensures After(cfg, start, events).monitorStartedAt == start
    decreases |events|
  {
    if events != [] {
      StartIsKept(cfg, start, events[..|events| - 1]);
    }
  }

  // What takes the link down is a fatal error, or a check that finds silence;
  // and a recovery is interrupted by either, and by every refused frame.
  lemma DroppedExactly(cfg: AdapterConfig, start: int, events: seq<FeedbackEvent>, n: nat)
    requires cfg.Valid() && n < |events|
    ensures DroppedAt(cfg, start, events, n) <==>
            || events[n] == IoErrorSeen(true)
            || (events[n].TimeoutChecked? && Silent(cfg, start, events, n, events[n].now))
    ensures BrokenAt(cfg, start, events, n) <==>
            DroppedAt(cfg, start, events, n) || (events[n].FrameSeen? && !AcceptedAt(cfg, start, events, n))
  {
    KeepsIfAccepted(cfg, start, events, n);
    StartIsKept(cfg, start, events[..n]);
    forall i: nat | LastAccepted(cfg, start, events, n, i)
      ensures HasCounter(events[i])
      ensures After(cfg, start, events[..n]).latestState ==
              Some(ValidCanState(events[i].decoded.value, events[i].receivedAt))
    {
      KeepsLastAccepted(cfg, start, events, n, i);
    }
    if !NothingAccepted(cfg, start, events, n) {
      var i := SomeLastAccepted(cfg, start, events, n);
    }
  }

  // ------------------------------------------------ which frame is accepted

  // The event at k makes the adapter forget the counter of the frame at i: a
  // fatal error, a check that finds silence since that frame, or a frame whose
  // counter is neither that one nor out of range.
  predicate Forgets(cfg: AdapterConfig, events: seq<FeedbackEvent>, k: nat, i: nat)
    requires cfg.Valid() && k < |events| && i < |events| && HasCounter(events[i])
  {
    || events[k] == IoErrorSeen(true)
    || (events[k].TimeoutChecked? && events[k].now - events[i].receivedAt >= cfg.stateTimeoutNs)
    || (HasCounter(events[k]) && CounterOf(events[k]) < cfg.codec.modulo && CounterOf(events[k]) != CounterOf(events[i]))
  }

  ghost predicate Remembered(cfg: AdapterConfig, start: int, events: seq<FeedbackEvent>, n: nat, i: nat)
    requires cfg.Valid() && n <= |events|
  {
    && LastAccepted(cfg, start, events, n, i) && HasCounter(events[i])
    && forall k :: i < k < n ==> !Forgets(cfg, events, k, i)
  }

  // Once a timeout was found, nothing is left to forget.
  predicate ForgotOnTimeout(f: FeedbackSide) {
    f.timedOut ==> f.baseline.None?
  }

  lemma CounterStep(cfg: AdapterConfig, f: FeedbackSide, e: FeedbackEvent)
    requires cfg.Valid() && ForgotOnTimeout(f)
    ensures ForgotOnTimeout(Step(cfg, f, e))
    ensures IsAccepted(cfg, f, e) <==>
            && HasCounter(e) && CounterOf(e) < cfg.codec.modulo
            && (f.baseline.Some? ==> CounterOf(e) == (f.baseline.value + 1) % cfg.codec.modulo)
    ensures IsAccepted(cfg, f, e) ==> Step(cfg, f, e).baseline == Some(CounterOf(e))
    ensures !IsAccepted(cfg, f, e) && f.baseline.None? ==> Step(cfg, f, e).baseline.None?
    ensures !IsAccepted(cfg, f, e) && f.baseline.Some? ==>
              Step(cfg, f, e).baseline ==
              if || e == IoErrorSeen(true)
                 || (e.TimeoutChecked? && e.now - TimeoutReference(f) >= cfg.stateTimeoutNs)
                 || (HasCounter(e) && CounterOf(e) < cfg.codec.modulo && CounterOf(e) != f.baseline.value)
              then None else f.baseline
  {
    if f.baseline.Some? && f.baseline.value < cfg.codec.modulo {
      NextCounter(f.baseline.value, cfg.codec.modulo);
    }
  }

  lemma {:induction false} TimeoutsForget(cfg: AdapterConfig, start: int, events: seq<FeedbackEvent>)
    requires cfg.Valid()
    ensures ForgotOnTimeout(After(cfg, start, events))
    decreases |events|
  {
    if events != [] {
      TimeoutsForget(cfg, start, events[..|events| - 1]);
      CounterStep(cfg, After(cfg, start, events[..|events| - 1]), events[|events| - 1]);
    }
  }

  lemma EventCounts(cfg: AdapterConfig, start: int, events: seq<FeedbackEvent>, n: nat)
    requires cfg.Valid() && n < |events|
    ensures var f := After(cfg, start, events[..n]);
            ForgotOnTimeout(f) && After(cfg, start, events[..n + 1]) == Step(cfg, f, events[n])
  {
    AfterNext(cfg, start, events, n);
    TimeoutsForget(cfg, start, events[..n]);
  }

  lemma {:induction false} NothingRemembered(cfg: AdapterConfig, start: int, events: seq<FeedbackEvent>, n: nat)
    requires cfg.Valid() && n <= |events| && NothingAccepted(cfg, start, events, n)
    ensures After(cfg, start, events[..n]).baseline.None?
  {
    if n > 0 {
      NothingRemembered(cfg, start, events, n - 1);
      assert !AcceptedAt(cfg, start, events, n - 1);
      EventCounts(cfg, start, events, n - 1);
      CounterStep(cfg, After(cfg, start, events[..n - 1]), events[n - 1]);
    }
  }

  // An event that is not accepted keeps the counter or forgets it.
  lemma BaselineNext(cfg: AdapterConfig, start: int, events: seq<FeedbackEvent>, n: nat, i: nat)
    requires cfg.Valid() && i < n < |events| && !AcceptedAt(cfg, start, events, n) && HasCounter(events[i])
    requires TimeoutReference(After(cfg, start, events[..n])) == events[i].receivedAt
    ensures var before := After(cfg, start, events[..n]).baseline;
            && (before == Some(CounterOf(events[i])) ==>
                  After(cfg, start, events[..n + 1]).baseline == if Forgets(cfg, events, n, i) then None else before)
            && (before.None? ==> After(cfg, start, events[..n + 1]).baseline.None?)
  {
    EventCounts(cfg, start, events, n);
    CounterStep(cfg, After(cfg, start, events[..n]), events[n]);
  }

  lemma BaselineFirst(cfg: AdapterConfig, start: int, events: seq<FeedbackEvent>, i: nat)
    requires cfg.Valid() && i < |events| && AcceptedAt(cfg, start, events, i)
    ensures HasCounter(events[i]) && After(cfg, start, events[..i + 1]).baseline == Some(CounterOf(events[i]))
  {
    EventCounts(cfg, start, events, i);
    CounterStep(cfg, After(cfg, start, events[..i]), events[i]);
  }

  // The counter that the next frame is held against is that of the last
  // accepted frame, as long as nothing made the adapter forget it.
  lemma {:induction false} BaselineIs(cfg: AdapterConfig, start: int, events: seq<FeedbackEvent>, n: nat, i: nat)
    requires cfg.Valid() && n <= |events| && LastAccepted(cfg, start, events, n, i)
    ensures HasCounter(events[i])
    ensures After(cfg, start, events[..n]).baseline ==
            if Remembered(cfg, start, events, n, i) then Some(CounterOf(events[i])) else None
    decreases n
  {
    if i == n - 1 {
      BaselineFirst(cfg, start, events, i);
    } else {
      BaselineIs(cfg, start, events, n - 1, i);
      KeepsLastAccepted(cfg, start, events, n - 1, i);
      BaselineNext(cfg, start, events, n - 1, i);
      RememberedNext(cfg, start, events, n, i);
    }
  }

  lemma RememberedNext(cfg: AdapterConfig, start: int, events: seq<FeedbackEvent>, n: nat, i: nat)
    requires cfg.Valid() && i + 1 < n <= |events| && LastAccepted(cfg, start, events, n, i) && HasCounter(events[i])
    ensures Remembered(cfg, start, events, n, i) <==>
            Remembered(cfg, start, events, n - 1, i) && !Forgets(cfg, events, n - 1, i)
  {
  }

  lemma AcceptedByBaseline(cfg: AdapterConfig, start: int, events: seq<FeedbackEvent>, n: nat)
    requires cfg.Valid() && n < |events|
    ensures var last := After(cfg, start, events[..n]).baseline;
            AcceptedAt(cfg, start, events, n) <==>
              && HasCounter(events[n]) && CounterOf(events[n]) < cfg.codec.modulo
              && (last.Some? ==> CounterOf(events[n]) == (last.value + 1) % cfg.codec.modulo)
  {
    EventCounts(cfg, start, events, n);
    CounterStep(cfg, After(cfg, start, events[..n]), events[n]);
  }

  // A frame is accepted exactly when it decodes, its counter is in range, and
  // it follows the counter of the last accepted frame unless that is forgotten.
  lemma AcceptedExactly(cfg: AdapterConfig, start: int, events: seq<FeedbackEvent>, n: nat)
    requires cfg.Valid() && n < |events|
    ensures AcceptedAt(cfg, start, events, n) <==>
            && HasCounter(events[n]) && CounterOf(events[n]) < cfg.codec.modulo
            && forall i: nat :: Remembered(cfg, start, events, n, i) ==>
                 CounterOf(events[n]) == (CounterOf(events[i]) + 1) % cfg.codec.modulo
  {
    AcceptedByBaseline(cfg, start, events, n);
    if NothingAccepted(cfg, start, events, n) {
      NothingRemembered(cfg, start, events, n);
    } else {
      var i := SomeLastAccepted(cfg, start, events, n);
      BaselineIs(cfg, start, events, n, i);
      OneLastAccepted(cfg, start, events, n, i);
    }
  }

  lemma OneLastAccepted(cfg: AdapterConfig, start: int, events: seq<FeedbackEvent>, n: nat, i: nat)
    requires cfg.Valid() && n <= |events| && LastAccepted(cfg, start, events, n, i)
    ensures forall j: nat :: LastAccepted(cfg, start, events, n, j) ==> j == i
  {
  }

  // ---------------------------------------------------- what is published

  // Whether the canonical command is in force, and if not, why.
  lemma CanonicalFaultIs(cfg: AdapterConfig, c: CommandSide, now: int)
    ensures var fault := CanonicalFault(cfg, c, now);
            var ambiguous := c.endpointState.Ambiguous? || c.lastReject == Some(G.EndpointAmbiguous);
            var refused := c.lastReject.Some? && !BlamesEndpoint(c.lastReject.value);
            && (fault == Some(CanonicalSourceAmbiguous) <==> ambiguous)
            && (fault == Some(CanonicalInvalid) <==> !ambiguous && refused)
            && (fault == Some(CanonicalTimeout) <==>
                  && !ambiguous && !refused
                  && (|| c.lease.None? || now - c.lease.value > cfg.watchdogTimeoutNs
                      || (now >= c.lease.value && !c.endpointState.Confirmed?)))
            && (fault == Some(FaultNone) <==>
                  && !ambiguous && !refused && c.endpointState.Confirmed? && c.latest.Some?
                  && c.lease.Some? && 0 <= now - c.lease.value <= cfg.watchdogTimeoutNs)
  {
  }

  // After a history with an accepted frame: a fatal error and a link that is
  // not recovered show a safe stop; otherwise a fault of the vehicle shows
  // first, then one of the command, and then the vehicle's own state. The
  // measured values are always those of the last accepted frame.
  lemma PublishedIs(cfg: AdapterConfig, start: int, events: seq<FeedbackEvent>, i: nat, c: CommandSide, now: int)
    requires cfg.Valid() && LastAccepted(cfg, start, events, |events|, i)
    ensures HasCounter(events[i])
    ensures var signals := events[i].decoded.value;
            var measured := Measured(signals.measuredSpeed, signals.measuredYawRate, signals.stateCounter);
            Compose(cfg, c, After(cfg, start, events), now) ==
            if exists k :: 0 <= k < |events| && events[k] == IoErrorSeen(true) then
              Some(VehicleState(StateSafeStop, AdasCanIo, measured))
            else if !Recovered(cfg, start, events, |events|) then
              Some(VehicleState(StateSafeStop, AdasCanStateTimeout, measured))
            else if signals.faultCode != 0 then
              Some(VehicleState(StateFault, VehicleReported(signals.faultCode), measured))
            else if signals.mode.Fault? then Some(VehicleState(StateFault, FaultNone, measured))
            else
              match CanonicalFault(cfg, c, now)
              case None => None
              case Some(fault) =>
                if fault != FaultNone || signals.mode.SafeStop? then Some(VehicleState(StateSafeStop, fault, measured))
                else if signals.mode.Running? then Some(VehicleState(StateRunning, FaultNone, measured))
                else Some(VehicleState(StateStandby, FaultNone, measured))
  {
    assert events[..|events|] == events;
    KeepsLastAccepted(cfg, start, events, |events|, i);
    HealthIsRecovery(cfg, start, events, |events|);
    FatalIsSeen(cfg, start, events);
  }

  // Before the first accepted frame it is a safe stop with zeros.
  lemma PublishedBefore(cfg: AdapterConfig, start: int, events: seq<FeedbackEvent>, c: CommandSide, now: int)
    requires cfg.Valid() && NothingAccepted(cfg, start, events, |events|)
    ensures Compose(cfg, c, After(cfg, start, events), now) ==
            Some(VehicleState(StateSafeStop,
                              if exists k :: 0 <= k < |events| && events[k] == IoErrorSeen(true) then AdasCanIo
                              else AdasCanStateTimeout,
                              Measured(Finite(0.0), Finite(0.0), 0)))
  {
    assert events[..|events|] == events;
    NothingKept(cfg, start, events, |events|);
    HealthIsRecovery(cfg, start, events, |events|);
    FatalIsSeen(cfg, start, events);
    NotRecovered(cfg, start, events);
  }

  lemma NotRecovered(cfg: AdapterConfig, start: int, events: seq<FeedbackEvent>)
    requires cfg.Valid() && NothingAccepted(cfg, start, events, |events|)
    ensures !Recovered(cfg, start, events, |events|)
  {
    forall m | 0 <= m <= |events|
      ensures Recovery(cfg, start, events, m) == []
    {
      RecoveryIsOne(cfg, start, events, m);
    }
  }

  lemma {:induction false} FatalIsSeen(cfg: AdapterConfig, start: int, events: seq<FeedbackEvent>)
    requires cfg.Valid()
    ensures After(cfg, start, events).fatal <==>
            exists k :: 0 <= k < |events| && events[k] == IoErrorSeen(true)
    decreases |events|
  {
    if events != [] {
      var before := events[..|events| - 1];
      FatalIsSeen(cfg, start, before);
      if After(cfg, start, before).fatal {
        var k :| 0 <= k < |before| && before[k] == IoErrorSeen(true);
        assert events[k] == IoErrorSeen(true);
      }
      if !After(cfg, start, events).fatal {
        assert forall k :: 0 <= k < |before| ==> events[k] == before[k];
      }
    }
  }

  // ------------------------------------------------------------- the counts

  ghost function AcceptedCount(cfg: AdapterConfig, start: int, events: seq<FeedbackEvent>, n: nat): nat
    requires cfg.Valid() && n <= |events|
  {
    if n == 0 then 0
    else AcceptedCount(cfg, start, events, n - 1) + if AcceptedAt(cfg, start, events, n - 1) then 1 else 0
  }

  function FrameCount(events: seq<FeedbackEvent>): nat {
    if events == [] then 0
    else FrameCount(events[..|events| - 1]) + if events[|events| - 1].FrameSeen? then 1 else 0
  }

  // Every frame is counted once, as accepted or as rejected.
  lemma {:induction false} FramesCounted(cfg: AdapterConfig, start: int, events: seq<FeedbackEvent>, n: nat)
    requires cfg.Valid() && n <= |events|
    ensures After(cfg, start, events[..n]).accepted == AcceptedCount(cfg, start, events, n)
    ensures After(cfg, start, events[..n]).accepted + After(cfg, start, events[..n]).rejected == FrameCount(events[..n])
  {
    if n > 0 {
      FramesCounted(cfg, start, events, n - 1);
      AfterNext(cfg, start, events, n - 1);
      assert events[..n][..n - 1] == events[..n - 1];
    }
  }
}
