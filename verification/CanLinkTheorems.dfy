// What the CAN link promises over every interleaving of its two threads.
module CanLinkTheorems {
  import opened Common
  import opened Messages
  import opened CanCodec
  import opened CodecLaws
  import opened RollingCounter
  import opened SocketCanAdapter
  import opened CanLink
  import opened CanLinkHistory
  import opened CanLinkSafety

  // ------------------------------------------------------- counters

  function CountersOf(bus: seq<Pending>): (r: seq<uint8>)
    ensures |r| == |bus|
    ensures forall i :: 0 <= i < |bus| ==> r[i] == FrameCounter(bus[i].frame)
  {
    if bus == [] then [] else CountersOf(bus[..|bus| - 1]) + [FrameCounter(bus[|bus| - 1].frame)]
  }

  // A receiver that misses no frame calls the first one a first value and
  // every other one expected, whatever was retried or overridden on the way.
  lemma LosslessReceiver(cfg: AdapterConfig, s: LinkState)
    requires cfg.Valid() && Reachable(cfg, s)
    ensures forall i :: 0 <= i < |s.bus| ==> FrameCounter(s.bus[i].frame) == i % cfg.codec.modulo
    ensures forall i :: 0 <= i < |s.bus| ==>
              ObserveAll(cfg.codec.modulo, None, CountersOf(s.bus)).0[i] == if i == 0 then FirstValue else Expected
  {
    ReachableInv(cfg, s);
    forall i | 0 <= i < |s.bus|
      ensures FrameCounter(s.bus[i].frame) == i % cfg.codec.modulo
    {
      EncodedCounter(cfg, s.bus[i]);
    }
    LosslessStream(cfg.codec.modulo, CountersOf(s.bus));
  }

  // A receiver that loses frames: while fewer than N frames pass unseen, the
  // verdict on the next one tells whether any was skipped.
  lemma LossyReceiver(cfg: AdapterConfig, s: LinkState, i: nat, j: nat)
    requires cfg.Valid() && Reachable(cfg, s) && i < j < |s.bus| && j <= i + cfg.codec.modulo
    ensures var o := Observe(cfg.codec.modulo, Some(FrameCounter(s.bus[i].frame)), FrameCounter(s.bus[j].frame)).0;
            (o == Expected <==> j == i + 1) && (o == Duplicate <==> j == i + cfg.codec.modulo)
  {
    LosslessReceiver(cfg, s);
    LossySuccessor(cfg.codec.modulo, i, j);
  }

  // The exception on a counter that does not match is never thrown.
  lemma ConfirmationNeverThrows(cfg: AdapterConfig, s: LinkState)
    requires cfg.Valid() && Reachable(cfg, s) && s.io.Confirming?
    ensures ConfirmRegion(cfg, s.command, s.io.f.frame).Some?
  {
    ReachableInv(cfg, s);
    ConfirmKeepsCounters(cfg, s);
  }

  // ---------------------------------------------------- what is sent

  // The command accepted at `a` is still the one in force before event j.
  ghost predicate InForce(log: seq<Event>, a: nat, j: nat) {
    && a < j <= |log| && log[a].Accepted?
    && forall k :: a < k < j ==> !log[k].Accepted? && !IsClear(log[k])
  }

  // Every demanded HOLD before event j was followed by a frame before j.
  ghost predicate NoHoldOwed(log: seq<Event>, j: nat) {
    j <= |log| && forall i :: 0 <= i < j && log[i].HoldForced? ==> exists b :: i < b < j && log[b].Built?
  }

  ghost predicate Justifies(cfg: AdapterConfig, log: seq<Event>, a: nat, j: nat) {
    && j < |log| && log[j].Built? && InForce(log, a, j)
    && log[a].command.mode == MODE_NORMAL
    && 0 <= log[j].at - log[a].at <= cfg.watchdogTimeoutNs
  }

  lemma {:induction false} NotForced(log: seq<Event>)
    ensures Forced(log) <==> !NoHoldOwed(log, |log|)
    decreases |log|
  {
    if log != [] {
      var n := |log| - 1;
      NotForced(log[..n]);
      if !log[n].HoldForced? && !log[n].Built? {
        if Forced(log[..n]) {
          var i :| 0 <= i < n && log[i].HoldForced? && !exists b :: i < b < n && log[b].Built?;
          assert log[i].HoldForced? && !exists b :: i < b < n + 1 && log[b].Built?;
        } else {
          forall i | 0 <= i < n && log[i].HoldForced?
            ensures exists b :: i < b < n + 1 && log[b].Built?
          {
            assert log[..n][i].HoldForced?;
            var b :| i < b < n && log[..n][b].Built?;
            assert log[b].Built?;
          }
        }
      }
    }
  }

  lemma HeldIsInForce(log: seq<Event>, j: nat, a: nat)
    requires j <= |log|
    ensures HeldBy(log[..j]) == Some(a) <==> InForce(log, a, j)
  {
    HeldUntilSettled(log[..j]);
    if InForce(log, a, j) {
      HeldFromAccepted(log[..j], a);
    }
  }

  lemma {:induction false} HeldFromAccepted(log: seq<Event>, a: nat)
    requires a < |log| && log[a].Accepted?
    requires forall k :: a < k < |log| ==> !log[k].Accepted? && !IsClear(log[k])
    ensures HeldBy(log) == Some(a)
    decreases |log|
  {
    if a < |log| - 1 {
      HeldFromAccepted(log[..|log| - 1], a);
    }
  }

  // Each frame that is built is an ACTIVE one exactly when no HOLD is owed and
  // an accepted NORMAL command is in force whose lease is live; it then
  // carries the velocities of that command, and otherwise it is a zero HOLD.
  lemma BuiltFrameDecided(cfg: AdapterConfig, s: LinkState, j: nat)
    requires cfg.Valid() && Reachable(cfg, s) && j < |s.log| && s.log[j].Built?
    ensures var signals := s.log[j].signals;
            && (signals.mode.Active? <==> NoHoldOwed(s.log, j) && exists a: nat :: Justifies(cfg, s.log, a, j))
            && (forall a: nat :: signals.mode.Active? && Justifies(cfg, s.log, a, j) ==>
                  && signals.targetSpeed == s.log[a].command.linearVelocity
                  && signals.targetYawRate == s.log[a].command.angularVelocity
                  && MotionAllowed(s.log[a].command, CommandMode.Normal, cfg.rules))
            && (!signals.mode.Active? ==> signals.targetSpeed == signals.targetYawRate == Finite(0.0))
  {
    ReachableInv(cfg, s);
    var before := s.log[..j];
    assert SoundAt(cfg, before, s.log[j]);
    NotForced(before);
    assert Forced(before) <==> !NoHoldOwed(s.log, j) by {
      OwedBefore(s.log, j);
    }
    var held := HeldBy(before);
    forall a: nat | InForce(s.log, a, j)
      ensures held == Some(a)
    {
      HeldIsInForce(s.log, j, a);
    }
    if held.Some? {
      HeldIsInForce(s.log, j, held.value);
      assert SoundAt(cfg, s.log[..held.value], s.log[held.value]);
      assert before[held.value] == s.log[held.value];
      if s.log[j].signals.mode.Active? {
        assert Justifies(cfg, s.log, held.value, j);
      }
    }
  }

  lemma OwedBefore(log: seq<Event>, j: nat)
    requires j <= |log|
    ensures NoHoldOwed(log[..j], j) <==> NoHoldOwed(log, j)
  {
    var before := log[..j];
    forall i | 0 <= i < j && log[i].HoldForced?
      ensures (exists b :: i < b < j && before[b].Built?) <==> (exists b :: i < b < j && log[b].Built?)
    {
      if b :| i < b < j && log[b].Built? {
        assert before[b].Built?;
      }
      if b :| i < b < j && before[b].Built? {
        assert log[b].Built?;
      }
    }
    if NoHoldOwed(log, j) {
      forall i | 0 <= i < j && before[i].HoldForced?
        ensures exists b :: i < b < j && before[b].Built?
      {
        assert log[i].HoldForced?;
      }
    }
    if NoHoldOwed(before, j) {
      forall i | 0 <= i < j && log[i].HoldForced?
        ensures exists b :: i < b < j && log[b].Built?
      {
        assert before[i].HoldForced?;
      }
    }
  }

  // Once the I/O loop has taken the flag, it writes no frame that was built
  // earlier, neither a retry nor the one it was about to send.
  lemma NothingOlderThanTheFlag(cfg: AdapterConfig, s: LinkState, j: nat, k: nat)
    requires cfg.Valid() && Reachable(cfg, s) && j < k < |s.log| && s.log[j].FlagTaken? && s.log[k].Written?
    ensures var b := s.log[k].built;
            j < b < k && s.log[b].Built? && s.log[b].signals == s.log[k].signals
  {
    ReachableInv(cfg, s);
    assert SoundAt(cfg, s.log[..k], s.log[k]);
    TakenBefore(s.log[..k], j);
  }

  // After a rejection, a new gateway generation or the loss of the endpoint,
  // and the exchange that takes the flag, only zero HOLDs are written until
  // another command is accepted.
  lemma OnlyHoldsAfterAClear(cfg: AdapterConfig, s: LinkState, i: nat, j: nat, k: nat)
    requires cfg.Valid() && Reachable(cfg, s) && i < j < k < |s.log|
    requires IsClear(s.log[i]) && s.log[j].FlagTaken? && s.log[k].Written?
    requires forall a :: i < a < k ==> !s.log[a].Accepted?
    ensures s.log[k].signals.mode.Hold?
    ensures s.log[k].signals.targetSpeed == s.log[k].signals.targetYawRate == Finite(0.0)
  {
    NothingOlderThanTheFlag(cfg, s, j, k);
    var b := s.log[k].built;
    ReachableInv(cfg, s);
    assert SoundAt(cfg, s.log[..b], s.log[b]);
    ClearedIsNotHeld(s.log[..b], i);
  }

  // The first frame built after a demanded HOLD is one, even when a command
  // was accepted in between.
  lemma FirstFrameAfterDemandIsHold(cfg: AdapterConfig, s: LinkState, i: nat, b: nat)
    requires cfg.Valid() && Reachable(cfg, s) && i < b < |s.log| && s.log[i].HoldForced? && s.log[b].Built?
    requires forall k :: i < k < b ==> !s.log[k].Built?
    ensures s.log[b].signals.mode.Hold?
  {
    ReachableInv(cfg, s);
    assert SoundAt(cfg, s.log[..b], s.log[b]);
    ForcedUntilBuilt(s.log[..b], i);
  }

  // -------------------------------------------- when building can fail

  // The CAN ranges cover the velocities the contract allows, and 16 bits cover
  // the CAN ranges.
  predicate RangesCoverLimits(cfg: AdapterConfig)
    requires cfg.Valid()
  {
    && RangesFit(cfg.codec)
    && cfg.codec.speedMin <= -cfg.rules.maxAbsLinear && cfg.rules.maxAbsLinear <= cfg.codec.speedMax
    && cfg.codec.yawRateMin <= -cfg.rules.maxAbsAngular && cfg.rules.maxAbsAngular <= cfg.codec.yawRateMax
  }

  predicate Encodable(cfg: AdapterConfig, signals: CanControlSignals)
    requires cfg.Valid()
  {
    ValidateCommonSignals(cfg.codec, signals.targetSpeed, signals.targetYawRate).None?
  }

  // A frame cannot be built exactly when the velocities that the history calls
  // for lie outside the CAN ranges; the clock is never the reason.
  lemma BuildFailsExactlyOutOfRange(cfg: AdapterConfig, s: LinkState, now: int)
    requires cfg.Valid() && Reachable(cfg, s) && s.io.Building? && s.clock <= now && RangesFit(cfg.codec)
    ensures BuildRegion(cfg, s.command, now).0.Ok? <==> Encodable(cfg, SignalsFor(cfg, s.log, now))
    ensures BuildRegion(cfg, s.command, now).0.Err? ==> BuildRegion(cfg, s.command, now).0.error.EncodingFailed?
  {
    ReachableInv(cfg, s);
    DecisionIsHistory(cfg, s, now);
    EncodesExactlyInRange(cfg, SignalsFor(cfg, s.log, now));
  }

  lemma EncodesExactlyInRange(cfg: AdapterConfig, signals: CanControlSignals)
    requires cfg.Valid() && RangesFit(cfg.codec) && signals.rollingCounter < cfg.codec.modulo
    requires signals.mode.Hold? ==> signals.targetSpeed == signals.targetYawRate == Finite(0.0)
    ensures ControlFrameFor(cfg.codec, signals).Ok? <==> Encodable(cfg, signals)
  {
    if Encodable(cfg, signals) {
      QuantizeTotal(signals.targetSpeed.value, cfg.codec.speedScale, cfg.codec.speedMin, cfg.codec.speedMax);
      QuantizeTotal(signals.targetYawRate.value, cfg.codec.yawRateScale, cfg.codec.yawRateMin, cfg.codec.yawRateMax);
    }
  }

  // With ranges that cover the limits the transmit handler never throws, so
  // only the kernel or a stop ends the loop.
  lemma BuildNeverFails(cfg: AdapterConfig, s: LinkState, now: int)
    requires cfg.Valid() && Reachable(cfg, s) && s.io.Building? && s.clock <= now && RangesCoverLimits(cfg)
    requires cfg.rules.maxAbsLinear >= 0.0 && cfg.rules.maxAbsAngular >= 0.0
    ensures BuildRegion(cfg, s.command, now).0.Ok?
  {
    ReachableInv(cfg, s);
    BuildFailsExactlyOutOfRange(cfg, s, now);
  }

  // With range ends on the scale as well, every frame on the bus is accepted
  // by the receiver's decoder, with its mode and counter.
  lemma EveryWrittenFrameDecodes(cfg: AdapterConfig, s: LinkState, i: nat)
    requires cfg.Valid() && Reachable(cfg, s) && i < |s.bus| && RangesClosed(cfg.codec)
    ensures var r := DecodeControl(cfg.codec, s.bus[i].frame);
            && r.Ok? && r.value.mode == s.bus[i].signals.mode
            && r.value.rollingCounter == i % cfg.codec.modulo
  {
    ReachableInv(cfg, s);
    var signals := s.bus[i].signals;
    ClosedRangesLoseNothing(cfg.codec, signals.targetSpeed, signals.targetYawRate);
    DecodeEncodedControl(cfg.codec, signals);
  }
}
