// The adapter's state under `runtime_mutex_`, one method per lock region
// (control_link_adapters/src/socketcan_adapter.cpp). Each method is specified
// by a function on values, so that runs can be reasoned about as sequences of
// lock regions.
module SocketCanAdapter {
  import opened Common
  import opened Messages
  import opened CanCodec
  import opened RollingCounter
  import opened LocalWatchdog
  import G = CanonicalInputGuard

  datatype AdapterConfig = AdapterConfig(
    codec: CanCodecConfig,
    rules: CommandRules,
    watchdogTimeoutNs: nat,
    stateTimeoutNs: nat,
    recoveryValidFrames: nat)
  {
    // What the contract bundle and the codec constructor guarantee; a HOLD is
    // encodable only if zero lies in both ranges.
    predicate Valid() {
      codec.Valid() && recoveryValidFrames > 0
    }
  }

  // The fields that decide the next control frame.
  datatype CommandSide = CommandSide(
    endpointState: G.EndpointState,
    confirmed: Option<PublisherKey>,
    latest: Option<ControlCommand>,
    lastReject: Option<G.CanonicalReject>,
    lease: Option<int>,
    nextCounter: uint8,
    forceNextHold: bool)

  datatype ValidCanState = ValidCanState(signals: CanVehicleStateSignals, receivedAt: int)

  // The fields that decide the published vehicle state.
  datatype FeedbackSide = FeedbackSide(
    baseline: Option<uint8>,
    lastObservation: CounterObservation,
    latestState: Option<ValidCanState>,
    recoveryCount: nat,
    linkHealthy: bool,
    timedOut: bool,
    fatal: bool,
    lastCodecReject: Option<RejectReason>,
    accepted: nat,
    rejected: nat,
    monitorStartedAt: int)

  datatype BuildError = ClockBackwards | EncodingFailed(reason: RejectReason)

  // ----------------------------------------------- command side, on values

  function InitialCommandSide(): CommandSide {
    CommandSide(G.Unstable, None, None, None, None, 0, false)
  }

  datatype PollEffect = Nothing | GenerationConfirmed | EndpointLost

  function PollEffectOf(c: CommandSide, snapshot: G.EndpointSnapshot): PollEffect {
    if snapshot.state.Confirmed? && snapshot.publisher.Some? then
      if c.confirmed.None? || c.confirmed.value != snapshot.publisher.value then GenerationConfirmed
      else Nothing
    else if c.endpointState.Confirmed? then EndpointLost
    else Nothing
  }

  function PollRegion(c: CommandSide, snapshot: G.EndpointSnapshot): CommandSide {
    var polled := c.(endpointState := snapshot.state);
    match PollEffectOf(c, snapshot)
    case Nothing => polled
    case GenerationConfirmed =>
      polled.(confirmed := snapshot.publisher, lease := None, latest := None, lastReject := None)
    case EndpointLost => polled.(latest := None)
  }

  function RejectRegion(c: CommandSide, reason: G.CanonicalReject): CommandSide {
    c.(latest := None, lastReject := Some(reason))
  }

  // The second result is false when the watchdog throws; the command is then
  // dropped again before the exception leaves the callback.
  function AcceptRegion(c: CommandSide, command: ControlCommand, now: int): (CommandSide, bool) {
    if c.lease.Some? && now < c.lease.value then (c.(latest := None), false)
    else (c.(latest := Some(command), lease := Some(now), lastReject := None), true)
  }

  function ForceRegion(c: CommandSide): CommandSide {
    c.(forceNextHold := true)
  }

  function HoldSignals(c: CommandSide): CanControlSignals {
    CanControlSignals(CanControlMode.Hold, Finite(0.0), Finite(0.0), c.nextCounter)
  }

  // What the frame built at `now` should say, before encoding.
  function SignalsToSend(cfg: AdapterConfig, c: CommandSide, now: int): Result<CanControlSignals, BuildError> {
    if c.forceNextHold then Ok(HoldSignals(c))
    else if !c.endpointState.Confirmed? || c.lastReject.Some? then Ok(HoldSignals(c))
    else
      var watchdog := Evaluate(c.lease, now, cfg.watchdogTimeoutNs);
      if watchdog.None? then Err(ClockBackwards)
      else if watchdog.value.Healthy? && c.latest.Some? && c.latest.value.mode != MODE_HOLD then
        Ok(CanControlSignals(Active, c.latest.value.linearVelocity, c.latest.value.angularVelocity, c.nextCounter))
      else Ok(HoldSignals(c))
  }

  datatype BuiltFrame = BuiltFrame(frame: CanFrame, signals: CanControlSignals)

  function BuildRegion(cfg: AdapterConfig, c: CommandSide, now: int): (Result<BuiltFrame, BuildError>, CommandSide)
    requires cfg.Valid()
  {
    var after := c.(forceNextHold := false);
    match SignalsToSend(cfg, c, now)
    case Err(e) => (Err(e), after)
    case Ok(signals) =>
      match ControlFrameFor(cfg.codec, signals)
      case Err(reason) => (Err(EncodingFailed(reason)), after)
      case Ok(frame) => (Ok(BuiltFrame(frame, signals)), after)
  }

  function FrameCounter(frame: CanFrame): uint8 {
    LowNibble(frame.data[5])
  }

  // None stands for the logic_error on a counter that does not match.
  function ConfirmRegion(cfg: AdapterConfig, c: CommandSide, frame: CanFrame): Option<CommandSide>
    requires cfg.Valid()
  {
    if FrameCounter(frame) != c.nextCounter then None
    else Some(c.(nextCounter := (c.nextCounter + 1) % cfg.codec.modulo))
  }

  // ---------------------------------------------- feedback side, on values

  function InitialFeedbackSide(now: int): FeedbackSide {
    FeedbackSide(None, FirstValue, None, 0, false, false, false, None, 0, 0, now)
  }

  // An accepted frame refreshes the snapshot and counts towards recovery.
  function TrustedFrame(cfg: AdapterConfig, f: FeedbackSide, signals: CanVehicleStateSignals, receivedAt: int)
    : FeedbackSide
  {
    var kept := f.(latestState := Some(ValidCanState(signals, receivedAt)), lastCodecReject := None,
                   accepted := f.accepted + 1, timedOut := false);
    if f.linkHealthy then kept
    else
      var count := if f.recoveryCount < cfg.recoveryValidFrames then f.recoveryCount + 1 else f.recoveryCount;
      kept.(recoveryCount := count, linkHealthy := count >= cfg.recoveryValidFrames)
  }

  // The frame was decoded before the lock was taken.
  function FrameRegion(
    cfg: AdapterConfig, f: FeedbackSide,
    decoded: Result<CanVehicleStateSignals, RejectReason>, receivedAt: int): FeedbackSide
    requires cfg.Valid()
  {
    match decoded
    case Err(reason) =>
      f.(lastCodecReject := Some(reason), rejected := f.rejected + 1, recoveryCount := 0)
    case Ok(signals) =>
      var (observation, baseline) := Observe(cfg.codec.modulo, f.baseline, signals.stateCounter);
      var seen := f.(lastObservation := observation, baseline := baseline);
      if !IsTrusted(observation) then seen.(rejected := f.rejected + 1, recoveryCount := 0)
      else TrustedFrame(cfg, seen, signals, receivedAt)
  }

  function ErrorRegion(f: FeedbackSide, fatal: bool): FeedbackSide {
    if fatal then f.(fatal := true, linkHealthy := false, recoveryCount := 0, baseline := None) else f
  }

  function TimeoutReference(f: FeedbackSide): int {
    if f.latestState.Some? then f.latestState.value.receivedAt else f.monitorStartedAt
  }

  // None stands for the logic_error on a clock that went backwards.
  function TimeoutRegion(cfg: AdapterConfig, f: FeedbackSide, now: int): Option<FeedbackSide> {
    if now < TimeoutReference(f) then None
    else if now - TimeoutReference(f) < cfg.stateTimeoutNs then Some(f)
    else Some(f.(baseline := if f.timedOut then f.baseline else None, timedOut := true,
                 linkHealthy := false, recoveryCount := 0))
  }

  datatype VehicleStateValue = StateStandby | StateRunning | StateSafeStop | StateFault

  datatype FaultCode =
    | FaultNone | CanonicalTimeout | CanonicalSourceAmbiguous | CanonicalInvalid
    | AdasCanIo | AdasCanStateTimeout | VehicleReported(raw: uint8)

  datatype Measured = Measured(speed: Double, yawRate: Double, counter: uint8)

  datatype VehicleState = VehicleState(state: VehicleStateValue, fault: FaultCode, measured: Measured)

  // What the last accepted frame measured; zeros before the first.
  function MeasuredBy(f: FeedbackSide): Measured {
    match f.latestState
    case None => Measured(Finite(0.0), Finite(0.0), 0)
    case Some(kept) => Measured(kept.signals.measuredSpeed, kept.signals.measuredYawRate, kept.signals.stateCounter)
  }

  function StateValueOf(mode: CanVehicleMode): VehicleStateValue {
    match mode
    case Standby => StateStandby
    case Running => StateRunning
    case SafeStop => StateSafeStop
    case Fault => StateFault
  }

  // None stands for a logic_error.
  function CanonicalFault(cfg: AdapterConfig, c: CommandSide, now: int): Option<FaultCode> {
    if c.endpointState.Ambiguous? || c.lastReject == Some(G.EndpointAmbiguous) then Some(CanonicalSourceAmbiguous)
    else if c.lastReject.Some? && !c.lastReject.value.EndpointUnavailable? && !c.lastReject.value.EndpointUnstable? then
      Some(CanonicalInvalid)
    else
      var watchdog := Evaluate(c.lease, now, cfg.watchdogTimeoutNs);
      if watchdog.None? then None
      else if !watchdog.value.Healthy? then Some(CanonicalTimeout)
      else if !c.endpointState.Confirmed? then Some(CanonicalTimeout)
      else if c.latest.None? then None
      else Some(FaultNone)
  }

  function Compose(cfg: AdapterConfig, c: CommandSide, f: FeedbackSide, now: int): Option<VehicleState> {
    var measured := MeasuredBy(f);
    if f.fatal then Some(VehicleState(StateSafeStop, AdasCanIo, measured))
    else if !f.linkHealthy then Some(VehicleState(StateSafeStop, AdasCanStateTimeout, measured))
    else if f.latestState.None? then None
    else
      var signals := f.latestState.value.signals;
      if signals.faultCode != 0 then Some(VehicleState(StateFault, VehicleReported(signals.faultCode), measured))
      else if signals.mode.Fault? then Some(VehicleState(StateFault, FaultNone, measured))
      else
        var canonical := CanonicalFault(cfg, c, now);
        if canonical.None? then None
        else if canonical.value != FaultNone then Some(VehicleState(StateSafeStop, canonical.value, measured))
        else Some(VehicleState(StateValueOf(signals.mode), FaultNone, measured))
  }

  // ------------------------------------------------------- the object

  class Adapter {
    const cfg: AdapterConfig
    const monitorStartedAt: int

    var endpointState: G.EndpointState
    var confirmedPublisher: Option<PublisherKey>
    var latestCommand: Option<ControlCommand>
    var lastReject: Option<G.CanonicalReject>
    var lease: Option<int>
    var nextControlCounter: uint8
    var forceNextHold: bool

    var baseline: Option<uint8>
    var lastObservation: CounterObservation
    var latestState: Option<ValidCanState>
    var recoveryCount: nat
    var linkHealthy: bool
    var timedOut: bool
    var fatal: bool
    var lastCodecReject: Option<RejectReason>
    var acceptedFrames: nat
    var rejectedFrames: nat

    ghost function Command(): CommandSide
      reads this
    {
      CommandSide(endpointState, confirmedPublisher, latestCommand, lastReject, lease, nextControlCounter, forceNextHold)
    }

    ghost function Feedback(): FeedbackSide
      reads this
    {
      FeedbackSide(baseline, lastObservation, latestState, recoveryCount, linkHealthy, timedOut, fatal,
                   lastCodecReject, acceptedFrames, rejectedFrames, monitorStartedAt)
    }

    constructor (cfg: AdapterConfig, now: int)
      requires cfg.Valid()
      ensures this.cfg == cfg && Command() == InitialCommandSide() && Feedback() == InitialFeedbackSide(now)
    {
      this.cfg := cfg;
      monitorStartedAt := now;
      endpointState, confirmedPublisher, latestCommand, lastReject := G.Unstable, None, None, None;
      lease, nextControlCounter, forceNextHold := None, 0, false;
      baseline, lastObservation, latestState, recoveryCount := None, FirstValue, None, 0;
      linkHealthy, timedOut, fatal, lastCodecReject := false, false, false, None;
      acceptedFrames, rejectedFrames := 0, 0;
    }

    // The region of poll_canonical_endpoint; true asks for an immediate HOLD.
    method PollCanonicalEndpoint(snapshot: G.EndpointSnapshot) returns (requireHold: bool)
      modifies this
      ensures Command() == PollRegion(old(Command()), snapshot)
      ensures requireHold <==> PollEffectOf(old(Command()), snapshot) != Nothing
      ensures Feedback() == old(Feedback())
    {
      requireHold := false;
      var previous := endpointState;
      endpointState := snapshot.state;
      if snapshot.state.Confirmed? && snapshot.publisher.Some? {
        if confirmedPublisher.None? || confirmedPublisher.value != snapshot.publisher.value {
          confirmedPublisher := snapshot.publisher;
          lease := None;
          latestCommand := None;
          lastReject := None;
          requireHold := true;
        }
      } else if previous.Confirmed? {
        latestCommand := None;
        requireHold := true;
      }
    }

    method RejectCommand(reason: G.CanonicalReject)
      modifies this
      ensures Command() == RejectRegion(old(Command()), reason)
      ensures Feedback() == old(Feedback())
    {
      latestCommand := None;
      lastReject := Some(reason);
    }

    method AcceptCommand(command: ControlCommand, now: int) returns (ok: bool)
      modifies this
      ensures (Command(), ok) == AcceptRegion(old(Command()), command, now)
      ensures Feedback() == old(Feedback())
    {
      latestCommand := Some(command);
      if lease.Some? && now < lease.value {
        latestCommand := None;
        return false;
      }
      lease := Some(now);
      lastReject := None;
      return true;
    }

    method RequestImmediateHold()
      modifies this
      ensures Command() == ForceRegion(old(Command()))
      ensures Feedback() == old(Feedback())
    {
      forceNextHold := true;
    }

    method MakeControlFrame(mode: CanControlMode, speed: Double, yawRate: Double)
      returns (r: Result<BuiltFrame, BuildError>)
      requires cfg.Valid()
      ensures var signals := CanControlSignals(mode, speed, yawRate, nextControlCounter);
              match ControlFrameFor(cfg.codec, signals)
              case Err(reason) => r == Err(EncodingFailed(reason))
              case Ok(frame) => r == Ok(BuiltFrame(frame, signals))
    {
      var signals := CanControlSignals(mode, speed, yawRate, nextControlCounter);
      var encoded := EncodeControl(cfg.codec, signals);
      match encoded {
        case Err(reason) => return Err(EncodingFailed(reason));
        case Ok(frame) => return Ok(BuiltFrame(frame, signals));
      }
    }

    method MakePeriodicControlFrame(now: int) returns (r: Result<BuiltFrame, BuildError>)
      requires cfg.Valid()
      modifies this
      ensures (r, Command()) == BuildRegion(cfg, old(Command()), now)
      ensures Feedback() == old(Feedback())
    {
      if forceNextHold {
        forceNextHold := false;
        r := MakeControlFrame(CanControlMode.Hold, Finite(0.0), Finite(0.0));
        return;
      }
      var healthy := endpointState.Confirmed? && lastReject.None?;
      if healthy {
        var watchdog := Evaluate(lease, now, cfg.watchdogTimeoutNs);
        if watchdog.None? {
          return Err(ClockBackwards);
        }
        healthy := watchdog.value.Healthy? && latestCommand.Some?;
      }
      if !healthy || latestCommand.value.mode == MODE_HOLD {
        r := MakeControlFrame(CanControlMode.Hold, Finite(0.0), Finite(0.0));
      } else {
        r := MakeControlFrame(Active, latestCommand.value.linearVelocity, latestCommand.value.angularVelocity);
      }
    }

    // False stands for the logic_error.
    method ConfirmControlFrameTransmitted(frame: CanFrame) returns (ok: bool)
      requires cfg.Valid()
      modifies this
      ensures ok <==> ConfirmRegion(cfg, old(Command()), frame).Some?
      ensures Command() == if ok then ConfirmRegion(cfg, old(Command()), frame).value else old(Command())
      ensures Feedback() == old(Feedback())
    {
      var transmitted := LowNibble(frame.data[5]);
      if transmitted != nextControlCounter {
        return false;
      }
      nextControlCounter := (nextControlCounter + 1) % cfg.codec.modulo;
      return true;
    }

    method HandleCanFrame(decoded: Result<CanVehicleStateSignals, RejectReason>, receivedAt: int)
      requires cfg.Valid()
      modifies this
      ensures Feedback() == FrameRegion(cfg, old(Feedback()), decoded, receivedAt)
      ensures Command() == old(Command())
    {
      if decoded.Err? {
        lastCodecReject := Some(decoded.error);
        rejectedFrames := rejectedFrames + 1;
        recoveryCount := 0;
        return;
      }
      var (observation, next) := Observe(cfg.codec.modulo, baseline, decoded.value.stateCounter);
      lastObservation, baseline := observation, next;
      if !observation.FirstValue? && !observation.Expected? {
        rejectedFrames := rejectedFrames + 1;
        recoveryCount := 0;
        return;
      }
      KeepTrustedFrame(decoded.value, receivedAt);
    }

    method KeepTrustedFrame(signals: CanVehicleStateSignals, receivedAt: int)
      modifies `latestState, `lastCodecReject, `acceptedFrames, `timedOut, `recoveryCount, `linkHealthy
      ensures Feedback() == TrustedFrame(cfg, old(Feedback()), signals, receivedAt)
      ensures Command() == old(Command())
    {
      latestState := Some(ValidCanState(signals, receivedAt));
      lastCodecReject := None;
      acceptedFrames := acceptedFrames + 1;
      timedOut := false;
      if !linkHealthy {
        if recoveryCount < cfg.recoveryValidFrames {
          recoveryCount := recoveryCount + 1;
        }
        if recoveryCount >= cfg.recoveryValidFrames {
          linkHealthy := true;
        }
      }
    }

    method HandleCanError(isFatal: bool)
      modifies this
      ensures Feedback() == ErrorRegion(old(Feedback()), isFatal)
      ensures Command() == old(Command())
    {
      if isFatal {
        fatal := true;
        linkHealthy := false;
        recoveryCount := 0;
        baseline := None;
      }
    }

    // False stands for the logic_error.
    method MarkCanTimeout(now: int) returns (ok: bool)
      modifies this
      ensures ok <==> TimeoutRegion(cfg, old(Feedback()), now).Some?
      ensures Feedback() == if ok then TimeoutRegion(cfg, old(Feedback()), now).value else old(Feedback())
      ensures Command() == old(Command())
    {
      var reference := if latestState.Some? then latestState.value.receivedAt else monitorStartedAt;
      if now < reference {
        return false;
      }
      if now - reference < cfg.stateTimeoutNs {
        return true;
      }
      if !timedOut {
        baseline := None;
      }
      timedOut := true;
      linkHealthy := false;
      recoveryCount := 0;
      return true;
    }

    // The region of publish_vehicle_state; None stands for a logic_error.
    method ComposeVehicleState(now: int) returns (state: Option<VehicleState>)
      modifies this
      ensures Command() == old(Command())
      ensures match TimeoutRegion(cfg, old(Feedback()), now)
              case None => state == None && Feedback() == old(Feedback())
              case Some(f) => Feedback() == f && state == Compose(cfg, Command(), f, now)
    {
      var ok := MarkCanTimeout(now);
      if !ok {
        return None;
      }
      var measured := Measured(Finite(0.0), Finite(0.0), 0);
      if latestState.Some? {
        var kept := latestState.value.signals;
        measured := Measured(kept.measuredSpeed, kept.measuredYawRate, kept.stateCounter);
      }
      if fatal {
        return Some(VehicleState(StateSafeStop, AdasCanIo, measured));
      }
      if !linkHealthy {
        return Some(VehicleState(StateSafeStop, AdasCanStateTimeout, measured));
      }
      if latestState.None? {
        return None;
      }
      var signals := latestState.value.signals;
      if signals.faultCode != 0 {
        return Some(VehicleState(StateFault, VehicleReported(signals.faultCode), measured));
      }
      if signals.mode.Fault? {
        return Some(VehicleState(StateFault, FaultNone, measured));
      }
      var canonical := CanonicalFault(
        cfg,
        CommandSide(endpointState, confirmedPublisher, latestCommand, lastReject, lease, nextControlCounter, forceNextHold),
        now);
      if canonical.None? {
        return None;
      }
      if canonical.value != FaultNone {
        return Some(VehicleState(StateSafeStop, canonical.value, measured));
      }
      return Some(VehicleState(StateValueOf(signals.mode), FaultNone, measured));
    }
  }
}
