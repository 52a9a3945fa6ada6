// The CAN peer of the adapter: a vehicle that follows the commanded velocities
// with a first-order lag (control_link_bringup/tools/vcan_vehicle_simulator.cpp).
module VehicleSimulator {
  import opened Common
  import opened CanCodec
  import opened CodecLaws
  import opened RollingCounter
  import opened LocalWatchdog

  // `laggy` is false when the time constant is zero.
  datatype SimConfig = SimConfig(codec: CanCodecConfig, watchdogTimeoutNs: nat, laggy: bool)
  {
    // The parsed signal map: both ranges fit 16 bits. They need not contain zero.
    predicate Valid() {
      codec.Valid() && RangesFit(codec)
    }
  }

  datatype Motion = Motion(speed: real, yawRate: real)

  const STILL := Motion(0.0, 0.0)

  datatype Injection = Injection(dropState: bool, corruptCrc: bool, freezeCounter: bool, faultCode: uint8)

  datatype SimState = SimState(
    mode: CanVehicleMode,
    target: Motion,
    measured: Motion,
    baseline: Option<uint8>,
    lease: Option<int>,
    lastModelUpdate: int,
    lastControlCounter: uint8,
    nextStateCounter: uint8,
    injected: Injection,
    fatal: bool,
    accepted: nat,
    rejected: nat)

  function Initial(now: int, injected: Injection): SimState {
    SimState(SafeStop, STILL, STILL, None, None, now, 0, 0, injected, false, 0, 0)
  }

  // ------------------------------------------------------------ control

  // None stands for the exception of the watchdog on a time that went
  // backwards.
  function AcceptControl(s: SimState, signals: CanControlSignals, at: int): Option<SimState>
    requires signals.targetSpeed.Finite? && signals.targetYawRate.Finite?
  {
    if s.lease.Some? && at < s.lease.value then None
    else
      var kept := s.(lease := Some(at), lastControlCounter := signals.rollingCounter, accepted := s.accepted + 1);
      Some(
        match signals.mode
        case Hold => kept.(target := STILL, mode := Standby)
        case Active =>
          kept.(target := Motion(signals.targetSpeed.value, signals.targetYawRate.value),
                mode := if s.injected.faultCode == 0 then Running else CanVehicleMode.Fault))
  }

  function HandleControl(cfg: SimConfig, s: SimState, frame: CanFrame, at: int): Option<SimState>
    requires cfg.Valid()
  {
    match DecodeControl(cfg.codec, frame)
    case Err(_) => Some(s.(rejected := s.rejected + 1))
    case Ok(signals) =>
      var (observation, baseline) := Observe(cfg.codec.modulo, s.baseline, signals.rollingCounter);
      var seen := s.(baseline := baseline);
      if !IsTrusted(observation) then Some(seen.(rejected := s.rejected + 1))
      else
        DecodedInRange(cfg.codec, frame);
        AcceptControl(seen, signals, at)
  }

  // What an exception on the way leaves behind: the counter was noted.
  function NotedControl(cfg: SimConfig, s: SimState, frame: CanFrame): SimState
    requires cfg.Valid()
  {
    match DecodeControl(cfg.codec, frame)
    case Err(_) => s
    case Ok(signals) => s.(baseline := Observe(cfg.codec.modulo, s.baseline, signals.rollingCounter).1)
  }

  predicate InRange(cfg: CanCodecConfig, m: Motion) {
    cfg.speedMin <= m.speed <= cfg.speedMax && cfg.yawRateMin <= m.yawRate <= cfg.yawRateMax
  }

  // The decoder lets only values within the ranges pass.
  lemma DecodedInRange(cfg: CanCodecConfig, frame: CanFrame)
    requires cfg.Valid() && DecodeControl(cfg, frame).Ok?
    ensures var signals := DecodeControl(cfg, frame).value;
            && signals.targetSpeed.Finite? && signals.targetYawRate.Finite?
            && InRange(cfg, Motion(signals.targetSpeed.value, signals.targetYawRate.value))
  {
  }

  // -------------------------------------------------------------- model

  function Toward(from: real, to: real, alpha: real): real {
    from + Times(alpha, to - from)
  }

  // The targets and the mode that health allows at this moment.
  function Governed(s: SimState, healthy: bool): SimState {
    if !healthy || s.fatal then s.(target := STILL, mode := SafeStop)
    else if s.injected.faultCode != 0 then s.(target := STILL, mode := CanVehicleMode.Fault)
    else s
  }

  // `decay` is exp(-elapsed / tau). None stands for an exception on a clock
  // that went backwards.
  function UpdateModel(cfg: SimConfig, s: SimState, now: int, decay: real): Option<SimState> {
    if now < s.lastModelUpdate then None
    else
      var watchdog := Evaluate(s.lease, now, cfg.watchdogTimeoutNs);
      if watchdog.None? then None
      else
        var governed := Governed(s.(lastModelUpdate := now), watchdog.value.Healthy?);
        var alpha := if cfg.laggy then 1.0 - decay else 1.0;
        Some(governed.(measured := Motion(Toward(s.measured.speed, governed.target.speed, alpha),
                                          Toward(s.measured.yawRate, governed.target.yawRate, alpha))))
  }

  // What an exception leaves behind: the time was noted, unless it went back.
  function NotedTime(s: SimState, now: int): SimState {
    if now < s.lastModelUpdate then s else s.(lastModelUpdate := now)
  }

  function StateSignals(s: SimState): CanVehicleStateSignals {
    CanVehicleStateSignals(s.mode, Finite(s.measured.speed), Finite(s.measured.yawRate),
                           if s.mode.Fault? then s.injected.faultCode else 0,
                           s.nextStateCounter, s.lastControlCounter)
  }

  function FlipCrc(frame: CanFrame): CanFrame {
    frame.(data := frame.data[7 := frame.data[7] ^ 0xFF])
  }

  datatype BuildOutcome = NoFrame | Built(frame: CanFrame) | ClockBackwards | EncodingFailed

  function BuildState(cfg: SimConfig, s: SimState, now: int, decay: real): (BuildOutcome, SimState)
    requires cfg.Valid()
  {
    var updated := UpdateModel(cfg, s, now, decay);
    if updated.None? then (ClockBackwards, NotedTime(s, now))
    else if s.injected.dropState then (NoFrame, updated.value)
    else
      match StateFrameFor(cfg.codec, StateSignals(updated.value))
      case Err(_) => (EncodingFailed, updated.value)
      case Ok(frame) => (Built(if s.injected.corruptCrc then FlipCrc(frame) else frame), updated.value)
  }

  // None stands for the logic_error on a counter that does not match.
  function ConfirmState(cfg: SimConfig, s: SimState, frame: CanFrame): Option<SimState>
    requires cfg.Valid()
  {
    if s.injected.freezeCounter then Some(s)
    else if LowNibble(frame.data[6]) != s.nextStateCounter then None
    else Some(s.(nextStateCounter := (s.nextStateCounter + 1) % cfg.codec.modulo))
  }

  // ---------------------------------------------------------- the object

  class Simulator {
    const cfg: SimConfig
    var vehicleMode: CanVehicleMode
    var target: Motion
    var measured: Motion
    var baseline: Option<uint8>
    var lease: Option<int>
    var lastModelUpdate: int
    var lastControlCounter: uint8
    var nextStateCounter: uint8
    var injected: Injection
    var fatal: bool
    var acceptedFrames: nat
    var rejectedFrames: nat

    ghost function State(): SimState
      reads this
    {
      SimState(vehicleMode, target, measured, baseline, lease, lastModelUpdate, lastControlCounter, nextStateCounter,
               injected, fatal, acceptedFrames, rejectedFrames)
    }

    constructor (cfg: SimConfig, now: int, injected: Injection)
      ensures this.cfg == cfg && State() == Initial(now, injected)
    {
      this.cfg := cfg;
      vehicleMode, target, measured := SafeStop, STILL, STILL;
      baseline, lease, lastModelUpdate := None, None, now;
      lastControlCounter, nextStateCounter := 0, 0;
      this.injected, fatal, acceptedFrames, rejectedFrames := injected, false, 0, 0;
    }

    // False stands for an exception, here and below.
    method FollowControl(signals: CanControlSignals, at: int) returns (ok: bool)
      requires signals.targetSpeed.Finite? && signals.targetYawRate.Finite?
      modifies this
      ensures ok <==> AcceptControl(old(State()), signals, at).Some?
      ensures State() == if ok then AcceptControl(old(State()), signals, at).value else old(State())
    {
      if lease.Some? && at < lease.value {
        return false;
      }
      lease := Some(at);
      lastControlCounter := signals.rollingCounter;
      acceptedFrames := acceptedFrames + 1;
      if signals.mode.Hold? {
        target := STILL;
        vehicleMode := Standby;
      } else {
        target := Motion(signals.targetSpeed.value, signals.targetYawRate.value);
        vehicleMode := if injected.faultCode == 0 then Running else CanVehicleMode.Fault;
      }
      return true;
    }

    method HandleControlFrame(frame: CanFrame, at: int) returns (ok: bool)
      requires cfg.Valid()
      modifies this
      ensures ok <==> HandleControl(cfg, old(State()), frame, at).Some?
      ensures State() == if ok then HandleControl(cfg, old(State()), frame, at).value
                         else NotedControl(cfg, old(State()), frame)
    {
      var decoded := DecodeControl(cfg.codec, frame);
      if decoded.Err? {
        rejectedFrames := rejectedFrames + 1;
        return true;
      }
      var (observation, next) := Observe(cfg.codec.modulo, baseline, decoded.value.rollingCounter);
      baseline := next;
      if !observation.FirstValue? && !observation.Expected? {
        rejectedFrames := rejectedFrames + 1;
        return true;
      }
      DecodedInRange(cfg.codec, frame);
      ok := FollowControl(decoded.value, at);
    }

    method UpdateModelTo(now: int, decay: real) returns (ok: bool)
      modifies this
      ensures ok <==> UpdateModel(cfg, old(State()), now, decay).Some?
      ensures State() == if ok then UpdateModel(cfg, old(State()), now, decay).value else NotedTime(old(State()), now)
    {
      if now < lastModelUpdate {
        return false;
      }
      lastModelUpdate := now;
      var watchdog := Evaluate(lease, now, cfg.watchdogTimeoutNs);
      if watchdog.None? {
        return false;
      }
      if !watchdog.value.Healthy? || fatal {
        target, vehicleMode := STILL, SafeStop;
      } else if injected.faultCode != 0 {
        target, vehicleMode := STILL, CanVehicleMode.Fault;
      }
      var alpha := if cfg.laggy then 1.0 - decay else 1.0;
      measured := Motion(Toward(measured.speed, target.speed, alpha), Toward(measured.yawRate, target.yawRate, alpha));
      return true;
    }

    method MakePeriodicStateFrame(now: int, decay: real) returns (r: BuildOutcome)
      requires cfg.Valid()
      modifies this
      ensures (r, State()) == BuildState(cfg, old(State()), now, decay)
    {
      var ok := UpdateModelTo(now, decay);
      if !ok {
        return ClockBackwards;
      }
      if injected.dropState {
        return NoFrame;
      }
      var signals := CanVehicleStateSignals(
        vehicleMode, Finite(measured.speed), Finite(measured.yawRate),
        if vehicleMode.Fault? then injected.faultCode else 0, nextStateCounter, lastControlCounter);
      var encoded := EncodeState(cfg.codec, signals);
      match encoded {
        case Err(_) => return EncodingFailed;
        case Ok(frame) => return Built(if injected.corruptCrc then FlipCrc(frame) else frame);
      }
    }

    method ConfirmStateFrameTransmitted(frame: CanFrame) returns (ok: bool)
      requires cfg.Valid()
      modifies this
      ensures ok <==> ConfirmState(cfg, old(State()), frame).Some?
      ensures State() == if ok then ConfirmState(cfg, old(State()), frame).value else old(State())
    {
      if injected.freezeCounter {
        return true;
      }
      if LowNibble(frame.data[6]) != nextStateCounter {
        return false;
      }
      nextStateCounter := (nextStateCounter + 1) % cfg.codec.modulo;
      return true;
    }
  }

  // ---------------------------------------------------------- properties

  // Measured and target values lie within the signal ranges, and both counters
  // below the modulo.
  predicate SimInv(cfg: SimConfig, s: SimState) {
    && InRange(cfg.codec, s.target) && InRange(cfg.codec, s.measured)
    && s.lastControlCounter < cfg.codec.modulo && s.nextStateCounter < cfg.codec.modulo
  }

  // A step from one value toward another ends between them.
  lemma Between(from: real, to: real, alpha: real, lo: real, hi: real)
    requires lo <= from <= hi && lo <= to <= hi && 0.0 <= alpha <= 1.0
    ensures lo <= Toward(from, to, alpha) <= hi
  {
    var d := to - from;
    if d >= 0.0 {
      ScaledDown(d, alpha);
    } else {
      ScaledDown(0.0 - d, alpha);
      Negated(d, alpha);
    }
  }

  function Times(alpha: real, d: real): real {
    alpha * d
  }

  lemma ScaledDown(d: real, alpha: real)
    requires d >= 0.0 && 0.0 <= alpha <= 1.0
    ensures 0.0 <= Times(alpha, d) <= d
  {
    ProductNonnegative(alpha, d);
    ProductNonnegative(1.0 - alpha, d);
    assert alpha * d + (1.0 - alpha) * d == d;
  }

  lemma ProductNonnegative(x: real, y: real)
    requires x >= 0.0 && y >= 0.0
    ensures x * y >= 0.0
  {
  }

  lemma Negated(d: real, alpha: real)
    ensures Times(alpha, d) == 0.0 - Times(alpha, 0.0 - d)
  {
  }

  lemma ControlKeeps(cfg: SimConfig, s: SimState, frame: CanFrame, at: int)
    requires cfg.Valid() && ZeroInRange(cfg.codec) && SimInv(cfg, s) && HandleControl(cfg, s, frame, at).Some?
    ensures SimInv(cfg, HandleControl(cfg, s, frame, at).value)
  {
    if DecodeControl(cfg.codec, frame).Ok? {
      DecodedInRange(cfg.codec, frame);
    }
  }

  lemma UpdateKeeps(cfg: SimConfig, s: SimState, now: int, decay: real)
    requires cfg.Valid() && ZeroInRange(cfg.codec) && SimInv(cfg, s)
    requires 0.0 <= decay <= 1.0 && UpdateModel(cfg, s, now, decay).Some?
    ensures SimInv(cfg, UpdateModel(cfg, s, now, decay).value)
  {
    var governed := UpdateModel(cfg, s, now, decay).value;
    var alpha := if cfg.laggy then 1.0 - decay else 1.0;
    Between(s.measured.speed, governed.target.speed, alpha, cfg.codec.speedMin, cfg.codec.speedMax);
    Between(s.measured.yawRate, governed.target.yawRate, alpha, cfg.codec.yawRateMin, cfg.codec.yawRateMax);
  }

  // A state within the ranges always encodes.
  lemma InRangeEncodes(cfg: SimConfig, s: SimState)
    requires cfg.Valid() && SimInv(cfg, s)
    ensures StateFrameFor(cfg.codec, StateSignals(s)).Ok?
  {
    QuantizeTotal(s.measured.speed, cfg.codec.speedScale, cfg.codec.speedMin, cfg.codec.speedMax);
    QuantizeTotal(s.measured.yawRate, cfg.codec.yawRateScale, cfg.codec.yawRateMin, cfg.codec.yawRateMax);
  }

  // The frame says what the state says, a corrupted checksum aside.
  lemma FrameCarriesCounter(cfg: SimConfig, s: SimState, frame: CanFrame)
    requires cfg.Valid() && SimInv(cfg, s) && StateFrameFor(cfg.codec, StateSignals(s)) == Ok(frame)
    ensures LowNibble(frame.data[6]) == s.nextStateCounter && LowNibble(FlipCrc(frame).data[6]) == s.nextStateCounter
  {
    var c := cfg.codec;
    var signals := StateSignals(s);
    var speed := Quantize(signals.measuredSpeed, c.speedScale, c.speedMin, c.speedMax).value;
    var yawRate := Quantize(signals.measuredYawRate, c.yawRateScale, c.yawRateMin, c.yawRateMax).value;
    SealedFields(c, c.stateCanId, speed, yawRate,
                 [VehicleModeByte(signals.mode), ByteOf(signals.faultCode),
                  CounterNibbles(signals.stateCounter, signals.echoedControlCounter)]);
    NibblesOf(signals.stateCounter, signals.echoedControlCounter);
  }

  // ------------------------------------------------------------- runs

  datatype SimEvent =
    | ControlReceived(frame: CanFrame, at: int)
    | IoFailed(isFatal: bool)
    | ParametersRead(injected: Injection)
    | StateDue(now: int, decay: real)   // the transmit handler, when nothing waits for a retry
    | StateSent                         // the waiting frame was taken by the kernel

  // The simulator with the frame that its transport still has to send.
  datatype SimRun = SimRun(state: SimState, pending: Option<CanFrame>, clock: int)

  predicate Enabled(r: SimRun, e: SimEvent) {
    match e
    case ControlReceived(_, at) => r.clock <= at
    case IoFailed(_) => true
    case ParametersRead(_) => true
    case StateDue(now, decay) => r.pending.None? && r.clock <= now && 0.0 <= decay <= 1.0
    case StateSent => r.pending.Some?
  }

  // None stands for an exception.
  function NextRun(cfg: SimConfig, r: SimRun, e: SimEvent): Option<SimRun>
    requires cfg.Valid() && Enabled(r, e)
  {
    match e
    case ControlReceived(frame, at) =>
      var s :- HandleControl(cfg, r.state, frame, at);
      Some(r.(state := s, clock := at))
    case IoFailed(isFatal) => Some(r.(state := r.state.(fatal := r.state.fatal || isFatal)))
    case ParametersRead(injected) => Some(r.(state := r.state.(injected := injected)))
    case StateDue(now, decay) =>
      var (outcome, s) := BuildState(cfg, r.state, now, decay);
      if outcome.ClockBackwards? || outcome.EncodingFailed? then None
      else Some(SimRun(s, if outcome.Built? then Some(outcome.frame) else None, now))
    case StateSent =>
      var s :- ConfirmState(cfg, r.state, r.pending.value);
      Some(r.(state := s, pending := None))
  }

  predicate RunInv(cfg: SimConfig, r: SimRun) {
    && SimInv(cfg, r.state)
    && r.state.lastModelUpdate <= r.clock && (r.state.lease.Some? ==> r.state.lease.value <= r.clock)
    && (r.pending.Some? ==> LowNibble(r.pending.value.data[6]) == r.state.nextStateCounter)
  }

  lemma BuildKeeps(cfg: SimConfig, r: SimRun, now: int, decay: real)
    requires cfg.Valid() && ZeroInRange(cfg.codec) && RunInv(cfg, r) && Enabled(r, StateDue(now, decay))
    ensures NextRun(cfg, r, StateDue(now, decay)).Some?
    ensures RunInv(cfg, NextRun(cfg, r, StateDue(now, decay)).value)
  {
    UpdateKeeps(cfg, r.state, now, decay);
    var updated := UpdateModel(cfg, r.state, now, decay).value;
    InRangeEncodes(cfg, updated);
    FrameCarriesCounter(cfg, updated, StateFrameFor(cfg.codec, StateSignals(updated)).value);
  }

  // With zero in both ranges no event makes the simulator throw: the clock is
  // never behind, every state encodes, and the confirmed counter always matches,
  // whatever faults are injected and whatever arrives on the bus.
  lemma SimulatorNeverThrows(cfg: SimConfig, r: SimRun, e: SimEvent)
    requires cfg.Valid() && ZeroInRange(cfg.codec) && RunInv(cfg, r) && Enabled(r, e)
    ensures NextRun(cfg, r, e).Some? && RunInv(cfg, NextRun(cfg, r, e).value)
  {
    match e
    case ControlReceived(frame, at) => ControlKeeps(cfg, r.state, frame, at);
    case IoFailed(isFatal) =>
    case ParametersRead(injected) =>
    case StateDue(now, decay) => BuildKeeps(cfg, r, now, decay);
    case StateSent => NextCounter(r.state.nextStateCounter, cfg.codec.modulo);
  }

  ghost predicate IsRun(cfg: SimConfig, runs: seq<SimRun>, events: seq<SimEvent>)
    requires cfg.Valid()
  {
    && |runs| == |events| + 1
    && (exists now, injected :: runs[0] == SimRun(Initial(now, injected), None, now))
    && forall i :: 0 <= i < |events| ==>
         Enabled(runs[i], events[i]) && NextRun(cfg, runs[i], events[i]) == Some(runs[i + 1])
  }

  // Over any run, measured speed and yaw rate stay within the ranges and both
  // counters below the modulo, if both ranges contain zero.
  lemma {:induction false} RunsStayInRange(cfg: SimConfig, runs: seq<SimRun>, events: seq<SimEvent>, i: nat)
    requires cfg.Valid() && ZeroInRange(cfg.codec) && IsRun(cfg, runs, events) && i < |runs|
    ensures RunInv(cfg, runs[i])
  {
    if i > 0 {
      RunsStayInRange(cfg, runs, events, i - 1);
      SimulatorNeverThrows(cfg, runs[i - 1], events[i - 1]);
    }
  }

  lemma InitialState(cfg: SimConfig, start: int, injected: Injection, now: int, decay: real)
    requires start <= now
    ensures UpdateModel(cfg, Initial(start, injected), now, decay) ==
            Some(Initial(start, injected).(lastModelUpdate := now))
  {
    assert Toward(0.0, 0.0, if cfg.laggy then 1.0 - decay else 1.0) == 0.0;
  }

  // A resting vehicle encodes exactly when both ranges contain zero.
  lemma RestEncodesExactly(cfg: SimConfig, now: int, injected: Injection)
    requires cfg.Valid()
    ensures StateFrameFor(cfg.codec, StateSignals(Initial(now, injected))).Ok? <==> ZeroInRange(cfg.codec)
  {
    QuantizeTotal(0.0, cfg.codec.speedScale, cfg.codec.speedMin, cfg.codec.speedMax);
    QuantizeTotal(0.0, cfg.codec.yawRateScale, cfg.codec.yawRateMin, cfg.codec.yawRateMax);
  }

  // So the condition is exact: without zero in the ranges the first state frame
  // makes the simulator throw, unless frames are dropped.
  lemma FirstFrameThrowsExactly(cfg: SimConfig, start: int, injected: Injection, now: int, decay: real)
    requires cfg.Valid() && start <= now && 0.0 <= decay <= 1.0
    ensures NextRun(cfg, SimRun(Initial(start, injected), None, start), StateDue(now, decay)).None? <==>
            !injected.dropState && !ZeroInRange(cfg.codec)
  {
    InitialState(cfg, start, injected, now, decay);
    RestEncodesExactly(cfg, now, injected);
  }
}
