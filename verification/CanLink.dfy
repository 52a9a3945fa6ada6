// The transmit path of the ADAS adapter as two interleaved threads: the ROS
// thread that takes commands and endpoint polls, and the I/O thread of
// SocketCanTransport::run. One lock region, one exchange of the immediate flag
// or one outcome of write(2) is one step, and any interleaving of steps is a
// run (socketcan_adapter.cpp, socketcan_transport.cpp).
module CanLink {
  import opened Common
  import opened Messages
  import opened CanCodec
  import opened SocketCanAdapter
  import G = CanonicalInputGuard

  // A frame that was built, with the position of its Built event in the log.
  datatype Pending = Pending(frame: CanFrame, signals: CanControlSignals, built: nat)

  datatype IoPhase =
    | Polling                       // top of the loop
    | Building(immediate: bool)     // about to call the transmit handler
    | Writing(f: Pending)           // about to call write(2)
    | Confirming(f: Pending)        // written, the success handler is next
    | ReportingRetry(f: Pending)    // the kernel would block, the error handler is next
    | ReportingFatal
    | Stopped

  datatype RosPhase = Idle | ForcingHold | RaisingFlag

  // What happened, in order.
  datatype Event =
    | Accepted(command: ControlCommand, at: int)
    | Rejected(reason: G.CanonicalReject)
    | GenerationChanged
    | EndpointGone
    | HoldForced
    | FlagRaised
    | FlagTaken
    | Built(signals: CanControlSignals, at: int)
    | Written(signals: CanControlSignals, built: nat)

  // The events after which the adapter no longer holds a command.
  predicate IsClear(e: Event) {
    e.Rejected? || e.GenerationChanged? || e.EndpointGone?
  }

  datatype LinkState = LinkState(
    command: CommandSide,
    endpoint: G.EndpointSnapshot,   // what the tracker last returned; ROS thread only
    ros: RosPhase,
    io: IoPhase,
    retry: Option<Pending>,         // retry_frame; I/O thread only
    immediate: bool,                // immediate_transmit_requested_
    clock: int,                     // steady clock
    bus: seq<Pending>,              // frames the kernel took
    log: seq<Event>)

  datatype WriteOutcome = Sent | WouldBlock | Failed

  datatype Step =
    | RosPoll(snapshot: G.EndpointSnapshot)
    | RosCommand(command: ControlCommand, publisher: PublisherKey, nowRosNs: int64, now: int)
    | RosForce
    | RosRaise
    | IoExchange(due: bool)
    | IoBuild(now: int)
    | IoWrite(outcome: WriteOutcome)
    | IoConfirm
    | IoReport
    | IoFail                        // poll, eventfd or read failed
    | IoStop

  function Init(clock: int): LinkState {
    LinkState(InitialCommandSide(), G.EndpointSnapshot(G.Unstable, "", None), Idle, Polling,
              None, false, clock, [], [])
  }

  // Which thread may take the step, and that the steady clock does not go back.
  predicate Enabled(s: LinkState, step: Step) {
    match step
    case RosPoll(snapshot) => s.ros.Idle? && G.Coherent(snapshot)
    case RosCommand(_, _, _, now) => s.ros.Idle? && s.clock <= now && G.Coherent(s.endpoint)
    case RosForce => s.ros.ForcingHold?
    case RosRaise => s.ros.RaisingFlag?
    case IoExchange(_) => s.io.Polling?
    case IoBuild(now) => s.io.Building? && s.clock <= now
    case IoWrite(_) => s.io.Writing?
    case IoConfirm => s.io.Confirming?
    case IoReport => s.io.ReportingRetry? || s.io.ReportingFatal?
    case IoFail => s.io.Polling?
    case IoStop => s.io.Polling?
  }

  function PollStep(s: LinkState, snapshot: G.EndpointSnapshot): LinkState {
    var polled := s.(endpoint := snapshot, command := PollRegion(s.command, snapshot));
    match PollEffectOf(s.command, snapshot)
    case Nothing => polled
    case GenerationConfirmed => polled.(ros := ForcingHold, log := s.log + [GenerationChanged])
    case EndpointLost => polled.(ros := ForcingHold, log := s.log + [EndpointGone])
  }

  function RejectStep(s: LinkState, reason: G.CanonicalReject, now: int): LinkState {
    s.(command := RejectRegion(s.command, reason), ros := ForcingHold, clock := now, log := s.log + [Rejected(reason)])
  }

  function AcceptStep(s: LinkState, command: ControlCommand, now: int): LinkState {
    var (after, ok) := AcceptRegion(s.command, command, now);
    if ok then
      s.(command := after, clock := now, log := s.log + [Accepted(command, now)])
    else s.(command := after, clock := now)
  }

  function CommandStep(cfg: AdapterConfig, s: LinkState, command: ControlCommand, publisher: PublisherKey,
                       nowRosNs: int64, now: int): LinkState
    requires G.Coherent(s.endpoint)
  {
    match G.Validate(command, publisher, s.endpoint, nowRosNs, nowRosNs > 0, cfg.rules)
    case Some(reason) => RejectStep(s, reason, now)
    case None => AcceptStep(s, command, now)
  }

  function ExchangeStep(s: LinkState, due: bool): LinkState {
    if s.immediate then s.(immediate := false, io := Building(true), log := s.log + [FlagTaken])
    else if due then
      if s.retry.Some? then s.(io := Writing(s.retry.value)) else s.(io := Building(false))
    else s
  }

  // On the immediate path the new frame also replaces whatever waits for a
  // retry.
  function BuildStep(cfg: AdapterConfig, s: LinkState, now: int): LinkState
    requires cfg.Valid() && s.io.Building?
  {
    var (built, after) := BuildRegion(cfg, s.command, now);
    match built
    case Err(_) => s.(command := after, clock := now, io := ReportingFatal)
    case Ok(b) =>
      var pending := Pending(b.frame, b.signals, |s.log|);
      s.(command := after, clock := now, io := Writing(pending),
         retry := if s.io.immediate then Some(pending) else s.retry,
         log := s.log + [Built(b.signals, now)])
  }

  // The transport refuses to write an identifier beyond 11 bits, or 29 bits in
  // an extended frame, or a length beyond 8.
  predicate Sendable(frame: CanFrame) {
    frame.canId <= (if frame.isExtended then 0x1FFF_FFFF else 0x7FF) && frame.dlc <= 8
  }

  function WriteStep(s: LinkState, outcome: WriteOutcome): LinkState
    requires s.io.Writing?
  {
    var p := s.io.f;
    if !Sendable(p.frame) then s.(io := ReportingFatal)
    else
      match outcome
      case Sent => s.(io := Confirming(p), bus := s.bus + [p], log := s.log + [Written(p.signals, p.built)])
      case WouldBlock => s.(io := ReportingRetry(p))
      case Failed => s.(io := ReportingFatal)
  }

  function ConfirmStep(cfg: AdapterConfig, s: LinkState): LinkState
    requires cfg.Valid() && s.io.Confirming?
  {
    match ConfirmRegion(cfg, s.command, s.io.f.frame)
    case None => s.(io := ReportingFatal)
    case Some(after) => s.(command := after, retry := None, io := Polling)
  }

  function Next(cfg: AdapterConfig, s: LinkState, step: Step): LinkState
    requires cfg.Valid() && Enabled(s, step)
  {
    match step
    case RosPoll(snapshot) => PollStep(s, snapshot)
    case RosCommand(command, publisher, nowRosNs, now) => CommandStep(cfg, s, command, publisher, nowRosNs, now)
    case RosForce => s.(command := ForceRegion(s.command), ros := RaisingFlag, log := s.log + [HoldForced])
    case RosRaise => s.(immediate := true, ros := Idle, log := s.log + [FlagRaised])
    case IoExchange(due) => ExchangeStep(s, due)
    case IoBuild(now) => BuildStep(cfg, s, now)
    case IoWrite(outcome) => WriteStep(s, outcome)
    case IoConfirm => ConfirmStep(cfg, s)
    case IoReport =>
      if s.io.ReportingRetry? then s.(retry := Some(s.io.f), io := Polling) else s.(io := Stopped)
    case IoFail => s.(io := ReportingFatal)
    case IoStop => s.(io := Stopped)
  }

  // A run: every step enabled where it is taken.
  ghost predicate IsRun(cfg: AdapterConfig, states: seq<LinkState>, steps: seq<Step>, clock: int)
    requires cfg.Valid()
  {
    && |states| == |steps| + 1
    && states[0] == Init(clock)
    && forall i :: 0 <= i < |steps| ==> Enabled(states[i], steps[i]) && states[i + 1] == Next(cfg, states[i], steps[i])
  }

  ghost predicate Reachable(cfg: AdapterConfig, s: LinkState)
    requires cfg.Valid()
  {
    exists states: seq<LinkState>, steps: seq<Step>, clock: int ::
      IsRun(cfg, states, steps, clock) && states[|states| - 1] == s
  }
}
