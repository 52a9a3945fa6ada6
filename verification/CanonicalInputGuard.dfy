// Admission of one canonical command at an execution adapter
// (control_link_adapters/src/canonical_input_guard.cpp).
module CanonicalInputGuard {
  import opened Common
  import opened Messages

  datatype EndpointState = Unavailable | Unstable | Confirmed | Ambiguous

  // `confirmed` holds the node name and key of the publisher; only a confirmed
  // endpoint carries one.
  datatype EndpointSnapshot = EndpointSnapshot(state: EndpointState, nodeFqn: string, publisher: Option<PublisherKey>)

  datatype CanonicalReject =
    | EndpointUnavailable | EndpointUnstable | EndpointAmbiguous | PublisherMismatch | UnknownMode
    | ValueNonFinite | OutOfRange | InvalidMetadata | InvalidStamp | ClockInvalid | FutureStamp
    | Stale | HoldNonzero

  // The guard throws when a confirmed endpoint carries no key.
  predicate Coherent(endpoint: EndpointSnapshot) {
    endpoint.state.Confirmed? ==> endpoint.publisher.Some?
  }

  function ValidateEndpoint(actual: PublisherKey, endpoint: EndpointSnapshot, expectedFqn: string): Option<CanonicalReject>
    requires Coherent(endpoint)
  {
    match endpoint.state
    case Unavailable => Some(EndpointUnavailable)
    case Unstable => Some(EndpointUnstable)
    case Ambiguous => Some(EndpointAmbiguous)
    case Confirmed =>
      if endpoint.nodeFqn != expectedFqn then Some(PublisherMismatch)
      else if actual != endpoint.publisher.value then Some(PublisherMismatch)
      else None
  }

  function ValidateMotion(command: ControlCommand, mode: CommandMode, rules: CommandRules): Option<CanonicalReject> {
    if command.linearVelocity.NonFinite? || command.angularVelocity.NonFinite? then Some(ValueNonFinite)
    else if mode.Hold? then
      if command.linearVelocity.value != 0.0 || command.angularVelocity.value != 0.0 then Some(HoldNonzero)
      else None
    else if || Abs(command.linearVelocity.value) > rules.maxAbsLinear
            || Abs(command.angularVelocity.value) > rules.maxAbsAngular then Some(OutOfRange)
    else None
  }

  function ValidateMetadata(command: ControlCommand, mode: CommandMode): Option<CanonicalReject> {
    if !IsNormalizedStamp(command.sourceStamp) then Some(InvalidStamp)
    else
      var hasSource := command.sourceId != "";
      var zeroStamp := IsZeroStamp(command.sourceStamp);
      if mode.Normal? then
        if !hasSource || zeroStamp then Some(InvalidMetadata) else None
      else if hasSource then
        if zeroStamp then Some(InvalidMetadata)
        else if command.sourceStamp.sec < 0 then Some(InvalidStamp)
        else None
      else if command.sourceSequence != 0 || !zeroStamp then Some(InvalidMetadata)
      else None
  }

  function ValidateNormalTime(command: ControlCommand, nowRosNs: int64, clockHealthy: bool, rules: CommandRules)
    : Option<CanonicalReject>
  {
    if !clockHealthy then Some(ClockInvalid)
    else if nowRosNs < 0 then Some(ClockInvalid)
    else
      var stampNs := ToNanoseconds(command.sourceStamp);
      if stampNs < 0 then Some(Stale)
      else if stampNs > nowRosNs then
        if ExceedsMilliseconds(stampNs - nowRosNs, rules.maxFutureSkewMs) then Some(FutureStamp) else None
      else
        if ExceedsMilliseconds(nowRosNs - stampNs, rules.commandTimeoutMs) then Some(Stale) else None
  }

  // None when the command is accepted.
  function Validate(
    command: ControlCommand, actual: PublisherKey, endpoint: EndpointSnapshot,
    nowRosNs: int64, clockHealthy: bool, rules: CommandRules): Option<CanonicalReject>
    requires Coherent(endpoint)
  {
    var endpointReject := ValidateEndpoint(actual, endpoint, rules.gatewayFqn);
    if endpointReject.Some? then endpointReject
    else
      var mode := ParseMode(command.mode);
      if mode.None? then Some(UnknownMode)
      else
        var motion := ValidateMotion(command, mode.value, rules);
        if motion.Some? then motion
        else
          var metadata := ValidateMetadata(command, mode.value);
          if metadata.Some? then metadata
          else if mode.value.Normal? then ValidateNormalTime(command, nowRosNs, clockHealthy, rules)
          else None
  }

  // The endpoint is the gateway's, confirmed, and the message came from it.
  predicate FromConfirmedGateway(actual: PublisherKey, endpoint: EndpointSnapshot, rules: CommandRules) {
    endpoint == EndpointSnapshot(Confirmed, rules.gatewayFqn, Some(actual))
  }

  // A command whose content the guard never refuses: a motion within limits
  // that names its source and time, a source's HOLD, or the anonymous HOLD.
  predicate WellFormed(command: ControlCommand, rules: CommandRules) {
    && ParseMode(command.mode).Some?
    && MotionAllowed(command, ParseMode(command.mode).value, rules)
    && IsNormalizedStamp(command.sourceStamp)
    && if command.sourceId != "" then
         !IsZeroStamp(command.sourceStamp) && (command.mode == MODE_HOLD ==> command.sourceStamp.sec >= 0)
       else
         command.mode == MODE_HOLD && IsZeroStamp(command.sourceStamp) && command.sourceSequence == 0
  }

  predicate IsTimeReason(r: CanonicalReject) {
    r.ClockInvalid? || r.FutureStamp? || r.Stale?
  }

  predicate IsEndpointReason(r: CanonicalReject) {
    r.EndpointUnavailable? || r.EndpointUnstable? || r.EndpointAmbiguous? || r.PublisherMismatch?
  }

  // The guard accepts exactly the well-formed commands from the confirmed
  // gateway that, when they move the vehicle, are also in time.
  lemma AcceptsExactly(
    command: ControlCommand, actual: PublisherKey, endpoint: EndpointSnapshot,
    nowRosNs: int64, clockHealthy: bool, rules: CommandRules)
    requires Coherent(endpoint)
    ensures Validate(command, actual, endpoint, nowRosNs, clockHealthy, rules).None? <==>
            && FromConfirmedGateway(actual, endpoint, rules)
            && WellFormed(command, rules)
            && (command.mode == MODE_NORMAL ==>
                  clockHealthy && TimeAllowed(ToNanoseconds(command.sourceStamp), nowRosNs, rules))
  {
    var stampNs := ToNanoseconds(command.sourceStamp);
    ExceedsIsComparison(stampNs - nowRosNs, rules.maxFutureSkewMs);
    ExceedsIsComparison(nowRosNs - stampNs, rules.commandTimeoutMs);
  }

  // A well-formed command is refused for endpoint or time reasons only, and a
  // HOLD never for time reasons.
  lemma WellFormedRefusals(
    command: ControlCommand, actual: PublisherKey, endpoint: EndpointSnapshot,
    nowRosNs: int64, clockHealthy: bool, rules: CommandRules)
    requires Coherent(endpoint) && WellFormed(command, rules)
    ensures var r := Validate(command, actual, endpoint, nowRosNs, clockHealthy, rules);
            && (r.Some? ==> IsEndpointReason(r.value) || (command.mode == MODE_NORMAL && IsTimeReason(r.value)))
            && (command.mode == MODE_HOLD ==> (r.None? <==> FromConfirmedGateway(actual, endpoint, rules)))
  {
    AcceptsExactly(command, actual, endpoint, nowRosNs, clockHealthy, rules);
  }

  // The reason that is given is true of the command and of its endpoint.
  lemma RefusalsAreTrue(
    command: ControlCommand, actual: PublisherKey, endpoint: EndpointSnapshot,
    nowRosNs: int64, clockHealthy: bool, rules: CommandRules)
    requires Coherent(endpoint) && Validate(command, actual, endpoint, nowRosNs, clockHealthy, rules).Some?
    ensures match Validate(command, actual, endpoint, nowRosNs, clockHealthy, rules).value
            case EndpointUnavailable => endpoint.state.Unavailable?
            case EndpointUnstable => endpoint.state.Unstable?
            case EndpointAmbiguous => endpoint.state.Ambiguous?
            case PublisherMismatch =>
              endpoint.state.Confirmed? && (endpoint.nodeFqn != rules.gatewayFqn || endpoint.publisher != Some(actual))
            case UnknownMode => command.mode != MODE_NORMAL && command.mode != MODE_HOLD
            case ValueNonFinite => command.linearVelocity.NonFinite? || command.angularVelocity.NonFinite?
            case HoldNonzero => command.mode == MODE_HOLD && !MotionAllowed(command, CommandMode.Hold, rules)
            case OutOfRange => command.mode == MODE_NORMAL && !MotionAllowed(command, CommandMode.Normal, rules)
            case InvalidStamp => command.sourceStamp.nanosec >= NS_PER_SECOND || command.sourceStamp.sec < 0
            case InvalidMetadata =>
              || (command.sourceId != "" && command.sourceStamp == Stamp(0, 0))
              || (command.sourceId == "" &&
                  (command.mode == MODE_NORMAL || command.sourceSequence != 0 || command.sourceStamp != Stamp(0, 0)))
            case ClockInvalid => command.mode == MODE_NORMAL && (!clockHealthy || nowRosNs < 0)
            case FutureStamp =>
              && command.mode == MODE_NORMAL
              && ToNanoseconds(command.sourceStamp) > nowRosNs + rules.maxFutureSkewMs * NS_PER_MILLISECOND
            case Stale =>
              && command.mode == MODE_NORMAL
              && (|| ToNanoseconds(command.sourceStamp) < 0
                  || ToNanoseconds(command.sourceStamp) < nowRosNs - rules.commandTimeoutMs * NS_PER_MILLISECOND)
  {
    var stampNs := ToNanoseconds(command.sourceStamp);
    ExceedsIsComparison(stampNs - nowRosNs, rules.maxFutureSkewMs);
    ExceedsIsComparison(nowRosNs - stampNs, rules.commandTimeoutMs);
  }
}
