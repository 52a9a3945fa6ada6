// Admission of one source sample (control_link_gateway/src/command_validator.cpp).
module CommandValidator {
  import opened Common
  import opened Messages

  datatype RejectReason =
    | SourceIdMismatch | SourceEndpointAmbiguous | PublisherGenerationUnstable | UnknownMode
    | ValueNonFinite | OutOfRange | ZeroStamp | FutureStamp | Stale | SequenceNotIncreasing
    | ClockInvalid | HoldNonzero | InvalidStamp

  datatype SourceSnapshot = SourceSnapshot(
    sourceId: string,
    priority: uint8,
    generation: PublisherKey,
    sequence: uint64,
    sourceStampNs: int64,
    mode: CommandMode,
    linearVelocity: Double,
    angularVelocity: Double,
    receivedAt: int)

  datatype Context = Context(
    expectedSourceId: string,
    generation: PublisherKey,
    lastAcceptedSequence: Option<uint64>,
    priority: uint8,
    nowRosNs: int64,
    rosClockValid: bool,
    receivedAt: int)

  function ValidateMotion(command: ControlCommand, mode: CommandMode, rules: CommandRules): Option<RejectReason> {
    if command.linearVelocity.NonFinite? || command.angularVelocity.NonFinite? then Some(ValueNonFinite)
    else if mode.Hold? then
      if command.linearVelocity.value != 0.0 || command.angularVelocity.value != 0.0 then Some(HoldNonzero)
      else None
    else if || Abs(command.linearVelocity.value) > rules.maxAbsLinear
            || Abs(command.angularVelocity.value) > rules.maxAbsAngular then Some(OutOfRange)
    else None
  }

  function ValidateTime(stampNs: int64, nowNs: int64, rules: CommandRules): Option<RejectReason> {
    if stampNs > nowNs then
      if ExceedsMilliseconds(stampNs - nowNs, rules.maxFutureSkewMs) then Some(FutureStamp) else None
    else
      if ExceedsMilliseconds(nowNs - stampNs, rules.commandTimeoutMs) then Some(Stale) else None
  }

  function MakeSnapshot(command: ControlCommand, ctx: Context, mode: CommandMode): SourceSnapshot {
    SourceSnapshot(command.sourceId, ctx.priority, ctx.generation, command.sourceSequence,
                   ToNanoseconds(command.sourceStamp), mode,
                   command.linearVelocity, command.angularVelocity, ctx.receivedAt)
  }

  function Validate(command: ControlCommand, ctx: Context, rules: CommandRules): Result<SourceSnapshot, RejectReason> {
    if command.sourceId != ctx.expectedSourceId then Err(SourceIdMismatch)
    else
      var mode := ParseMode(command.mode);
      if mode.None? then Err(UnknownMode)
      else
        var motion := ValidateMotion(command, mode.value, rules);
        if motion.Some? then Err(motion.value)
        else if IsZeroStamp(command.sourceStamp) then Err(ZeroStamp)
        else if !IsNormalizedStamp(command.sourceStamp) then Err(InvalidStamp)
        else if !ctx.rosClockValid then Err(ClockInvalid)
        else if ctx.nowRosNs < 0 then Err(ClockInvalid)
        else
          var stampNs := ToNanoseconds(command.sourceStamp);
          if stampNs < 0 then Err(Stale)
          else
            var time := ValidateTime(stampNs, ctx.nowRosNs, rules);
            if time.Some? then Err(time.value)
            else if ctx.lastAcceptedSequence.Some? && command.sourceSequence <= ctx.lastAcceptedSequence.value then
              Err(SequenceNotIncreasing)
            else Ok(MakeSnapshot(command, ctx, mode.value))
  }

  // What an accepted sample must satisfy, independently of the order in which
  // the validator asks.
  predicate Admissible(command: ControlCommand, ctx: Context, rules: CommandRules) {
    && command.sourceId == ctx.expectedSourceId
    && ParseMode(command.mode).Some?
    && MotionAllowed(command, ParseMode(command.mode).value, rules)
    && !IsZeroStamp(command.sourceStamp) && IsNormalizedStamp(command.sourceStamp)
    && ctx.rosClockValid
    && TimeAllowed(ToNanoseconds(command.sourceStamp), ctx.nowRosNs, rules)
    && (ctx.lastAcceptedSequence.Some? ==> ctx.lastAcceptedSequence.value < command.sourceSequence)
  }

  // A sample is accepted exactly when it is admissible, and the snapshot then
  // repeats the sample and its context.
  lemma AcceptsExactly(command: ControlCommand, ctx: Context, rules: CommandRules)
    ensures Validate(command, ctx, rules).Ok? <==> Admissible(command, ctx, rules)
    ensures Validate(command, ctx, rules).Ok? ==>
              var s := Validate(command, ctx, rules).value;
              && s.sourceId == command.sourceId && s.sequence == command.sourceSequence
              && s.generation == ctx.generation && s.priority == ctx.priority && s.receivedAt == ctx.receivedAt
              && ParseMode(command.mode) == Some(s.mode)
              && s.linearVelocity == command.linearVelocity && s.angularVelocity == command.angularVelocity
              && RosTimeMessage(s.sourceStampNs) == Some(command.sourceStamp)
  {
    var stampNs := ToNanoseconds(command.sourceStamp);
    ExceedsIsComparison(stampNs - ctx.nowRosNs, rules.maxFutureSkewMs);
    ExceedsIsComparison(ctx.nowRosNs - stampNs, rules.commandTimeoutMs);
    if IsNormalizedStamp(command.sourceStamp) && stampNs >= 0 {
      StampRoundTrip(command.sourceStamp);
    }
  }

  // The reason that is given is true of the sample, whichever rule is asked
  // first.
  lemma RefusalsAreTrue(command: ControlCommand, ctx: Context, rules: CommandRules)
    requires Validate(command, ctx, rules).Err?
    ensures match Validate(command, ctx, rules).error
            case SourceIdMismatch => command.sourceId != ctx.expectedSourceId
            case UnknownMode => command.mode != MODE_NORMAL && command.mode != MODE_HOLD
            case ValueNonFinite => command.linearVelocity.NonFinite? || command.angularVelocity.NonFinite?
            case HoldNonzero => command.mode == MODE_HOLD && !IsStill(command)
            case OutOfRange => command.mode == MODE_NORMAL && !MotionAllowed(command, CommandMode.Normal, rules)
            case ZeroStamp => command.sourceStamp == Stamp(0, 0)
            case InvalidStamp => command.sourceStamp.nanosec >= NS_PER_SECOND
            case ClockInvalid => !ctx.rosClockValid || ctx.nowRosNs < 0
            case FutureStamp =>
              ToNanoseconds(command.sourceStamp) > ctx.nowRosNs + rules.maxFutureSkewMs * NS_PER_MILLISECOND
            case Stale =>
              || ToNanoseconds(command.sourceStamp) < 0
              || ToNanoseconds(command.sourceStamp) < ctx.nowRosNs - rules.commandTimeoutMs * NS_PER_MILLISECOND
            case SequenceNotIncreasing =>
              ctx.lastAcceptedSequence.Some? && command.sourceSequence <= ctx.lastAcceptedSequence.value
            case _ => false
  {
    var stampNs := ToNanoseconds(command.sourceStamp);
    ExceedsIsComparison(stampNs - ctx.nowRosNs, rules.maxFutureSkewMs);
    ExceedsIsComparison(ctx.nowRosNs - stampNs, rules.commandTimeoutMs);
  }

  predicate IsStill(command: ControlCommand) {
    command.linearVelocity == command.angularVelocity == Finite(0.0)
  }
}
