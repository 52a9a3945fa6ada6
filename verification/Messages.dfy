// The ROS messages and contract fields that the command path exchanges.
module Messages {
  import opened Common

  type int32 = n: int | -0x8000_0000 <= n < 0x8000_0000
  type uint32 = n: int | 0 <= n < 0x1_0000_0000
  type uint64 = n: int | 0 <= n <= MAX_UINT64
  type int64 = n: int | 0 - MAX_INT64 - 1 <= n <= MAX_INT64

  // builtin_interfaces/Time; the type alone does not normalise nanosec.
  datatype Stamp = Stamp(sec: int32, nanosec: uint32)

  const MODE_NORMAL: uint8 := 0
  const MODE_HOLD: uint8 := 1

  datatype ControlCommand = ControlCommand(
    sourceStamp: Stamp,
    sourceId: string,
    sourceSequence: uint64,
    mode: uint8,
    linearVelocity: Double,
    angularVelocity: Double)

  datatype CommandMode = Normal | Hold

  function ParseMode(raw: uint8): Option<CommandMode> {
    if raw == MODE_NORMAL then Some(Normal)
    else if raw == MODE_HOLD then Some(Hold)
    else None
  }

  // An RMW implementation together with a publisher GID: one publisher
  // generation.
  datatype PublisherKey = PublisherKey(rmwImplementation: string, gid: seq<uint8>)

  // What the validators read of the gateway contract.
  datatype CommandRules = CommandRules(
    gatewayFqn: string,
    maxAbsLinear: real,
    maxAbsAngular: real,
    maxFutureSkewMs: uint64,
    commandTimeoutMs: uint64)

  function ToNanoseconds(stamp: Stamp): (ns: int64)
    ensures stamp.sec < 0 && stamp.nanosec < NS_PER_SECOND ==> ns < 0
  {
    stamp.sec * NS_PER_SECOND + stamp.nanosec
  }

  predicate IsZeroStamp(stamp: Stamp) {
    stamp.sec == 0 && stamp.nanosec == 0
  }

  predicate IsNormalizedStamp(stamp: Stamp) {
    stamp.nanosec < NS_PER_SECOND
  }

  // The conversion back from nanoseconds. Seconds beyond 32 bits do not occur:
  // every stamp the gateway prints was read from a message.
  function RosTimeMessage(ns: int64): Option<Stamp> {
    if ns < 0 || ns / NS_PER_SECOND >= 0x8000_0000 then None
    else Some(Stamp(ns / NS_PER_SECOND, ns % NS_PER_SECOND))
  }

  lemma StampRoundTrip(stamp: Stamp)
    requires IsNormalizedStamp(stamp) && ToNanoseconds(stamp) >= 0
    ensures RosTimeMessage(ToNanoseconds(stamp)) == Some(stamp)
  {
    assert stamp.sec >= 0;
    assert (stamp.sec * NS_PER_SECOND + stamp.nanosec) / NS_PER_SECOND == stamp.sec;
  }

  predicate ExceedsMilliseconds(durationNs: int, limitMs: uint64) {
    if limitMs > MAX_UINT64 / NS_PER_MILLISECOND then false
    else durationNs > limitMs * NS_PER_MILLISECOND
  }

  // The guard against overflow never changes the verdict on a duration that
  // the code can represent.
  lemma ExceedsIsComparison(durationNs: int, limitMs: uint64)
    requires durationNs <= MAX_UINT64
    ensures ExceedsMilliseconds(durationNs, limitMs) <==> durationNs > limitMs * NS_PER_MILLISECOND
  {
    if limitMs > MAX_UINT64 / NS_PER_MILLISECOND {
      assert limitMs * NS_PER_MILLISECOND >= MAX_UINT64;
    }
  }

  predicate Within(v: Double, bound: real) {
    v.Finite? && Abs(v.value) <= bound
  }

  // The motion rule both validators promise, in one place.
  predicate MotionAllowed(command: ControlCommand, mode: CommandMode, rules: CommandRules) {
    match mode
    case Hold => command.linearVelocity == Finite(0.0) && command.angularVelocity == Finite(0.0)
    case Normal =>
      && Within(command.linearVelocity, rules.maxAbsLinear)
      && Within(command.angularVelocity, rules.maxAbsAngular)
  }

  // Neither older than the command timeout nor further ahead than the skew.
  predicate TimeAllowed(stampNs: int, nowNs: int, rules: CommandRules) {
    && nowNs >= 0 && stampNs >= 0
    && stampNs - nowNs <= rules.maxFutureSkewMs * NS_PER_MILLISECOND
    && nowNs - stampNs <= rules.commandTimeoutMs * NS_PER_MILLISECOND
  }
}
