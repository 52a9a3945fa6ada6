// The canonical text of a gateway contract, and its writer
// (control_link_contract/src/config_identity.cpp).
module ContractText {
  import opened Common
  import opened Messages
  import opened Appending
  import opened Sorting
  import opened CanonicalText
  import opened ConfigModel

  // ------------------------------------------------------------ lines

  function SettingsLines(g: GatewaySettings): seq<Token> {
    [StrTok("gateway.node_fqn", g.nodeFqn),
     StrTok("gateway.output_rate_hz", BitsText(g.outputRateHz)),
     UintTok("gateway.command_timeout_ms", g.commandTimeoutMs),
     UintTok("gateway.source_switch_hold_ms", g.sourceSwitchHoldMs),
     UintTok("gateway.recovery_valid_samples", g.recoveryValidSamples),
     UintTok("gateway.graph_poll_ms", g.graphPollMs),
     UintTok("gateway.graph_stable_window_ms", g.graphStableWindowMs),
     UintTok("gateway.ros_clock_stall_timeout_ms", g.rosClockStallTimeoutMs),
     UintTok("gateway.vehicle_state_topic_timeout_ms", g.vehicleStateTopicTimeoutMs),
     UintTok("gateway.output_tick_late_threshold_ms", g.outputTickLateThresholdMs),
     UintTok("gateway.consecutive_late_ticks_to_safe_stop", g.consecutiveLateTicksToSafeStop)]
  }

  function LimitsLines(l: CommandLimits): seq<Token> {
    [StrTok("limits.max_abs_linear_velocity_mps", BitsText(l.maxAbsLinear)),
     StrTok("limits.max_abs_angular_velocity_radps", BitsText(l.maxAbsAngular)),
     BoolTok("limits.reject_non_finite", l.rejectNonFinite),
     BoolTok("limits.reject_zero_stamp", l.rejectZeroStamp),
     UintTok("limits.max_future_skew_ms", l.maxFutureSkewMs)]
  }

  function ReliabilityName(r: Reliability): string {
    match r case Reliable => "reliable" case BestEffort => "best_effort"
  }

  function DurabilityName(d: Durability): string {
    match d case Volatile => "volatile" case TransientLocal => "transient_local"
  }

  function HistoryName(h: History): string {
    match h case KeepLast => "keep_last" case KeepAll => "keep_all"
  }

  function LivelinessName(l: Liveliness): string {
    match l case Automatic => "automatic" case ManualByTopic => "manual_by_topic"
  }

  function DirectionName(d: RemoteDirection): string {
    match d case RemotePublisher => "publisher" case RemoteSubscription => "subscription"
  }

  function OptionalUintLines(present: string, name: string, v: Option<uint64>): seq<Token> {
    [BoolTok(present, v.Some?)] + (if v.Some? then [UintTok(name, v.value)] else [])
  }

  function OptionalStrLines(present: string, name: string, v: Option<string>): seq<Token> {
    [BoolTok(present, v.Some?)] + (if v.Some? then [StrTok(name, v.value)] else [])
  }

  // A keep-all history does not use the depth.
  function UsedDepth(q: QosProfile): Option<uint64> {
    if q.history.KeepLast? then Some(q.depth) else None
  }

  function LivelinessText(l: Option<Liveliness>): Option<string> {
    if l.Some? then Some(LivelinessName(l.value)) else None
  }

  function PolicyLines(q: QosProfile): seq<Token> {
    [StrTok("qos.reliability", ReliabilityName(q.reliability)),
     StrTok("qos.durability", DurabilityName(q.durability)),
     StrTok("qos.history", HistoryName(q.history))]
  }

  function QosLines(q: QosProfile): seq<Token> {
    PolicyLines(q)
    + OptionalUintLines("qos.depth.present", "qos.depth.value", UsedDepth(q))
    + OptionalUintLines("qos.deadline_ms.present", "qos.deadline_ms.value", q.deadlineMs)
    + OptionalUintLines("qos.lifespan_ms.present", "qos.lifespan_ms.value", q.lifespanMs)
    + OptionalStrLines("qos.liveliness.present", "qos.liveliness.value", LivelinessText(q.liveliness))
    + OptionalUintLines("qos.liveliness_lease_duration_ms.present", "qos.liveliness_lease_duration_ms.value", q.leaseMs)
  }

  function QosEntryLines(e: (string, QosProfile)): seq<Token> {
    [StrTok("qos_profiles.name", e.0)] + QosLines(e.1)
  }

  function TopicsLines(i: InputContract, o: OutputContract): seq<Token> {
    [StrTok("input.topic_prefix", i.topicPrefix),
     StrTok("input.type", i.messageType),
     StrTok("input.qos_profile", i.qosProfile),
     StrTok("output.topic", o.topic),
     StrTok("output.type", o.messageType),
     StrTok("output.qos_profile", o.qosProfile)]
  }

  function StateTopicNameLines(e: (string, StateTopic)): seq<Token> {
    [StrTok("state_topics.name", e.0),
     StrTok("state_topics.topic", e.1.topic),
     StrTok("state_topics.type", e.1.messageType)]
  }

  function StateTopicLines(e: (string, StateTopic)): seq<Token> {
    StateTopicNameLines(e)
    + OptionalStrLines("state_topics.qos_profile.present", "state_topics.qos_profile.value", e.1.qosProfile)
  }

  function EndpointRoleLines(e: CriticalEndpoint): seq<Token> {
    [StrTok("critical_endpoint.id", e.id),
     StrTok("critical_endpoint.topic", e.topic),
     StrTok("critical_endpoint.type", e.messageType),
     StrTok("critical_endpoint.remote_direction", DirectionName(e.direction)),
     StrTok("critical_endpoint.remote_node_fqn", e.remoteNodeFqn),
     UintTok("critical_endpoint.min_count", e.minCount)]
  }

  function EndpointRuleLines(e: CriticalEndpoint): seq<Token> {
    [BoolTok("critical_endpoint.allow_additional_endpoints", e.allowAdditional),
     BoolTok("critical_endpoint.required_for_activation", e.requiredForActivation),
     BoolTok("critical_endpoint.exact_qos_required", e.exactQosRequired),
     StrTok("critical_endpoint.runtime_loss_action", "safe_stop"),
     StrTok("critical_endpoint.runtime_qos_mismatch_action", "degraded")]
  }

  function MaxCountLines(e: CriticalEndpoint): seq<Token> {
    OptionalUintLines("critical_endpoint.max_count.present", "critical_endpoint.max_count.value", e.maxCount)
  }

  function EndpointLines(e: CriticalEndpoint): seq<Token> {
    EndpointRoleLines(e) + MaxCountLines(e) + EndpointRuleLines(e)
  }

  lemma {:induction false} ListLinesAppend<T>(linesOf: T -> seq<Token>, xs: seq<T>, x: T)
    ensures ListLines(linesOf, xs + [x]) == ListLines(linesOf, xs) + linesOf(x)
  {
    if xs == [] {
      assert xs + [x] == [x];
      assert ListLines(linesOf, [x]) == linesOf(x) + ListLines(linesOf, []);
    } else {
      ListLinesAppend(linesOf, xs[1..], x);
      assert (xs + [x])[1..] == xs[1..] + [x];
    }
  }

  function EndpointKey(e: CriticalEndpoint): seq<int> {
    Codes(e.id)
  }

  function CountedLines<T>(name: string, linesOf: T -> seq<Token>, xs: seq<T>): seq<Token> {
    [UintTok(name, |xs|)] + ListLines(linesOf, xs)
  }

  function HeaderLines(schemaVersion: uint64): seq<Token> {
    [StrTok("format", "control_link.gateway_contract.canonical.v1"), UintTok("schema_version", schemaVersion)]
  }

  function ContractLines(c: GatewayContract): seq<Token> {
    HeaderLines(c.schemaVersion)
    + SettingsLines(c.gateway)
    + LimitsLines(c.limits)
    + CountedLines("qos_profiles.count", QosEntryLines, c.qosProfiles)
    + TopicsLines(c.input, c.output)
    + CountedLines("state_topics.count", StateTopicLines, c.stateTopics)
    + CountedLines("critical_endpoints.count", EndpointLines, Sort(EndpointKey, c.criticalEndpoints))
  }

  function TextOf(c: GatewayContract): string {
    PrintAll(ContractLines(c))
  }

  // ------------------------------------------------------- the writer

  method SerializeSettings(w: CanonicalWriter, g: GatewaySettings)
    requires w.Valid()
    modifies w
    ensures w.Valid() && w.lines == old(w.lines) + SettingsLines(g)
  {
    Join11(w.lines, SettingsLines(g));
    w.String("gateway.node_fqn", g.nodeFqn);
    w.FloatingPoint("gateway.output_rate_hz", g.outputRateHz);
    w.UnsignedInteger("gateway.command_timeout_ms", g.commandTimeoutMs);
    w.UnsignedInteger("gateway.source_switch_hold_ms", g.sourceSwitchHoldMs);
    w.UnsignedInteger("gateway.recovery_valid_samples", g.recoveryValidSamples);
    w.UnsignedInteger("gateway.graph_poll_ms", g.graphPollMs);
    w.UnsignedInteger("gateway.graph_stable_window_ms", g.graphStableWindowMs);
    w.UnsignedInteger("gateway.ros_clock_stall_timeout_ms", g.rosClockStallTimeoutMs);
    w.UnsignedInteger("gateway.vehicle_state_topic_timeout_ms", g.vehicleStateTopicTimeoutMs);
    w.UnsignedInteger("gateway.output_tick_late_threshold_ms", g.outputTickLateThresholdMs);
    w.UnsignedInteger("gateway.consecutive_late_ticks_to_safe_stop", g.consecutiveLateTicksToSafeStop);
  }

  method SerializeLimits(w: CanonicalWriter, l: CommandLimits)
    requires w.Valid()
    modifies w
    ensures w.Valid() && w.lines == old(w.lines) + LimitsLines(l)
  {
    Join5(w.lines, LimitsLines(l));
    w.FloatingPoint("limits.max_abs_linear_velocity_mps", l.maxAbsLinear);
    w.FloatingPoint("limits.max_abs_angular_velocity_radps", l.maxAbsAngular);
    w.Boolean("limits.reject_non_finite", l.rejectNonFinite);
    w.Boolean("limits.reject_zero_stamp", l.rejectZeroStamp);
    w.UnsignedInteger("limits.max_future_skew_ms", l.maxFutureSkewMs);
  }

  method OptionalUnsigned(w: CanonicalWriter, present: string, name: string, v: Option<uint64>)
    requires w.Valid()
    modifies w
    ensures w.Valid() && w.lines == old(w.lines) + OptionalUintLines(present, name, v)
  {
    w.Boolean(present, v.Some?);
    if v.Some? {
      w.UnsignedInteger(name, v.value);
    }
  }

  method OptionalString(w: CanonicalWriter, present: string, name: string, v: Option<string>)
    requires w.Valid()
    modifies w
    ensures w.Valid() && w.lines == old(w.lines) + OptionalStrLines(present, name, v)
  {
    w.Boolean(present, v.Some?);
    if v.Some? {
      w.String(name, v.value);
    }
  }

  method SerializePolicies(w: CanonicalWriter, q: QosProfile)
    requires w.Valid()
    modifies w
    ensures w.Valid() && w.lines == old(w.lines) + PolicyLines(q)
  {
    Join3(w.lines, PolicyLines(q));
    w.String("qos.reliability", ReliabilityName(q.reliability));
    w.String("qos.durability", DurabilityName(q.durability));
    w.String("qos.history", HistoryName(q.history));
  }

  method SerializeQos(w: CanonicalWriter, q: QosProfile)
    requires w.Valid()
    modifies w
    ensures w.Valid() && w.lines == old(w.lines) + QosLines(q)
  {
    JoinParts(
      w.lines, PolicyLines(q),
      OptionalUintLines("qos.depth.present", "qos.depth.value", UsedDepth(q)),
      OptionalUintLines("qos.deadline_ms.present", "qos.deadline_ms.value", q.deadlineMs),
      OptionalUintLines("qos.lifespan_ms.present", "qos.lifespan_ms.value", q.lifespanMs),
      OptionalStrLines("qos.liveliness.present", "qos.liveliness.value", LivelinessText(q.liveliness)),
      OptionalUintLines("qos.liveliness_lease_duration_ms.present", "qos.liveliness_lease_duration_ms.value", q.leaseMs),
      []);
    SerializePolicies(w, q);
    OptionalUnsigned(w, "qos.depth.present", "qos.depth.value", if q.history.KeepLast? then Some(q.depth) else None);
    OptionalUnsigned(w, "qos.deadline_ms.present", "qos.deadline_ms.value", q.deadlineMs);
    OptionalUnsigned(w, "qos.lifespan_ms.present", "qos.lifespan_ms.value", q.lifespanMs);
    OptionalString(w, "qos.liveliness.present", "qos.liveliness.value",
                   if q.liveliness.Some? then Some(LivelinessName(q.liveliness.value)) else None);
    OptionalUnsigned(w, "qos.liveliness_lease_duration_ms.present", "qos.liveliness_lease_duration_ms.value", q.leaseMs);
  }

  method SerializeQosEntry(w: CanonicalWriter, e: (string, QosProfile))
    requires w.Valid()
    modifies w
    ensures w.Valid() && w.lines == old(w.lines) + QosEntryLines(e)
  {
    JoinParts(w.lines, [StrTok("qos_profiles.name", e.0)], QosLines(e.1), [], [], [], [], []);
    w.String("qos_profiles.name", e.0);
    SerializeQos(w, e.1);
  }

  method SerializeQosProfiles(w: CanonicalWriter, profiles: seq<(string, QosProfile)>)
    requires w.Valid()
    modifies w
    ensures w.Valid() && w.lines == old(w.lines) + CountedLines("qos_profiles.count", QosEntryLines, profiles)
  {
    w.UnsignedInteger("qos_profiles.count", |profiles|);
    ghost var counted := w.lines;
    for i := 0 to |profiles|
      invariant w.Valid() && w.lines == counted + ListLines(QosEntryLines, profiles[..i])
    {
      ListLinesNext(QosEntryLines, profiles, i, counted);
      SerializeQosEntry(w, profiles[i]);
    }
    AllLines("qos_profiles.count", QosEntryLines, profiles, old(w.lines));
  }

  lemma ListLinesNext<T>(linesOf: T -> seq<Token>, xs: seq<T>, i: nat, before: seq<Token>)
    requires i < |xs|
    ensures before + ListLines(linesOf, xs[..i + 1]) == before + ListLines(linesOf, xs[..i]) + linesOf(xs[i])
  {
    ListLinesAppend(linesOf, xs[..i], xs[i]);
    assert xs[..i + 1] == xs[..i] + [xs[i]];
    JoinParts(before, ListLines(linesOf, xs[..i]), linesOf(xs[i]), [], [], [], [], []);
  }

  lemma AllLines<T>(name: string, linesOf: T -> seq<Token>, xs: seq<T>, before: seq<Token>)
    ensures before + [UintTok(name, |xs|)] + ListLines(linesOf, xs[..|xs|]) == before + CountedLines(name, linesOf, xs)
  {
    assert xs[..|xs|] == xs;
    JoinParts(before, [UintTok(name, |xs|)], ListLines(linesOf, xs), [], [], [], [], []);
  }

  method SerializeTopics(w: CanonicalWriter, i: InputContract, o: OutputContract)
    requires w.Valid()
    modifies w
    ensures w.Valid() && w.lines == old(w.lines) + TopicsLines(i, o)
  {
    Join6(w.lines, TopicsLines(i, o));
    w.String("input.topic_prefix", i.topicPrefix);
    w.String("input.type", i.messageType);
    w.String("input.qos_profile", i.qosProfile);
    w.String("output.topic", o.topic);
    w.String("output.type", o.messageType);
    w.String("output.qos_profile", o.qosProfile);
  }

  method SerializeStateTopicName(w: CanonicalWriter, e: (string, StateTopic))
    requires w.Valid()
    modifies w
    ensures w.Valid() && w.lines == old(w.lines) + StateTopicNameLines(e)
  {
    Join3(w.lines, StateTopicNameLines(e));
    w.String("state_topics.name", e.0);
    w.String("state_topics.topic", e.1.topic);
    w.String("state_topics.type", e.1.messageType);
  }

  method SerializeStateTopic(w: CanonicalWriter, e: (string, StateTopic))
    requires w.Valid()
    modifies w
    ensures w.Valid() && w.lines == old(w.lines) + StateTopicLines(e)
  {
    JoinParts(w.lines, StateTopicNameLines(e),
              OptionalStrLines("state_topics.qos_profile.present", "state_topics.qos_profile.value", e.1.qosProfile),
              [], [], [], [], []);
    SerializeStateTopicName(w, e);
    OptionalString(w, "state_topics.qos_profile.present", "state_topics.qos_profile.value", e.1.qosProfile);
  }

  method SerializeStateTopics(w: CanonicalWriter, topics: seq<(string, StateTopic)>)
    requires w.Valid()
    modifies w
    ensures w.Valid() && w.lines == old(w.lines) + CountedLines("state_topics.count", StateTopicLines, topics)
  {
    w.UnsignedInteger("state_topics.count", |topics|);
    ghost var counted := w.lines;
    for i := 0 to |topics|
      invariant w.Valid() && w.lines == counted + ListLines(StateTopicLines, topics[..i])
    {
      ListLinesNext(StateTopicLines, topics, i, counted);
      SerializeStateTopic(w, topics[i]);
    }
    AllLines("state_topics.count", StateTopicLines, topics, old(w.lines));
  }

  method SerializeEndpointRole(w: CanonicalWriter, e: CriticalEndpoint)
    requires w.Valid()
    modifies w
    ensures w.Valid() && w.lines == old(w.lines) + EndpointRoleLines(e)
  {
    Join6(w.lines, EndpointRoleLines(e));
    w.String("critical_endpoint.id", e.id);
    w.String("critical_endpoint.topic", e.topic);
    w.String("critical_endpoint.type", e.messageType);
    w.String("critical_endpoint.remote_direction", DirectionName(e.direction));
    w.String("critical_endpoint.remote_node_fqn", e.remoteNodeFqn);
    w.UnsignedInteger("critical_endpoint.min_count", e.minCount);
  }

  method SerializeEndpointRules(w: CanonicalWriter, e: CriticalEndpoint)
    requires w.Valid()
    modifies w
    ensures w.Valid() && w.lines == old(w.lines) + EndpointRuleLines(e)
  {
    Join5(w.lines, EndpointRuleLines(e));
    w.Boolean("critical_endpoint.allow_additional_endpoints", e.allowAdditional);
    w.Boolean("critical_endpoint.required_for_activation", e.requiredForActivation);
    w.Boolean("critical_endpoint.exact_qos_required", e.exactQosRequired);
    w.String("critical_endpoint.runtime_loss_action", "safe_stop");
    w.String("critical_endpoint.runtime_qos_mismatch_action", "degraded");
  }

  method SerializeEndpoint(w: CanonicalWriter, e: CriticalEndpoint)
    requires w.Valid()
    modifies w
    ensures w.Valid() && w.lines == old(w.lines) + EndpointLines(e)
  {
    JoinParts(w.lines, EndpointRoleLines(e), MaxCountLines(e), EndpointRuleLines(e), [], [], [], []);
    SerializeEndpointRole(w, e);
    OptionalUnsigned(w, "critical_endpoint.max_count.present", "critical_endpoint.max_count.value", e.maxCount);
    SerializeEndpointRules(w, e);
  }

  method SerializeEndpoints(w: CanonicalWriter, endpoints: seq<CriticalEndpoint>)
    requires w.Valid()
    modifies w
    ensures w.Valid()
    ensures w.lines ==
            old(w.lines) + CountedLines("critical_endpoints.count", EndpointLines, Sort(EndpointKey, endpoints))
  {
    var sorted := Sort(EndpointKey, endpoints);
    w.UnsignedInteger("critical_endpoints.count", |sorted|);
    ghost var counted := w.lines;
    for i := 0 to |sorted|
      invariant w.Valid() && w.lines == counted + ListLines(EndpointLines, sorted[..i])
    {
      ListLinesNext(EndpointLines, sorted, i, counted);
      SerializeEndpoint(w, sorted[i]);
    }
    AllLines("critical_endpoints.count", EndpointLines, sorted, old(w.lines));
  }

  method SerializeHeader(w: CanonicalWriter, schemaVersion: uint64)
    requires w.Valid()
    modifies w
    ensures w.Valid() && w.lines == old(w.lines) + HeaderLines(schemaVersion)
  {
    Join2(w.lines, HeaderLines(schemaVersion));
    w.String("format", "control_link.gateway_contract.canonical.v1");
    w.UnsignedInteger("schema_version", schemaVersion);
  }

  method CanonicalSerializeGatewayContract(c: GatewayContract) returns (text: string)
    ensures text == TextOf(c)
  {
    var w := new CanonicalWriter();
    SerializeHeader(w, c.schemaVersion);
    assert w.lines == HeaderLines(c.schemaVersion);
    SerializeSettings(w, c.gateway);
    SerializeLimits(w, c.limits);
    SerializeQosProfiles(w, c.qosProfiles);
    SerializeTopics(w, c.input, c.output);
    SerializeStateTopics(w, c.stateTopics);
    SerializeEndpoints(w, c.criticalEndpoints);
    return w.buffer;
  }
}
