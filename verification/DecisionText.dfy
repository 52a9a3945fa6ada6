// The canonical texts of the source policy, the profile, the CAN map and the
// whole decision configuration (control_link_contract/src/config_identity.cpp).
module DecisionText {
  import opened Common
  import opened Sorting
  import opened CanonicalText
  import opened ConfigModel
  import opened ContractText

  // -------------------------------------------------------- source policy

  // The enabled sources' entries, in the order of their ids.
  predicate PolicyCovers(policy: SourcePolicy, profile: Profile) {
    forall x :: x in profile.common.enabledSources ==> x in policy.sources
  }

  function SortedIds(ids: seq<string>): (r: seq<string>)
    ensures forall x :: x in r <==> x in ids
  {
    SortPermutes(Codes, ids);
    assert forall x :: x in Sort(Codes, ids) <==> x in multiset(ids);
    Sort(Codes, ids)
  }

  function Entries(policy: SourcePolicy, ids: seq<string>): (r: seq<(string, SourcePolicyEntry)>)
    requires forall x :: x in ids ==> x in policy.sources
    ensures |r| == |ids|
  {
    seq(|ids|, i requires 0 <= i < |ids| => (ids[i], policy.sources[ids[i]]))
  }

  function SourceLines(e: (string, SourcePolicyEntry)): seq<Token> {
    [StrTok("source_policy.source.id", e.0),
     StrTok("source_policy.source.topic", e.1.topic),
     StrTok("source_policy.source.type", e.1.messageType),
     UintTok("source_policy.source.priority", e.1.priority),
     UintTok("source_policy.source.lease_timeout_ms", e.1.leaseTimeoutMs),
     BoolTok("source_policy.source.required_for_activation", e.1.requiredForActivation)]
  }

  function SourcePolicyLines(policy: SourcePolicy, profile: Profile): seq<Token>
    requires PolicyCovers(policy, profile)
  {
    [UintTok("source_policy.schema_version", policy.schemaVersion)]
    + CountedLines("source_policy.sources.count", SourceLines,
                   Entries(policy, SortedIds(profile.common.enabledSources)))
  }

  // -------------------------------------------------------------- profile

  function ClockModeName(m: ClockMode): string {
    match m case SimClock => "sim" case SystemClock => "system"
  }

  function EnabledLine(id: string): seq<Token> {
    [StrTok("profile.enabled_sources.id", id)]
  }

  function IngressLines(e: (string, IngressBinding)): seq<Token> {
    [StrTok("profile.ingress.source_id", e.0),
     StrTok("profile.ingress.input_topic", e.1.inputTopic),
     StrTok("profile.ingress.input_type", e.1.inputType),
     StrTok("profile.ingress.output_topic", e.1.outputTopic)]
  }

  function ProfileId(p: Profile): string {
    match p case RobotProfile(_, _) => "robot" case AdasProfile(_, _) => "adas"
  }

  function ProfileHeadLines(p: Profile): seq<Token> {
    [StrTok("profile.id", ProfileId(p)),
     UintTok("profile.schema_version", p.common.schemaVersion),
     StrTok("profile.clock_mode", ClockModeName(p.common.clockMode)),
     BoolTok("profile.use_sim_time", p.common.useSimTime)]
  }

  function RobotAdapterLines(r: RobotSettings): seq<Token> {
    [StrTok("robot.geometry.wheel_separation_m", BitsText(r.wheelSeparation)),
     StrTok("robot.geometry.wheel_radius_m", BitsText(r.wheelRadius)),
     StrTok("robot.adapter.canonical_input_topic", r.canonicalInputTopic),
     StrTok("robot.adapter.controller_manager_fqn", r.controllerManagerFqn),
     StrTok("robot.adapter.controller_node_fqn", r.controllerNodeFqn),
     StrTok("robot.adapter.hardware_component_name", r.hardwareComponentName),
     StrTok("robot.adapter.controller_output_topic", r.controllerOutputTopic),
     StrTok("robot.adapter.controller_command_type", r.controllerCommandType),
     StrTok("robot.adapter.odometry_topic", r.odometryTopic),
     UintTok("robot.adapter.local_watchdog_timeout_ms", r.localWatchdogTimeoutMs)]
  }

  function RobotHealthLines(r: RobotSettings): seq<Token> {
    [StrTok("robot.frames.map", r.mapFrame),
     StrTok("robot.frames.odom", r.odomFrame),
     StrTok("robot.frames.base_footprint", r.baseFootprintFrame),
     StrTok("robot.frames.base_link", r.baseLinkFrame),
     StrTok("robot.frames.laser", r.laserFrame),
     UintTok("robot.health.vehicle_state_publish_period_ms", r.vehicleStatePublishPeriodMs),
     UintTok("robot.health.tf_lookup_timeout_ms", r.tfLookupTimeoutMs),
     UintTok("robot.health.tf_max_age_ms", r.tfMaxAgeMs),
     UintTok("robot.health.controller_state_timeout_ms", r.controllerStateTimeoutMs),
     UintTok("robot.health.odometry_timeout_ms", r.odometryTimeoutMs)]
  }

  function AdasLines(a: AdasSettings): seq<Token> {
    [StrTok("adas.adapter.canonical_input_topic", a.canonicalInputTopic),
     StrTok("adas.adapter.vehicle_state_output_topic", a.vehicleStateOutputTopic),
     StrTok("adas.adapter.interface", a.networkInterface),
     UintTok("adas.adapter.poll_timeout_ms", a.pollTimeoutMs),
     UintTok("adas.adapter.tx_period_ms", a.txPeriodMs),
     UintTok("adas.adapter.vehicle_state_publish_period_ms", a.vehicleStatePublishPeriodMs),
     UintTok("adas.adapter.local_watchdog_timeout_ms", a.localWatchdogTimeoutMs),
     UintTok("adas.adapter.can_state_frame_timeout_ms", a.canStateFrameTimeoutMs),
     UintTok("adas.adapter.recovery_valid_frames", a.recoveryValidFrames),
     UintTok("adas.vehicle_simulator.state_period_ms", a.simulatorStatePeriodMs),
     UintTok("adas.vehicle_simulator.local_watchdog_timeout_ms", a.simulatorWatchdogTimeoutMs),
     UintTok("adas.vehicle_simulator.first_order_time_constant_ms", a.simulatorTimeConstantMs)]
  }

  function SettingsTail(p: Profile): seq<Token> {
    match p
    case RobotProfile(_, robot) => RobotAdapterLines(robot) + RobotHealthLines(robot)
    case AdasProfile(_, adas) => AdasLines(adas)
  }

  function EnabledLines(p: Profile): seq<Token> {
    CountedLines("profile.enabled_sources.count", EnabledLine, SortedIds(p.common.enabledSources))
  }

  function IngressListLines(p: Profile): seq<Token> {
    CountedLines("profile.ingress.count", IngressLines, p.common.ingress)
  }

  function ProfileLines(p: Profile): seq<Token> {
    ProfileHeadLines(p) + EnabledLines(p) + IngressListLines(p) + SettingsTail(p)
  }

  // -------------------------------------------------------------- CAN map

  function SignalLines(prefix: string, s: PhysicalSignal): seq<Token> {
    [StrTok(prefix + ".scale", BitsText(s.scale)),
     StrTok(prefix + ".offset", BitsText(s.offset)),
     StrTok(prefix + ".minimum", BitsText(s.minimum)),
     StrTok(prefix + ".maximum", BitsText(s.maximum))]
  }

  function CanHeadLines(m: CanSignalMap): seq<Token> {
    [UintTok("can.schema_version", m.schemaVersion),
     StrTok("can.protocol_id", m.protocolId),
     StrTok("can.byte_order", "little_endian"),
     UintTok("can.dlc", m.dlc),
     StrTok("can.crc.algorithm", "crc8_sae_j1850"),
     UintTok("can.crc.polynomial", m.crc.polynomial),
     UintTok("can.crc.initial_value", m.crc.initialValue),
     UintTok("can.crc.final_xor", m.crc.finalXor),
     BoolTok("can.crc.reflect_input", m.crc.reflectInput),
     BoolTok("can.crc.reflect_output", m.crc.reflectOutput),
     BoolTok("can.crc.include_can_id_lsb_first", m.crc.includeCanIdLsbFirst)]
  }

  function ByteLine(b: uint8): seq<Token> {
    [UintTok("can.crc.protected_payload_bytes.value", b)]
  }

  function CanCounterLines(m: CanSignalMap): seq<Token> {
    [UintTok("can.counter.bit_length", m.counter.bitLength),
     UintTok("can.counter.modulo", m.counter.modulo),
     BoolTok("can.counter.accept_any_first_value", m.counter.acceptAnyFirstValue),
     BoolTok("can.counter.duplicate_is_error", m.counter.duplicateIsError),
     BoolTok("can.counter.jump_is_error", m.counter.jumpIsError),
     UintTok("can.control.can_id", m.controlCanId)]
  }

  function CanTailLines(m: CanSignalMap): seq<Token> {
    CanCounterLines(m)
    + SignalLines("can.control.target_speed_mps", m.targetSpeed)
    + SignalLines("can.control.target_yaw_rate_radps", m.targetYawRate)
    + [UintTok("can.state.can_id", m.stateCanId)]
    + SignalLines("can.state.measured_speed_mps", m.measuredSpeed)
    + SignalLines("can.state.measured_yaw_rate_radps", m.measuredYawRate)
  }

  function ProtectedLines(m: CanSignalMap): seq<Token> {
    CountedLines("can.crc.protected_payload_bytes.count", ByteLine, m.crc.protectedPayloadBytes)
  }

  function CanLines(m: CanSignalMap): seq<Token> {
    CanHeadLines(m) + ProtectedLines(m) + CanTailLines(m)
  }

  // ----------------------------------------------------------------- texts

  function SourcePolicyText(policy: SourcePolicy, profile: Profile): string
    requires PolicyCovers(policy, profile)
  {
    PrintAll([StrTok("format", "control_link.source_policy.canonical.v1")] + SourcePolicyLines(policy, profile))
  }

  function ProfileText(profile: Profile): string {
    PrintAll([StrTok("format", "control_link.profile_behavior.canonical.v1")] + ProfileLines(profile))
  }

  function CanText(m: CanSignalMap): string {
    PrintAll([StrTok("format", "control_link.can_signal_map.canonical.v1")] + CanLines(m))
  }

  function DecisionHeadLines(contractText: string): seq<Token> {
    [StrTok("format", "control_link.decision_config.canonical.v1"),
     StrTok("gateway_contract", contractText)]
  }

  function OptionalCanLines(m: Option<CanSignalMap>): seq<Token> {
    if m.Some? then CanLines(m.value) else []
  }

  // What the text of a decision configuration is made from.
  datatype Decision = Decision(contractText: string, policy: SourcePolicy, profile: Profile, can: Option<CanSignalMap>)

  // The CAN map goes with the ADAS profile, and the policy knows the sources.
  predicate Complete(d: Decision) {
    PolicyCovers(d.policy, d.profile) && (d.profile.AdasProfile? <==> d.can.Some?)
  }

  function WholeText(d: Decision): string
    requires Complete(d)
  {
    PrintAll(DecisionHeadLines(d.contractText) + SourcePolicyLines(d.policy, d.profile) + ProfileLines(d.profile)
             + OptionalCanLines(d.can))
  }

  // A configuration as it is handed to the printer.
  function ConfigOf(c: GatewayContract, p: SourcePolicy, pp: Profile, m: Option<CanSignalMap>): Decision {
    Decision(TextOf(c), p, pp, m)
  }

  // None stands for the exception on a CAN map that does not go with the
  // profile.
  function DecisionTextOf(contract: GatewayContract, policy: SourcePolicy, profile: Profile, can: Option<CanSignalMap>)
    : Option<string>
    requires PolicyCovers(policy, profile)
  {
    if profile.AdasProfile? != can.Some? then None
    else Some(WholeText(ConfigOf(contract, policy, profile, can)))
  }

  // ------------------------------------------------------------ cancelling

  lemma PrintSplit(x: seq<Token>, y: seq<Token>, after: string)
    ensures PrintAll(x + y) + after == PrintAll(x) + (PrintAll(y) + after)
  {
    PrintAppend(x, y);
    Associative(PrintAll(x), PrintAll(y), after);
  }

  // All elements of a list print lines of the same fields.
  ghost predicate Uniform<T(!new)>(linesOf: T -> seq<Token>) {
    forall x, y :: SameShape(linesOf(x), linesOf(y))
  }

  lemma {:induction false} UniformLists<T(!new)>(linesOf: T -> seq<Token>, xs: seq<T>, ys: seq<T>)
    requires Uniform(linesOf) && |xs| == |ys|
    ensures SameShape(ListLines(linesOf, xs), ListLines(linesOf, ys))
  {
    if xs != [] {
      UniformLists(linesOf, xs[1..], ys[1..]);
      assert SameShape(linesOf(xs[0]), linesOf(ys[0]));
    }
  }

  // A counted list is read off the front of a text in one way only.
  lemma CountedCancels<T(!new)>(name: string, linesOf: T -> seq<Token>, xs: seq<T>, ys: seq<T>, a: string, b: string)
    requires Uniform(linesOf)
    requires PrintAll(CountedLines(name, linesOf, xs)) + a == PrintAll(CountedLines(name, linesOf, ys)) + b
    ensures CountedLines(name, linesOf, xs) == CountedLines(name, linesOf, ys) && a == b
  {
    var x, y := [UintTok(name, |xs|)], [UintTok(name, |ys|)];
    PrintSplit(x, ListLines(linesOf, xs), a);
    PrintSplit(y, ListLines(linesOf, ys), b);
    SameShapeCancels(x, y, PrintAll(ListLines(linesOf, xs)) + a, PrintAll(ListLines(linesOf, ys)) + b);
    assert x[0] == y[0];
    UniformLists(linesOf, xs, ys);
    SameShapeCancels(ListLines(linesOf, xs), ListLines(linesOf, ys), a, b);
  }

  lemma SourcesUniform()
    ensures Uniform(SourceLines)
  {
  }

  lemma ListsUniform()
    ensures Uniform(EnabledLine) && Uniform(IngressLines) && Uniform(ByteLine)
  {
  }

  lemma SourcePolicyCancels(p: SourcePolicy, pp: Profile, q: SourcePolicy, qp: Profile, a: string, b: string)
    requires PolicyCovers(p, pp) && PolicyCovers(q, qp)
    requires PrintAll(SourcePolicyLines(p, pp)) + a == PrintAll(SourcePolicyLines(q, qp)) + b
    ensures SourcePolicyLines(p, pp) == SourcePolicyLines(q, qp) && a == b
  {
    var x := [UintTok("source_policy.schema_version", p.schemaVersion)];
    var y := [UintTok("source_policy.schema_version", q.schemaVersion)];
    var xs, ys := Entries(p, SortedIds(pp.common.enabledSources)), Entries(q, SortedIds(qp.common.enabledSources));
    var cx := CountedLines("source_policy.sources.count", SourceLines, xs);
    var cy := CountedLines("source_policy.sources.count", SourceLines, ys);
    PrintSplit(x, cx, a);
    PrintSplit(y, cy, b);
    SameShapeCancels(x, y, PrintAll(cx) + a, PrintAll(cy) + b);
    SourcesUniform();
    CountedCancels("source_policy.sources.count", SourceLines, xs, ys, a, b);
  }

  lemma HeadShape(p: Profile, q: Profile)
    ensures SameShape(ProfileHeadLines(p), ProfileHeadLines(q))
    ensures ProfileHeadLines(p) == ProfileHeadLines(q) ==> p.RobotProfile? == q.RobotProfile?
  {
    assert ProfileHeadLines(p)[0].text == ProfileId(p) && ProfileHeadLines(q)[0].text == ProfileId(q);
    assert |"robot"| != |"adas"|;
  }

  lemma TailShape(p: Profile, q: Profile)
    requires p.RobotProfile? == q.RobotProfile?
    ensures SameShape(SettingsTail(p), SettingsTail(q))
  {
    match p
    case RobotProfile(_, robot) =>
      RobotShape(robot, q.robot);
      ShapeOfParts(RobotAdapterLines(robot), RobotAdapterLines(q.robot), RobotHealthLines(robot), RobotHealthLines(q.robot));
    case AdasProfile(_, adas) => AdasShape(adas, q.adas);
  }

  lemma RobotShape(r: RobotSettings, s: RobotSettings)
    ensures SameShape(RobotAdapterLines(r), RobotAdapterLines(s))
    ensures SameShape(RobotHealthLines(r), RobotHealthLines(s))
  {
  }

  lemma AdasShape(a: AdasSettings, b: AdasSettings)
    ensures SameShape(AdasLines(a), AdasLines(b))
  {
  }

  lemma ShapeOfParts(a: seq<Token>, b: seq<Token>, c: seq<Token>, d: seq<Token>)
    requires SameShape(a, b) && SameShape(c, d)
    ensures SameShape(a + c, b + d)
  {
  }

  lemma ProfileParts(p: Profile, after: string)
    ensures PrintAll(ProfileLines(p)) + after ==
            PrintAll(ProfileHeadLines(p))
            + (PrintAll(EnabledLines(p)) + (PrintAll(IngressListLines(p)) + (PrintAll(SettingsTail(p)) + after)))
  {
    PrintSplit(ProfileHeadLines(p) + EnabledLines(p) + IngressListLines(p), SettingsTail(p), after);
    PrintSplit(ProfileHeadLines(p) + EnabledLines(p), IngressListLines(p), PrintAll(SettingsTail(p)) + after);
    PrintSplit(ProfileHeadLines(p), EnabledLines(p), PrintAll(IngressListLines(p)) + (PrintAll(SettingsTail(p)) + after));
  }

  lemma ProfileCancels(p: Profile, q: Profile, a: string, b: string)
    requires PrintAll(ProfileLines(p)) + a == PrintAll(ProfileLines(q)) + b
    ensures ProfileLines(p) == ProfileLines(q) && a == b && p.RobotProfile? == q.RobotProfile?
  {
    ProfileParts(p, a);
    ProfileParts(q, b);
    var p3, q3 := PrintAll(SettingsTail(p)) + a, PrintAll(SettingsTail(q)) + b;
    var p2, q2 := PrintAll(IngressListLines(p)) + p3, PrintAll(IngressListLines(q)) + q3;
    var p1, q1 := PrintAll(EnabledLines(p)) + p2, PrintAll(EnabledLines(q)) + q2;
    HeadShape(p, q);
    SameShapeCancels(ProfileHeadLines(p), ProfileHeadLines(q), p1, q1);
    ListsUniform();
    CountedCancels("profile.enabled_sources.count", EnabledLine, SortedIds(p.common.enabledSources),
                   SortedIds(q.common.enabledSources), p2, q2);
    CountedCancels("profile.ingress.count", IngressLines, p.common.ingress, q.common.ingress, p3, q3);
    TailShape(p, q);
    SameShapeCancels(SettingsTail(p), SettingsTail(q), a, b);
  }

  lemma SignalShape(prefix: string, s: PhysicalSignal, t: PhysicalSignal)
    ensures SameShape(SignalLines(prefix, s), SignalLines(prefix, t))
  {
  }

  lemma CanTailShape(m: CanSignalMap, n: CanSignalMap)
    ensures SameShape(CanTailLines(m), CanTailLines(n))
  {
    assert SameShape(CanCounterLines(m), CanCounterLines(n));
    var speed, yaw := "can.control.target_speed_mps", "can.control.target_yaw_rate_radps";
    var measured, measuredYaw := "can.state.measured_speed_mps", "can.state.measured_yaw_rate_radps";
    SignalShape(speed, m.targetSpeed, n.targetSpeed);
    SignalShape(yaw, m.targetYawRate, n.targetYawRate);
    SignalShape(measured, m.measuredSpeed, n.measuredSpeed);
    SignalShape(measuredYaw, m.measuredYawRate, n.measuredYawRate);
    var a, b := CanCounterLines(m) + SignalLines(speed, m.targetSpeed), CanCounterLines(n) + SignalLines(speed, n.targetSpeed);
    ShapeOfParts(CanCounterLines(m), CanCounterLines(n), SignalLines(speed, m.targetSpeed), SignalLines(speed, n.targetSpeed));
    ShapeOfParts(a, b, SignalLines(yaw, m.targetYawRate), SignalLines(yaw, n.targetYawRate));
    var c, d := a + SignalLines(yaw, m.targetYawRate), b + SignalLines(yaw, n.targetYawRate);
    ShapeOfParts(c, d, [UintTok("can.state.can_id", m.stateCanId)], [UintTok("can.state.can_id", n.stateCanId)]);
    var e, f := c + [UintTok("can.state.can_id", m.stateCanId)], d + [UintTok("can.state.can_id", n.stateCanId)];
    ShapeOfParts(e, f, SignalLines(measured, m.measuredSpeed), SignalLines(measured, n.measuredSpeed));
    ShapeOfParts(e + SignalLines(measured, m.measuredSpeed), f + SignalLines(measured, n.measuredSpeed),
                 SignalLines(measuredYaw, m.measuredYawRate), SignalLines(measuredYaw, n.measuredYawRate));
  }

  lemma CanHeadShape(m: CanSignalMap, n: CanSignalMap)
    ensures SameShape(CanHeadLines(m), CanHeadLines(n))
  {
  }

  lemma CanCancels(m: CanSignalMap, n: CanSignalMap, a: string, b: string)
    requires PrintAll(CanLines(m)) + a == PrintAll(CanLines(n)) + b
    ensures CanLines(m) == CanLines(n) && a == b
  {
    var m2, n2 := PrintAll(CanTailLines(m)) + a, PrintAll(CanTailLines(n)) + b;
    PrintSplit(CanHeadLines(m) + ProtectedLines(m), CanTailLines(m), a);
    PrintSplit(CanHeadLines(n) + ProtectedLines(n), CanTailLines(n), b);
    PrintSplit(CanHeadLines(m), ProtectedLines(m), m2);
    PrintSplit(CanHeadLines(n), ProtectedLines(n), n2);
    CanHeadShape(m, n);
    SameShapeCancels(CanHeadLines(m), CanHeadLines(n), PrintAll(ProtectedLines(m)) + m2, PrintAll(ProtectedLines(n)) + n2);
    ListsUniform();
    CountedCancels("can.crc.protected_payload_bytes.count", ByteLine, m.crc.protectedPayloadBytes,
                   n.crc.protectedPayloadBytes, m2, n2);
    CanTailShape(m, n);
    SameShapeCancels(CanTailLines(m), CanTailLines(n), a, b);
  }

  // ------------------------------------------------ component by component

  lemma TextsAgree(x: Token, a: seq<Token>, b: seq<Token>)
    ensures a == b ==> PrintAll([x] + a) == PrintAll([x] + b)
    ensures PrintAll([x] + a) == PrintAll([x] + b) ==> PrintAll(a) + "" == PrintAll(b) + ""
  {
    PrintSplit([x], a, "");
    PrintSplit([x], b, "");
    if PrintAll([x] + a) == PrintAll([x] + b) {
      assert PrintAll([x] + a) + "" == PrintAll([x] + b) + "";
      SameShapeCancels([x], [x], PrintAll(a) + "", PrintAll(b) + "");
    }
  }

  // The component texts agree exactly when the lines do.
  lemma SourcePolicyTextAgrees(p: SourcePolicy, pp: Profile, q: SourcePolicy, qp: Profile)
    requires PolicyCovers(p, pp) && PolicyCovers(q, qp)
    ensures SourcePolicyText(p, pp) == SourcePolicyText(q, qp) <==> SourcePolicyLines(p, pp) == SourcePolicyLines(q, qp)
  {
    TextsAgree(StrTok("format", "control_link.source_policy.canonical.v1"), SourcePolicyLines(p, pp), SourcePolicyLines(q, qp));
    if SourcePolicyText(p, pp) == SourcePolicyText(q, qp) {
      SourcePolicyCancels(p, pp, q, qp, "", "");
    }
  }

  lemma ProfileTextAgrees(p: Profile, q: Profile)
    ensures ProfileText(p) == ProfileText(q) <==> ProfileLines(p) == ProfileLines(q)
    ensures ProfileText(p) == ProfileText(q) ==> p.RobotProfile? == q.RobotProfile?
  {
    TextsAgree(StrTok("format", "control_link.profile_behavior.canonical.v1"), ProfileLines(p), ProfileLines(q));
    if ProfileText(p) == ProfileText(q) {
      ProfileCancels(p, q, "", "");
    }
  }

  lemma CanTextAgrees(m: CanSignalMap, n: CanSignalMap)
    ensures CanText(m) == CanText(n) <==> CanLines(m) == CanLines(n)
  {
    TextsAgree(StrTok("format", "control_link.can_signal_map.canonical.v1"), CanLines(m), CanLines(n));
    if CanText(m) == CanText(n) {
      CanCancels(m, n, "", "");
    }
  }

  // Nothing that the components' texts tell apart is lost in the whole.
  predicate SameComponents(d: Decision, e: Decision)
    requires Complete(d) && Complete(e)
  {
    && d.contractText == e.contractText
    && SourcePolicyText(d.policy, d.profile) == SourcePolicyText(e.policy, e.profile)
    && ProfileText(d.profile) == ProfileText(e.profile)
    && SameCanText(d.can, e.can)
  }

  predicate SameCanText(m: Option<CanSignalMap>, n: Option<CanSignalMap>) {
    m.Some? == n.Some? && (m.Some? ==> CanText(m.value) == CanText(n.value))
  }

  predicate SameCanLines(m: Option<CanSignalMap>, n: Option<CanSignalMap>) {
    m.Some? == n.Some? && (m.Some? ==> CanLines(m.value) == CanLines(n.value))
  }

  lemma CanAgrees(m: Option<CanSignalMap>, n: Option<CanSignalMap>)
    ensures SameCanText(m, n) <==> SameCanLines(m, n)
  {
    if m.Some? && n.Some? {
      CanTextAgrees(m.value, n.value);
    }
  }

  lemma WholeParts(d: Decision)
    requires Complete(d)
    ensures WholeText(d) ==
            PrintAll(DecisionHeadLines(d.contractText))
            + (PrintAll(SourcePolicyLines(d.policy, d.profile))
               + (PrintAll(ProfileLines(d.profile)) + (PrintAll(OptionalCanLines(d.can)) + "")))
  {
    var h, s, p, c := DecisionHeadLines(d.contractText), SourcePolicyLines(d.policy, d.profile), ProfileLines(d.profile),
                      OptionalCanLines(d.can);
    PrintSplit(h + s + p, c, "");
    PrintSplit(h + s, p, PrintAll(c) + "");
    PrintSplit(h, s, PrintAll(p) + (PrintAll(c) + ""));
    assert PrintAll(h + s + p + c) + "" == PrintAll(h + s + p + c);
  }

  lemma HeadCancels(c: string, d: string, a: string, b: string)
    requires PrintAll(DecisionHeadLines(c)) + a == PrintAll(DecisionHeadLines(d)) + b
    ensures c == d && a == b
  {
    SameShapeCancels(DecisionHeadLines(c), DecisionHeadLines(d), a, b);
    assert DecisionHeadLines(c)[1].text == DecisionHeadLines(d)[1].text;
  }

  // The components agree line by line.
  predicate SameLines(d: Decision, e: Decision)
    requires Complete(d) && Complete(e)
  {
    && d.contractText == e.contractText
    && SourcePolicyLines(d.policy, d.profile) == SourcePolicyLines(e.policy, e.profile)
    && ProfileLines(d.profile) == ProfileLines(e.profile)
    && SameCanLines(d.can, e.can)
  }

  function CanRest(m: Option<CanSignalMap>): string {
    PrintAll(OptionalCanLines(m))
  }

  function ProfileRest(d: Decision): string {
    PrintAll(ProfileLines(d.profile)) + (CanRest(d.can) + "")
  }

  lemma RestSplits(d: Decision, e: Decision)
    requires ProfileRest(d) == ProfileRest(e)
    ensures ProfileLines(d.profile) == ProfileLines(e.profile) && CanRest(d.can) == CanRest(e.can)
    ensures d.profile.RobotProfile? == e.profile.RobotProfile?
  {
    ProfileRestCancels(d.profile, e.profile, CanRest(d.can), CanRest(e.can));
  }

  lemma RestCancels(d: Decision, e: Decision)
    requires Complete(d) && Complete(e) && ProfileRest(d) == ProfileRest(e)
    ensures ProfileLines(d.profile) == ProfileLines(e.profile) && SameCanLines(d.can, e.can)
  {
    RestSplits(d, e);
    OptionalCanCancels(d.can, e.can);
  }

  lemma ProfileRestCancels(p: Profile, q: Profile, a: string, b: string)
    requires PrintAll(ProfileLines(p)) + (a + "") == PrintAll(ProfileLines(q)) + (b + "")
    ensures ProfileLines(p) == ProfileLines(q) && a == b && p.RobotProfile? == q.RobotProfile?
  {
    ProfileCancels(p, q, a + "", b + "");
    assert a + "" == a && b + "" == b;
  }

  lemma OptionalCanCancels(m: Option<CanSignalMap>, n: Option<CanSignalMap>)
    requires m.Some? == n.Some? && CanRest(m) == CanRest(n)
    ensures SameCanLines(m, n)
  {
    if m.Some? {
      CanCancels(m.value, n.value, "", "");
    }
  }

  function PolicyRest(d: Decision): string
    requires Complete(d)
  {
    PrintAll(SourcePolicyLines(d.policy, d.profile)) + ProfileRest(d)
  }

  lemma PolicyRestCancels(d: Decision, e: Decision)
    requires Complete(d) && Complete(e) && PolicyRest(d) == PolicyRest(e)
    ensures SourcePolicyLines(d.policy, d.profile) == SourcePolicyLines(e.policy, e.profile)
    ensures ProfileRest(d) == ProfileRest(e)
  {
    SourcePolicyCancels(d.policy, d.profile, e.policy, e.profile, ProfileRest(d), ProfileRest(e));
  }

  lemma WholeIsHeadAndRest(d: Decision)
    requires Complete(d)
    ensures WholeText(d) == PrintAll(DecisionHeadLines(d.contractText)) + PolicyRest(d)
  {
    WholeParts(d);
  }

  lemma SameWholeSameLines(d: Decision, e: Decision)
    requires Complete(d) && Complete(e) && WholeText(d) == WholeText(e)
    ensures SameLines(d, e)
  {
    WholeIsHeadAndRest(d);
    WholeIsHeadAndRest(e);
    HeadCancels(d.contractText, e.contractText, PolicyRest(d), PolicyRest(e));
    PolicyRestCancels(d, e);
    RestCancels(d, e);
  }

  lemma SameLinesSameWhole(d: Decision, e: Decision)
    requires Complete(d) && Complete(e) && SameLines(d, e)
    ensures WholeText(d) == WholeText(e)
  {
    WholeIsHeadAndRest(d);
    WholeIsHeadAndRest(e);
  }

  lemma ComponentsAreLines(d: Decision, e: Decision)
    requires Complete(d) && Complete(e)
    ensures SameComponents(d, e) <==> SameLines(d, e)
  {
    SourcePolicyTextAgrees(d.policy, d.profile, e.policy, e.profile);
    ProfileTextAgrees(d.profile, e.profile);
    CanAgrees(d.can, e.can);
  }

  // The text of the whole decision configuration is the same exactly when those
  // of its components are.
  lemma WholeIsComponents(d: Decision, e: Decision)
    requires Complete(d) && Complete(e)
    ensures WholeText(d) == WholeText(e) <==> SameComponents(d, e)
  {
    ComponentsAreLines(d, e);
    if WholeText(d) == WholeText(e) {
      SameWholeSameLines(d, e);
    } else if SameLines(d, e) {
      SameLinesSameWhole(d, e);
    }
  }

  // The texts of the components, side by side.
  datatype Texts = Texts(contract: string, policy: string, profile: string, can: Option<string>)

  function TextsOf(d: Decision): Texts
    requires Complete(d)
  {
    Texts(d.contractText, SourcePolicyText(d.policy, d.profile), ProfileText(d.profile), CanTextOf(d.can))
  }

  function CanTextOf(m: Option<CanSignalMap>): Option<string> {
    if m.Some? then Some(CanText(m.value)) else None
  }

  lemma CanTextsAgree(m: Option<CanSignalMap>, n: Option<CanSignalMap>)
    ensures CanTextOf(m) == CanTextOf(n) <==> SameCanText(m, n)
  {
  }

  lemma SameTextsSameWhole(d: Decision, e: Decision)
    requires Complete(d) && Complete(e) && TextsOf(d) == TextsOf(e)
    ensures WholeText(d) == WholeText(e)
  {
    CanTextsAgree(d.can, e.can);
    assert SameComponents(d, e);
    WholeIsComponents(d, e);
  }

  lemma SameWholeSameTexts(d: Decision, e: Decision)
    requires Complete(d) && Complete(e) && WholeText(d) == WholeText(e)
    ensures TextsOf(d) == TextsOf(e)
  {
    WholeIsComponents(d, e);
    CanTextsAgree(d.can, e.can);
  }

  lemma WholeIsTexts(d: Decision, e: Decision)
    requires Complete(d) && Complete(e)
    ensures WholeText(d) == WholeText(e) <==> TextsOf(d) == TextsOf(e)
  {
    if WholeText(d) == WholeText(e) {
      SameWholeSameTexts(d, e);
    } else if TextsOf(d) == TextsOf(e) {
      SameTextsSameWhole(d, e);
    }
  }
}
