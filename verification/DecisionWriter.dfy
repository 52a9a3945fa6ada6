// The writers of the source policy, profile, CAN map and decision texts
// (control_link_contract/src/config_identity.cpp).
module DecisionWriter {
  import opened Common
  import opened Appending
  import opened CanonicalText
  import opened ConfigModel
  import opened ContractText
  import opened DecisionText

  method SerializeSource(w: CanonicalWriter, e: (string, SourcePolicyEntry))
    requires w.Valid()
    modifies w
    ensures w.Valid() && w.lines == old(w.lines) + SourceLines(e)
  {
    Join6(w.lines, SourceLines(e));
    w.String("source_policy.source.id", e.0);
    w.String("source_policy.source.topic", e.1.topic);
    w.String("source_policy.source.type", e.1.messageType);
    w.UnsignedInteger("source_policy.source.priority", e.1.priority);
    w.UnsignedInteger("source_policy.source.lease_timeout_ms", e.1.leaseTimeoutMs);
    w.Boolean("source_policy.source.required_for_activation", e.1.requiredForActivation);
  }

  method SerializeSources(w: CanonicalWriter, policy: SourcePolicy, ids: seq<string>)
    requires w.Valid() && forall x :: x in ids ==> x in policy.sources
    modifies w
    ensures w.Valid()
    ensures w.lines ==
            old(w.lines) + CountedLines("source_policy.sources.count", SourceLines, Entries(policy, ids))
  {
    ghost var entries := Entries(policy, ids);
    w.UnsignedInteger("source_policy.sources.count", |ids|);
    ghost var counted := w.lines;
    for i := 0 to |ids|
      invariant w.Valid() && w.lines == counted + ListLines(SourceLines, entries[..i])
    {
      ListLinesNext(SourceLines, entries, i, counted);
      SerializeSource(w, (ids[i], policy.sources[ids[i]]));
    }
    AllLines("source_policy.sources.count", SourceLines, entries, old(w.lines));
  }

  method SerializeEffectiveSourcePolicy(w: CanonicalWriter, policy: SourcePolicy, profile: Profile)
    requires w.Valid() && PolicyCovers(policy, profile)
    modifies w
    ensures w.Valid() && w.lines == old(w.lines) + SourcePolicyLines(policy, profile)
  {
    var ids := SortedIds(profile.common.enabledSources);
    JoinParts(w.lines, [UintTok("source_policy.schema_version", policy.schemaVersion)],
              CountedLines("source_policy.sources.count", SourceLines, Entries(policy, ids)), [], [], [], [], []);
    w.UnsignedInteger("source_policy.schema_version", policy.schemaVersion);
    SerializeSources(w, policy, ids);
  }

  // -------------------------------------------------------------- profile

  method SerializeProfileHead(w: CanonicalWriter, p: Profile)
    requires w.Valid()
    modifies w
    ensures w.Valid() && w.lines == old(w.lines) + ProfileHeadLines(p)
  {
    Join4(w.lines, ProfileHeadLines(p));
    w.String("profile.id", if p.RobotProfile? then "robot" else "adas");
    w.UnsignedInteger("profile.schema_version", p.common.schemaVersion);
    w.String("profile.clock_mode", ClockModeName(p.common.clockMode));
    w.Boolean("profile.use_sim_time", p.common.useSimTime);
  }

  method SerializeEnabledSources(w: CanonicalWriter, p: Profile)
    requires w.Valid()
    modifies w
    ensures w.Valid() && w.lines == old(w.lines) + EnabledLines(p)
  {
    var ids := SortedIds(p.common.enabledSources);
    w.UnsignedInteger("profile.enabled_sources.count", |ids|);
    ghost var counted := w.lines;
    for i := 0 to |ids|
      invariant w.Valid() && w.lines == counted + ListLines(EnabledLine, ids[..i])
    {
      ListLinesNext(EnabledLine, ids, i, counted);
      w.String("profile.enabled_sources.id", ids[i]);
    }
    AllLines("profile.enabled_sources.count", EnabledLine, ids, old(w.lines));
  }

  method SerializeBinding(w: CanonicalWriter, e: (string, IngressBinding))
    requires w.Valid()
    modifies w
    ensures w.Valid() && w.lines == old(w.lines) + IngressLines(e)
  {
    Join4(w.lines, IngressLines(e));
    w.String("profile.ingress.source_id", e.0);
    w.String("profile.ingress.input_topic", e.1.inputTopic);
    w.String("profile.ingress.input_type", e.1.inputType);
    w.String("profile.ingress.output_topic", e.1.outputTopic);
  }

  method SerializeIngress(w: CanonicalWriter, p: Profile)
    requires w.Valid()
    modifies w
    ensures w.Valid() && w.lines == old(w.lines) + IngressListLines(p)
  {
    var bindings := p.common.ingress;
    w.UnsignedInteger("profile.ingress.count", |bindings|);
    ghost var counted := w.lines;
    for i := 0 to |bindings|
      invariant w.Valid() && w.lines == counted + ListLines(IngressLines, bindings[..i])
    {
      ListLinesNext(IngressLines, bindings, i, counted);
      SerializeBinding(w, bindings[i]);
    }
    AllLines("profile.ingress.count", IngressLines, bindings, old(w.lines));
  }

  method SerializeRobotAdapter(w: CanonicalWriter, r: RobotSettings)
    requires w.Valid()
    modifies w
    ensures w.Valid() && w.lines == old(w.lines) + RobotAdapterLines(r)
  {
    Join10(w.lines, RobotAdapterLines(r));
    w.FloatingPoint("robot.geometry.wheel_separation_m", r.wheelSeparation);
    w.FloatingPoint("robot.geometry.wheel_radius_m", r.wheelRadius);
    w.String("robot.adapter.canonical_input_topic", r.canonicalInputTopic);
    w.String("robot.adapter.controller_manager_fqn", r.controllerManagerFqn);
    w.String("robot.adapter.controller_node_fqn", r.controllerNodeFqn);
    w.String("robot.adapter.hardware_component_name", r.hardwareComponentName);
    w.String("robot.adapter.controller_output_topic", r.controllerOutputTopic);
    w.String("robot.adapter.controller_command_type", r.controllerCommandType);
    w.String("robot.adapter.odometry_topic", r.odometryTopic);
    w.UnsignedInteger("robot.adapter.local_watchdog_timeout_ms", r.localWatchdogTimeoutMs);
  }

  method SerializeRobotHealth(w: CanonicalWriter, r: RobotSettings)
    requires w.Valid()
    modifies w
    ensures w.Valid() && w.lines == old(w.lines) + RobotHealthLines(r)
  {
    Join10(w.lines, RobotHealthLines(r));
    w.String("robot.frames.map", r.mapFrame);
    w.String("robot.frames.odom", r.odomFrame);
    w.String("robot.frames.base_footprint", r.baseFootprintFrame);
    w.String("robot.frames.base_link", r.baseLinkFrame);
    w.String("robot.frames.laser", r.laserFrame);
    w.UnsignedInteger("robot.health.vehicle_state_publish_period_ms", r.vehicleStatePublishPeriodMs);
    w.UnsignedInteger("robot.health.tf_lookup_timeout_ms", r.tfLookupTimeoutMs);
    w.UnsignedInteger("robot.health.tf_max_age_ms", r.tfMaxAgeMs);
    w.UnsignedInteger("robot.health.controller_state_timeout_ms", r.controllerStateTimeoutMs);
    w.UnsignedInteger("robot.health.odometry_timeout_ms", r.odometryTimeoutMs);
  }

  method SerializeAdas(w: CanonicalWriter, a: AdasSettings)
    requires w.Valid()
    modifies w
    ensures w.Valid() && w.lines == old(w.lines) + AdasLines(a)
  {
    Join12(w.lines, AdasLines(a));
    w.String("adas.adapter.canonical_input_topic", a.canonicalInputTopic);
    w.String("adas.adapter.vehicle_state_output_topic", a.vehicleStateOutputTopic);
    w.String("adas.adapter.interface", a.networkInterface);
    w.UnsignedInteger("adas.adapter.poll_timeout_ms", a.pollTimeoutMs);
    w.UnsignedInteger("adas.adapter.tx_period_ms", a.txPeriodMs);
    w.UnsignedInteger("adas.adapter.vehicle_state_publish_period_ms", a.vehicleStatePublishPeriodMs);
    w.UnsignedInteger("adas.adapter.local_watchdog_timeout_ms", a.localWatchdogTimeoutMs);
    w.UnsignedInteger("adas.adapter.can_state_frame_timeout_ms", a.canStateFrameTimeoutMs);
    w.UnsignedInteger("adas.adapter.recovery_valid_frames", a.recoveryValidFrames);
    w.UnsignedInteger("adas.vehicle_simulator.state_period_ms", a.simulatorStatePeriodMs);
    w.UnsignedInteger("adas.vehicle_simulator.local_watchdog_timeout_ms", a.simulatorWatchdogTimeoutMs);
    w.UnsignedInteger("adas.vehicle_simulator.first_order_time_constant_ms", a.simulatorTimeConstantMs);
  }

  method SerializeSettingsTail(w: CanonicalWriter, p: Profile)
    requires w.Valid()
    modifies w
    ensures w.Valid() && w.lines == old(w.lines) + SettingsTail(p)
  {
    match p {
      case RobotProfile(_, robot) =>
        JoinParts(w.lines, RobotAdapterLines(robot), RobotHealthLines(robot), [], [], [], [], []);
        SerializeRobotAdapter(w, robot);
        SerializeRobotHealth(w, robot);
      case AdasProfile(_, adas) =>
        SerializeAdas(w, adas);
    }
  }

  method SerializeProfileBehavior(w: CanonicalWriter, p: Profile)
    requires w.Valid()
    modifies w
    ensures w.Valid() && w.lines == old(w.lines) + ProfileLines(p)
  {
    JoinParts(w.lines, ProfileHeadLines(p), EnabledLines(p), IngressListLines(p), SettingsTail(p), [], [], []);
    SerializeProfileHead(w, p);
    SerializeEnabledSources(w, p);
    SerializeIngress(w, p);
    SerializeSettingsTail(w, p);
  }

  // -------------------------------------------------------------- CAN map

  method SerializePhysicalSignal(w: CanonicalWriter, prefix: string, s: PhysicalSignal)
    requires w.Valid()
    modifies w
    ensures w.Valid() && w.lines == old(w.lines) + SignalLines(prefix, s)
  {
    Join4(w.lines, SignalLines(prefix, s));
    w.FloatingPoint(prefix + ".scale", s.scale);
    w.FloatingPoint(prefix + ".offset", s.offset);
    w.FloatingPoint(prefix + ".minimum", s.minimum);
    w.FloatingPoint(prefix + ".maximum", s.maximum);
  }

  method SerializeCanHead(w: CanonicalWriter, m: CanSignalMap)
    requires w.Valid()
    modifies w
    ensures w.Valid() && w.lines == old(w.lines) + CanHeadLines(m)
  {
    Join11(w.lines, CanHeadLines(m));
    w.UnsignedInteger("can.schema_version", m.schemaVersion);
    w.String("can.protocol_id", m.protocolId);
    w.String("can.byte_order", "little_endian");
    w.UnsignedInteger("can.dlc", m.dlc);
    w.String("can.crc.algorithm", "crc8_sae_j1850");
    w.UnsignedInteger("can.crc.polynomial", m.crc.polynomial);
    w.UnsignedInteger("can.crc.initial_value", m.crc.initialValue);
    w.UnsignedInteger("can.crc.final_xor", m.crc.finalXor);
    w.Boolean("can.crc.reflect_input", m.crc.reflectInput);
    w.Boolean("can.crc.reflect_output", m.crc.reflectOutput);
    w.Boolean("can.crc.include_can_id_lsb_first", m.crc.includeCanIdLsbFirst);
  }

  method SerializeProtectedBytes(w: CanonicalWriter, m: CanSignalMap)
    requires w.Valid()
    modifies w
    ensures w.Valid() && w.lines == old(w.lines) + ProtectedLines(m)
  {
    var bytes := m.crc.protectedPayloadBytes;
    w.UnsignedInteger("can.crc.protected_payload_bytes.count", |bytes|);
    ghost var counted := w.lines;
    for i := 0 to |bytes|
      invariant w.Valid() && w.lines == counted + ListLines(ByteLine, bytes[..i])
    {
      ListLinesNext(ByteLine, bytes, i, counted);
      w.UnsignedInteger("can.crc.protected_payload_bytes.value", bytes[i]);
    }
    AllLines("can.crc.protected_payload_bytes.count", ByteLine, bytes, old(w.lines));
  }

  method SerializeCounter(w: CanonicalWriter, m: CanSignalMap)
    requires w.Valid()
    modifies w
    ensures w.Valid() && w.lines == old(w.lines) + CanCounterLines(m)
  {
    Join6(w.lines, CanCounterLines(m));
    w.UnsignedInteger("can.counter.bit_length", m.counter.bitLength);
    w.UnsignedInteger("can.counter.modulo", m.counter.modulo);
    w.Boolean("can.counter.accept_any_first_value", m.counter.acceptAnyFirstValue);
    w.Boolean("can.counter.duplicate_is_error", m.counter.duplicateIsError);
    w.Boolean("can.counter.jump_is_error", m.counter.jumpIsError);
    w.UnsignedInteger("can.control.can_id", m.controlCanId);
  }

  method SerializeCanTail(w: CanonicalWriter, m: CanSignalMap)
    requires w.Valid()
    modifies w
    ensures w.Valid() && w.lines == old(w.lines) + CanTailLines(m)
  {
    JoinParts(w.lines, CanCounterLines(m), SignalLines("can.control.target_speed_mps", m.targetSpeed),
              SignalLines("can.control.target_yaw_rate_radps", m.targetYawRate),
              [UintTok("can.state.can_id", m.stateCanId)],
              SignalLines("can.state.measured_speed_mps", m.measuredSpeed),
              SignalLines("can.state.measured_yaw_rate_radps", m.measuredYawRate), []);
    SerializeCounter(w, m);
    SerializePhysicalSignal(w, "can.control.target_speed_mps", m.targetSpeed);
    SerializePhysicalSignal(w, "can.control.target_yaw_rate_radps", m.targetYawRate);
    w.UnsignedInteger("can.state.can_id", m.stateCanId);
    SerializePhysicalSignal(w, "can.state.measured_speed_mps", m.measuredSpeed);
    SerializePhysicalSignal(w, "can.state.measured_yaw_rate_radps", m.measuredYawRate);
  }

  method SerializeCanSignalMap(w: CanonicalWriter, m: CanSignalMap)
    requires w.Valid()
    modifies w
    ensures w.Valid() && w.lines == old(w.lines) + CanLines(m)
  {
    JoinParts(w.lines, CanHeadLines(m), ProtectedLines(m), CanTailLines(m), [], [], [], []);
    SerializeCanHead(w, m);
    SerializeProtectedBytes(w, m);
    SerializeCanTail(w, m);
  }

  // ----------------------------------------------------------------- texts

  method CanonicalSerializeEffectiveSourcePolicy(policy: SourcePolicy, profile: Profile) returns (text: string)
    requires PolicyCovers(policy, profile)
    ensures text == SourcePolicyText(policy, profile)
  {
    var w := new CanonicalWriter();
    w.String("format", "control_link.source_policy.canonical.v1");
    assert w.lines == [StrTok("format", "control_link.source_policy.canonical.v1")];
    SerializeEffectiveSourcePolicy(w, policy, profile);
    return w.buffer;
  }

  method CanonicalSerializeProfileBehavior(profile: Profile) returns (text: string)
    ensures text == ProfileText(profile)
  {
    var w := new CanonicalWriter();
    w.String("format", "control_link.profile_behavior.canonical.v1");
    assert w.lines == [StrTok("format", "control_link.profile_behavior.canonical.v1")];
    SerializeProfileBehavior(w, profile);
    return w.buffer;
  }

  method CanonicalSerializeCanSignalMapBehavior(m: CanSignalMap) returns (text: string)
    ensures text == CanText(m)
  {
    var w := new CanonicalWriter();
    w.String("format", "control_link.can_signal_map.canonical.v1");
    assert w.lines == [StrTok("format", "control_link.can_signal_map.canonical.v1")];
    SerializeCanSignalMap(w, m);
    return w.buffer;
  }

  method WriteDecisionHead(w: CanonicalWriter, contractText: string)
    requires w.Valid()
    modifies w
    ensures w.Valid() && w.lines == old(w.lines) + DecisionHeadLines(contractText)
  {
    Join2(w.lines, DecisionHeadLines(contractText));
    w.String("format", "control_link.decision_config.canonical.v1");
    w.String("gateway_contract", contractText);
  }

  method SerializeOptionalCan(w: CanonicalWriter, m: Option<CanSignalMap>)
    requires w.Valid()
    modifies w
    ensures w.Valid() && w.lines == old(w.lines) + OptionalCanLines(m)
  {
    if m.Some? {
      SerializeCanSignalMap(w, m.value);
    }
  }

  method WriteDecision(d: Decision) returns (text: string)
    requires Complete(d)
    ensures text == WholeText(d)
  {
    var w := new CanonicalWriter();
    WriteDecisionHead(w, d.contractText);
    assert w.lines == DecisionHeadLines(d.contractText);
    SerializeEffectiveSourcePolicy(w, d.policy, d.profile);
    SerializeProfileBehavior(w, d.profile);
    SerializeOptionalCan(w, d.can);
    return w.buffer;
  }

  // None stands for an exception.
  method CanonicalSerializeDecisionConfig(contract: GatewayContract, policy: SourcePolicy, profile: Profile,
                                          can: Option<CanSignalMap>)
    returns (text: Option<string>)
    requires PolicyCovers(policy, profile)
    ensures text == DecisionTextOf(contract, policy, profile, can)
  {
    if profile.AdasProfile? != can.Some? {
      return None;
    }
    var whole := SerializeComplete(contract, policy, profile, can);
    return Some(whole);
  }

  method SerializeComplete(contract: GatewayContract, policy: SourcePolicy, profile: Profile, can: Option<CanSignalMap>)
    returns (text: string)
    requires Complete(ConfigOf(contract, policy, profile, can))
    ensures text == WholeText(ConfigOf(contract, policy, profile, can))
  {
    var contractText := CanonicalSerializeGatewayContract(contract);
    text := WriteDecision(Decision(contractText, policy, profile, can));
  }
}
