// The parsed configuration (control_link_contract/include/control_link_contract/model.hpp).
// A std::map is the list of its entries in key order; a double is its 64-bit
// pattern.
module ConfigModel {
  import opened Common
  import opened Messages

  datatype Reliability = Reliable | BestEffort
  datatype Durability = Volatile | TransientLocal
  datatype History = KeepLast | KeepAll
  datatype Liveliness = Automatic | ManualByTopic
  datatype RemoteDirection = RemotePublisher | RemoteSubscription
  datatype ClockMode = SimClock | SystemClock

  datatype QosProfile = QosProfile(
    reliability: Reliability,
    durability: Durability,
    history: History,
    depth: uint64,
    deadlineMs: Option<uint64>,
    lifespanMs: Option<uint64>,
    liveliness: Option<Liveliness>,
    leaseMs: Option<uint64>)

  datatype GatewaySettings = GatewaySettings(
    nodeFqn: string,
    outputRateHz: uint64,
    commandTimeoutMs: uint64,
    sourceSwitchHoldMs: uint64,
    recoveryValidSamples: uint64,
    graphPollMs: uint64,
    graphStableWindowMs: uint64,
    rosClockStallTimeoutMs: uint64,
    vehicleStateTopicTimeoutMs: uint64,
    outputTickLateThresholdMs: uint64,
    consecutiveLateTicksToSafeStop: uint64)

  datatype CommandLimits = CommandLimits(
    maxAbsLinear: uint64,
    maxAbsAngular: uint64,
    rejectNonFinite: bool,
    rejectZeroStamp: bool,
    maxFutureSkewMs: uint64)

  datatype InputContract = InputContract(topicPrefix: string, messageType: string, qosProfile: string)

  datatype OutputContract = OutputContract(topic: string, messageType: string, qosProfile: string)

  datatype StateTopic = StateTopic(topic: string, messageType: string, qosProfile: Option<string>)

  // The loss and QoS-mismatch actions have one value each.
  datatype CriticalEndpoint = CriticalEndpoint(
    id: string,
    topic: string,
    messageType: string,
    direction: RemoteDirection,
    remoteNodeFqn: string,
    minCount: uint64,
    maxCount: Option<uint64>,
    allowAdditional: bool,
    requiredForActivation: bool,
    exactQosRequired: bool)

  datatype GatewayContract = GatewayContract(
    schemaVersion: uint64,
    contractId: string,
    contractVersion: uint64,
    gateway: GatewaySettings,
    limits: CommandLimits,
    qosProfiles: seq<(string, QosProfile)>,
    input: InputContract,
    output: OutputContract,
    stateTopics: seq<(string, StateTopic)>,
    criticalEndpoints: seq<CriticalEndpoint>)

  datatype SourcePolicyEntry = SourcePolicyEntry(
    topic: string,
    messageType: string,
    priority: uint8,
    leaseTimeoutMs: uint64,
    requiredForActivation: bool)

  datatype SourcePolicy = SourcePolicy(
    schemaVersion: uint64,
    policyId: string,
    sources: map<string, SourcePolicyEntry>)

  datatype IngressBinding = IngressBinding(inputTopic: string, inputType: string, outputTopic: string)

  datatype ProfileCommon = ProfileCommon(
    schemaVersion: uint64,
    enabledSources: seq<string>,
    clockMode: ClockMode,
    useSimTime: bool,
    ingress: seq<(string, IngressBinding)>)

  datatype RobotSettings = RobotSettings(
    wheelSeparation: uint64,
    wheelRadius: uint64,
    canonicalInputTopic: string,
    controllerManagerFqn: string,
    controllerNodeFqn: string,
    hardwareComponentName: string,
    controllerOutputTopic: string,
    controllerCommandType: string,
    odometryTopic: string,
    localWatchdogTimeoutMs: uint64,
    mapFrame: string,
    odomFrame: string,
    baseFootprintFrame: string,
    baseLinkFrame: string,
    laserFrame: string,
    vehicleStatePublishPeriodMs: uint64,
    tfLookupTimeoutMs: uint64,
    tfMaxAgeMs: uint64,
    controllerStateTimeoutMs: uint64,
    odometryTimeoutMs: uint64)

  datatype AdasSettings = AdasSettings(
    canonicalInputTopic: string,
    vehicleStateOutputTopic: string,
    networkInterface: string,
    pollTimeoutMs: uint64,
    txPeriodMs: uint64,
    vehicleStatePublishPeriodMs: uint64,
    localWatchdogTimeoutMs: uint64,
    canStateFrameTimeoutMs: uint64,
    recoveryValidFrames: uint64,
    simulatorStatePeriodMs: uint64,
    simulatorWatchdogTimeoutMs: uint64,
    simulatorTimeConstantMs: uint64)

  datatype Profile =
    | RobotProfile(common: ProfileCommon, robot: RobotSettings)
    | AdasProfile(common: ProfileCommon, adas: AdasSettings)

  datatype PhysicalSignal = PhysicalSignal(scale: uint64, offset: uint64, minimum: uint64, maximum: uint64)

  datatype CanCrc = CanCrc(
    polynomial: uint8,
    initialValue: uint8,
    finalXor: uint8,
    reflectInput: bool,
    reflectOutput: bool,
    includeCanIdLsbFirst: bool,
    protectedPayloadBytes: seq<uint8>)

  datatype CanCounter = CanCounter(
    bitLength: uint8,
    modulo: uint8,
    acceptAnyFirstValue: bool,
    duplicateIsError: bool,
    jumpIsError: bool)

  // Byte order and CRC algorithm have one value each.
  datatype CanSignalMap = CanSignalMap(
    schemaVersion: uint64,
    protocolId: string,
    dlc: uint8,
    crc: CanCrc,
    counter: CanCounter,
    controlCanId: uint32,
    targetSpeed: PhysicalSignal,
    targetYawRate: PhysicalSignal,
    stateCanId: uint32,
    measuredSpeed: PhysicalSignal,
    measuredYawRate: PhysicalSignal)
}
