// What the canonical texts of the decision configuration say: each is equal
// exactly when the normalised values are
// (control_link_contract/src/config_identity.cpp).
module DecisionBehaviour {
  import opened Common
  import opened Messages
  import opened CanonicalText
  import opened ConfigModel
  import opened ContractText
  import opened ContractParser
  import opened DecisionText

  // ------------------------------------------------------- normal values

  // The enabled sources' entries in the order of their ids; the policy's own id
  // and the entries of other sources are not part of it.
  datatype PolicyBehaviour = PolicyBehaviour(schemaVersion: nat, entries: seq<(string, SourcePolicyEntry)>)

  function PolicyBehaviourOf(policy: SourcePolicy, profile: Profile): PolicyBehaviour
    requires PolicyCovers(policy, profile)
  {
    PolicyBehaviour(policy.schemaVersion, Entries(policy, SortedIds(profile.common.enabledSources)))
  }

  function NormalRobot(r: RobotSettings): RobotSettings {
    r.(wheelSeparation := CanonicalBits(r.wheelSeparation), wheelRadius := CanonicalBits(r.wheelRadius))
  }

  function NormalCommon(c: ProfileCommon): ProfileCommon {
    c.(enabledSources := SortedIds(c.enabledSources))
  }

  function NormalProfile(p: Profile): Profile {
    match p
    case RobotProfile(common, robot) => RobotProfile(NormalCommon(common), NormalRobot(robot))
    case AdasProfile(common, adas) => AdasProfile(NormalCommon(common), adas)
  }

  function NormalSignal(s: PhysicalSignal): PhysicalSignal {
    PhysicalSignal(CanonicalBits(s.scale), CanonicalBits(s.offset), CanonicalBits(s.minimum), CanonicalBits(s.maximum))
  }

  function NormalCan(m: CanSignalMap): CanSignalMap {
    m.(targetSpeed := NormalSignal(m.targetSpeed), targetYawRate := NormalSignal(m.targetYawRate),
       measuredSpeed := NormalSignal(m.measuredSpeed), measuredYawRate := NormalSignal(m.measuredYawRate))
  }

  // ---------------------------------------------- from lines to values

  lemma BitsTell(a: uint64, b: uint64)
    ensures BitsText(a) == BitsText(b) <==> CanonicalBits(a) == CanonicalBits(b)
  {
    BitsRoundTrip(a);
    BitsRoundTrip(b);
  }

  lemma PartsTell<T>(a: seq<T>, b: seq<T>, c: seq<T>, d: seq<T>)
    requires |a| == |c| && a + b == c + d
    ensures a == c && b == d
  {
    assert (a + b)[..|a|] == a && (c + d)[..|c|] == c;
    assert (a + b)[|a|..] == b && (c + d)[|c|..] == d;
  }

  // Records that print n lines each and are told apart by them.
  ghost predicate Telling<T(!new)>(linesOf: T -> seq<Token>, n: nat) {
    && n > 0
    && (forall x :: |linesOf(x)| == n)
    && forall x, y :: linesOf(x) == linesOf(y) ==> x == y
  }

  lemma {:induction false} ListTells<T(!new)>(linesOf: T -> seq<Token>, n: nat, xs: seq<T>, ys: seq<T>,
                                              a: seq<Token>, b: seq<Token>)
    requires Telling(linesOf, n) && |xs| == |ys| && ListLines(linesOf, xs) + a == ListLines(linesOf, ys) + b
    ensures xs == ys && a == b
  {
    if xs == [] {
      assert ListLines(linesOf, xs) + a == a && ListLines(linesOf, ys) + b == b;
    } else {
      var xr, yr := ListLines(linesOf, xs[1..]), ListLines(linesOf, ys[1..]);
      assert ListLines(linesOf, xs) + a == linesOf(xs[0]) + (xr + a);
      assert ListLines(linesOf, ys) + b == linesOf(ys[0]) + (yr + b);
      PartsTell(linesOf(xs[0]), xr + a, linesOf(ys[0]), yr + b);
      ListTells(linesOf, n, xs[1..], ys[1..], a, b);
      assert xs == [xs[0]] + xs[1..] && ys == [ys[0]] + ys[1..];
    }
  }

  lemma CountedTells<T(!new)>(name: string, linesOf: T -> seq<Token>, n: nat, xs: seq<T>, ys: seq<T>,
                              a: seq<Token>, b: seq<Token>)
    requires Telling(linesOf, n) && CountedLines(name, linesOf, xs) + a == CountedLines(name, linesOf, ys) + b
    ensures xs == ys && a == b
  {
    var xl, yl := ListLines(linesOf, xs), ListLines(linesOf, ys);
    assert CountedLines(name, linesOf, xs) + a == [UintTok(name, |xs|)] + (xl + a);
    assert CountedLines(name, linesOf, ys) + b == [UintTok(name, |ys|)] + (yl + b);
    PartsTell([UintTok(name, |xs|)], xl + a, [UintTok(name, |ys|)], yl + b);
    assert [UintTok(name, |xs|)][0].number == [UintTok(name, |ys|)][0].number;
    ListTells(linesOf, n, xs, ys, a, b);
  }

  // --------------------------------------------------------------- policy

  lemma SourceTells(x: (string, SourcePolicyEntry), y: (string, SourcePolicyEntry))
    requires SourceLines(x) == SourceLines(y)
    ensures x == y
  {
    var a, b := SourceLines(x), SourceLines(y);
    assert a[0] == b[0] && a[1] == b[1] && a[2] == b[2] && a[3] == b[3] && a[4] == b[4] && a[5] == b[5];
  }

  lemma SourcesTell()
    ensures Telling(SourceLines, 6)
  {
    forall x, y | SourceLines(x) == SourceLines(y)
      ensures x == y
    {
      SourceTells(x, y);
    }
  }

  lemma PolicyLinesTell(p: SourcePolicy, pp: Profile, q: SourcePolicy, qp: Profile)
    requires PolicyCovers(p, pp) && PolicyCovers(q, qp)
    ensures SourcePolicyLines(p, pp) == SourcePolicyLines(q, qp) <==> PolicyBehaviourOf(p, pp) == PolicyBehaviourOf(q, qp)
  {
    var xs, ys := Entries(p, SortedIds(pp.common.enabledSources)), Entries(q, SortedIds(qp.common.enabledSources));
    if SourcePolicyLines(p, pp) == SourcePolicyLines(q, qp) {
      var name := "source_policy.sources.count";
      var a, b := [UintTok("source_policy.schema_version", p.schemaVersion)],
                  [UintTok("source_policy.schema_version", q.schemaVersion)];
      PartsTell(a, CountedLines(name, SourceLines, xs), b, CountedLines(name, SourceLines, ys));
      assert a[0].number == b[0].number;
      SourcesTell();
      assert CountedLines(name, SourceLines, xs) + [] == CountedLines(name, SourceLines, ys) + [];
      CountedTells(name, SourceLines, 6, xs, ys, [], []);
    }
  }

  // Two effective source policies print the same text exactly when they agree on
  // the enabled sources.
  lemma PolicyTextIsBehaviour(p: SourcePolicy, pp: Profile, q: SourcePolicy, qp: Profile)
    requires PolicyCovers(p, pp) && PolicyCovers(q, qp)
    ensures SourcePolicyText(p, pp) == SourcePolicyText(q, qp) <==> PolicyBehaviourOf(p, pp) == PolicyBehaviourOf(q, qp)
  {
    SourcePolicyTextAgrees(p, pp, q, qp);
    PolicyLinesTell(p, pp, q, qp);
  }

  // -------------------------------------------------------------- profile

  lemma IngressTells(x: (string, IngressBinding), y: (string, IngressBinding))
    requires IngressLines(x) == IngressLines(y)
    ensures x == y
  {
    var a, b := IngressLines(x), IngressLines(y);
    assert a[0] == b[0] && a[1] == b[1] && a[2] == b[2] && a[3] == b[3];
  }

  lemma ProfileListsTell()
    ensures Telling(EnabledLine, 1) && Telling(IngressLines, 4)
  {
    forall x, y | IngressLines(x) == IngressLines(y)
      ensures x == y
    {
      IngressTells(x, y);
    }
    forall x, y | EnabledLine(x) == EnabledLine(y)
      ensures x == y
    {
      assert EnabledLine(x)[0] == EnabledLine(y)[0];
    }
  }

  lemma HeadTells(p: Profile, q: Profile)
    requires ProfileHeadLines(p) == ProfileHeadLines(q)
    ensures p.RobotProfile? == q.RobotProfile? && p.common.schemaVersion == q.common.schemaVersion
    ensures p.common.clockMode == q.common.clockMode && p.common.useSimTime == q.common.useSimTime
  {
    HeadShape(p, q);
    var a, b := ProfileHeadLines(p), ProfileHeadLines(q);
    assert a[1] == b[1] && a[2] == b[2] && a[3] == b[3];
    assert |"sim"| != |"system"|;
  }

  lemma RobotAdapterTells(r: RobotSettings, s: RobotSettings)
    ensures RobotAdapterLines(r) == RobotAdapterLines(s) <==>
            && CanonicalBits(r.wheelSeparation) == CanonicalBits(s.wheelSeparation)
            && CanonicalBits(r.wheelRadius) == CanonicalBits(s.wheelRadius)
            && r.canonicalInputTopic == s.canonicalInputTopic && r.controllerManagerFqn == s.controllerManagerFqn
            && r.controllerNodeFqn == s.controllerNodeFqn && r.hardwareComponentName == s.hardwareComponentName
            && r.controllerOutputTopic == s.controllerOutputTopic && r.controllerCommandType == s.controllerCommandType
            && r.odometryTopic == s.odometryTopic && r.localWatchdogTimeoutMs == s.localWatchdogTimeoutMs
  {
    BitsTell(r.wheelSeparation, s.wheelSeparation);
    BitsTell(r.wheelRadius, s.wheelRadius);
    var a, b := RobotAdapterLines(r), RobotAdapterLines(s);
    assert a == b <==> a[0] == b[0] && a[1] == b[1] && a[2] == b[2] && a[3] == b[3] && a[4] == b[4] && a[5] == b[5]
                       && a[6] == b[6] && a[7] == b[7] && a[8] == b[8] && a[9] == b[9];
  }

  lemma RobotHealthTells(r: RobotSettings, s: RobotSettings)
    ensures RobotHealthLines(r) == RobotHealthLines(s) <==>
            && r.mapFrame == s.mapFrame && r.odomFrame == s.odomFrame && r.baseFootprintFrame == s.baseFootprintFrame
            && r.baseLinkFrame == s.baseLinkFrame && r.laserFrame == s.laserFrame
            && r.vehicleStatePublishPeriodMs == s.vehicleStatePublishPeriodMs
            && r.tfLookupTimeoutMs == s.tfLookupTimeoutMs && r.tfMaxAgeMs == s.tfMaxAgeMs
            && r.controllerStateTimeoutMs == s.controllerStateTimeoutMs && r.odometryTimeoutMs == s.odometryTimeoutMs
  {
    var a, b := RobotHealthLines(r), RobotHealthLines(s);
    assert a == b <==> a[0] == b[0] && a[1] == b[1] && a[2] == b[2] && a[3] == b[3] && a[4] == b[4] && a[5] == b[5]
                       && a[6] == b[6] && a[7] == b[7] && a[8] == b[8] && a[9] == b[9];
  }

  lemma RobotTells(r: RobotSettings, s: RobotSettings)
    ensures RobotAdapterLines(r) + RobotHealthLines(r) == RobotAdapterLines(s) + RobotHealthLines(s) <==>
            NormalRobot(r) == NormalRobot(s)
  {
    RobotAdapterTells(r, s);
    RobotHealthTells(r, s);
    if RobotAdapterLines(r) + RobotHealthLines(r) == RobotAdapterLines(s) + RobotHealthLines(s) {
      PartsTell(RobotAdapterLines(r), RobotHealthLines(r), RobotAdapterLines(s), RobotHealthLines(s));
    }
  }

  lemma AdasTells(r: AdasSettings, s: AdasSettings)
    requires AdasLines(r) == AdasLines(s)
    ensures r == s
  {
    var a, b := AdasLines(r), AdasLines(s);
    assert a[0] == b[0] && a[1] == b[1] && a[2] == b[2] && a[3] == b[3] && a[4] == b[4] && a[5] == b[5]
           && a[6] == b[6] && a[7] == b[7] && a[8] == b[8] && a[9] == b[9] && a[10] == b[10] && a[11] == b[11];
  }

  lemma SameSettings(p: Profile, q: Profile)
    requires p.RobotProfile? == q.RobotProfile?
    ensures SettingsTail(p) == SettingsTail(q) <==>
            if p.RobotProfile? then NormalRobot(p.robot) == NormalRobot(q.robot) else p.adas == q.adas
  {
    if p.RobotProfile? {
      RobotTells(p.robot, q.robot);
    } else if SettingsTail(p) == SettingsTail(q) {
      AdasTells(p.adas, q.adas);
    }
  }

  lemma Regroup<T>(a: seq<T>, b: seq<T>, c: seq<T>, d: seq<T>)
    ensures a + b + c == a + (b + c) && a + b + c + d == a + (b + (c + d))
  {
  }

  lemma EnabledTells(p: Profile, q: Profile, a: seq<Token>, b: seq<Token>)
    requires EnabledLines(p) + a == EnabledLines(q) + b
    ensures SortedIds(p.common.enabledSources) == SortedIds(q.common.enabledSources) && a == b
  {
    ProfileListsTell();
    CountedTells("profile.enabled_sources.count", EnabledLine, 1, SortedIds(p.common.enabledSources),
                 SortedIds(q.common.enabledSources), a, b);
  }

  lemma IngressListTells(p: Profile, q: Profile, a: seq<Token>, b: seq<Token>)
    requires IngressListLines(p) + a == IngressListLines(q) + b
    ensures p.common.ingress == q.common.ingress && a == b
  {
    ProfileListsTell();
    CountedTells("profile.ingress.count", IngressLines, 4, p.common.ingress, q.common.ingress, a, b);
  }

  lemma ListsTell(p: Profile, q: Profile)
    requires EnabledLines(p) + (IngressListLines(p) + SettingsTail(p)) ==
             EnabledLines(q) + (IngressListLines(q) + SettingsTail(q))
    ensures SortedIds(p.common.enabledSources) == SortedIds(q.common.enabledSources)
    ensures p.common.ingress == q.common.ingress && SettingsTail(p) == SettingsTail(q)
  {
    EnabledTells(p, q, IngressListLines(p) + SettingsTail(p), IngressListLines(q) + SettingsTail(q));
    IngressListTells(p, q, SettingsTail(p), SettingsTail(q));
  }

  lemma ProfileSplits(p: Profile, q: Profile)
    requires ProfileLines(p) == ProfileLines(q)
    ensures ProfileHeadLines(p) == ProfileHeadLines(q)
    ensures EnabledLines(p) + (IngressListLines(p) + SettingsTail(p)) ==
            EnabledLines(q) + (IngressListLines(q) + SettingsTail(q))
  {
    Regroup(ProfileHeadLines(p), EnabledLines(p), IngressListLines(p), SettingsTail(p));
    Regroup(ProfileHeadLines(q), EnabledLines(q), IngressListLines(q), SettingsTail(q));
    PartsTell(ProfileHeadLines(p), EnabledLines(p) + (IngressListLines(p) + SettingsTail(p)),
              ProfileHeadLines(q), EnabledLines(q) + (IngressListLines(q) + SettingsTail(q)));
  }

  lemma ProfileLinesTell(p: Profile, q: Profile)
    requires ProfileLines(p) == ProfileLines(q)
    ensures NormalProfile(p) == NormalProfile(q)
  {
    ProfileSplits(p, q);
    HeadTells(p, q);
    ListsTell(p, q);
    NormalFromParts(p, q);
  }

  lemma NormalFromParts(p: Profile, q: Profile)
    requires p.RobotProfile? == q.RobotProfile? && NormalCommon(p.common) == NormalCommon(q.common)
    requires SettingsTail(p) == SettingsTail(q)
    ensures NormalProfile(p) == NormalProfile(q)
  {
    SameSettings(p, q);
  }

  lemma NormalProfileTells(p: Profile, q: Profile)
    requires NormalProfile(p) == NormalProfile(q)
    ensures ProfileLines(p) == ProfileLines(q)
  {
    CommonTells(p, q);
    SameSettings(p, q);
  }

  lemma CommonTells(p: Profile, q: Profile)
    requires p.RobotProfile? == q.RobotProfile? && NormalCommon(p.common) == NormalCommon(q.common)
    ensures ProfileHeadLines(p) == ProfileHeadLines(q) && EnabledLines(p) == EnabledLines(q)
    ensures IngressListLines(p) == IngressListLines(q)
  {
    assert NormalCommon(p.common).enabledSources == NormalCommon(q.common).enabledSources;
    assert NormalCommon(p.common).ingress == NormalCommon(q.common).ingress;
  }

  // Two profiles print the same text exactly when they are equal up to the order
  // of the enabled sources and the sign of zero.
  lemma ProfileTextIsBehaviour(p: Profile, q: Profile)
    ensures ProfileText(p) == ProfileText(q) <==> NormalProfile(p) == NormalProfile(q)
  {
    ProfileTextAgrees(p, q);
    if ProfileLines(p) == ProfileLines(q) {
      ProfileLinesTell(p, q);
    } else if NormalProfile(p) == NormalProfile(q) {
      NormalProfileTells(p, q);
    }
  }

  // -------------------------------------------------------------- CAN map

  lemma SignalTells(prefix: string, s: PhysicalSignal, t: PhysicalSignal)
    ensures SignalLines(prefix, s) == SignalLines(prefix, t) <==> NormalSignal(s) == NormalSignal(t)
  {
    BitsTell(s.scale, t.scale);
    BitsTell(s.offset, t.offset);
    BitsTell(s.minimum, t.minimum);
    BitsTell(s.maximum, t.maximum);
    var a, b := SignalLines(prefix, s), SignalLines(prefix, t);
    assert a == b <==> a[0] == b[0] && a[1] == b[1] && a[2] == b[2] && a[3] == b[3];
  }

  lemma CanHeadTells(m: CanSignalMap, n: CanSignalMap)
    requires CanHeadLines(m) == CanHeadLines(n)
    ensures m.schemaVersion == n.schemaVersion && m.protocolId == n.protocolId && m.dlc == n.dlc
    ensures m.crc.(protectedPayloadBytes := []) == n.crc.(protectedPayloadBytes := [])
  {
    var a, b := CanHeadLines(m), CanHeadLines(n);
    assert a[0] == b[0] && a[1] == b[1] && a[3] == b[3] && a[5] == b[5] && a[6] == b[6] && a[7] == b[7]
           && a[8] == b[8] && a[9] == b[9] && a[10] == b[10];
  }

  lemma CanCounterTells(m: CanSignalMap, n: CanSignalMap)
    requires CanCounterLines(m) == CanCounterLines(n)
    ensures m.counter == n.counter && m.controlCanId == n.controlCanId
  {
    var a, b := CanCounterLines(m), CanCounterLines(n);
    assert a[0] == b[0] && a[1] == b[1] && a[2] == b[2] && a[3] == b[3] && a[4] == b[4] && a[5] == b[5];
  }

  lemma BytesTell()
    ensures Telling(ByteLine, 1)
  {
    forall x, y | ByteLine(x) == ByteLine(y)
      ensures x == y
    {
      assert ByteLine(x)[0] == ByteLine(y)[0];
    }
  }

  const TARGET_SPEED := "can.control.target_speed_mps"
  const TARGET_YAW_RATE := "can.control.target_yaw_rate_radps"
  const MEASURED_SPEED := "can.state.measured_speed_mps"
  const MEASURED_YAW_RATE := "can.state.measured_yaw_rate_radps"

  function ControlSignalLines(m: CanSignalMap): seq<Token> {
    SignalLines(TARGET_SPEED, m.targetSpeed) + SignalLines(TARGET_YAW_RATE, m.targetYawRate)
  }

  function StateSignalLines(m: CanSignalMap): seq<Token> {
    SignalLines(MEASURED_SPEED, m.measuredSpeed) + SignalLines(MEASURED_YAW_RATE, m.measuredYawRate)
  }

  lemma SignalPairTells(first: string, second: string, s: PhysicalSignal, t: PhysicalSignal, u: PhysicalSignal,
                        v: PhysicalSignal)
    ensures SignalLines(first, s) + SignalLines(second, t) == SignalLines(first, u) + SignalLines(second, v) <==>
            NormalSignal(s) == NormalSignal(u) && NormalSignal(t) == NormalSignal(v)
  {
    SignalTells(first, s, u);
    SignalTells(second, t, v);
    if SignalLines(first, s) + SignalLines(second, t) == SignalLines(first, u) + SignalLines(second, v) {
      PartsTell(SignalLines(first, s), SignalLines(second, t), SignalLines(first, u), SignalLines(second, v));
    }
  }

  lemma CanTailParts(m: CanSignalMap)
    ensures CanTailLines(m) ==
            CanCounterLines(m) + (ControlSignalLines(m) + ([UintTok("can.state.can_id", m.stateCanId)] + StateSignalLines(m)))
  {
  }

  lemma CanTailTells(m: CanSignalMap, n: CanSignalMap)
    requires CanTailLines(m) == CanTailLines(n)
    ensures m.counter == n.counter && m.controlCanId == n.controlCanId && m.stateCanId == n.stateCanId
    ensures NormalSignal(m.targetSpeed) == NormalSignal(n.targetSpeed)
    ensures NormalSignal(m.targetYawRate) == NormalSignal(n.targetYawRate)
    ensures NormalSignal(m.measuredSpeed) == NormalSignal(n.measuredSpeed)
    ensures NormalSignal(m.measuredYawRate) == NormalSignal(n.measuredYawRate)
  {
    var mi, ni := [UintTok("can.state.can_id", m.stateCanId)], [UintTok("can.state.can_id", n.stateCanId)];
    CanTailParts(m);
    CanTailParts(n);
    PartsTell(CanCounterLines(m), ControlSignalLines(m) + (mi + StateSignalLines(m)),
              CanCounterLines(n), ControlSignalLines(n) + (ni + StateSignalLines(n)));
    CanCounterTells(m, n);
    PartsTell(ControlSignalLines(m), mi + StateSignalLines(m), ControlSignalLines(n), ni + StateSignalLines(n));
    PartsTell(mi, StateSignalLines(m), ni, StateSignalLines(n));
    assert mi[0].number == ni[0].number;
    SignalPairTells(TARGET_SPEED, TARGET_YAW_RATE, m.targetSpeed, m.targetYawRate, n.targetSpeed, n.targetYawRate);
    SignalPairTells(MEASURED_SPEED, MEASURED_YAW_RATE, m.measuredSpeed, m.measuredYawRate, n.measuredSpeed,
                    n.measuredYawRate);
  }

  lemma CanSplits(m: CanSignalMap, n: CanSignalMap)
    requires CanLines(m) == CanLines(n)
    ensures CanHeadLines(m) == CanHeadLines(n)
    ensures ProtectedLines(m) + CanTailLines(m) == ProtectedLines(n) + CanTailLines(n)
  {
    Regroup(CanHeadLines(m), ProtectedLines(m), CanTailLines(m), []);
    Regroup(CanHeadLines(n), ProtectedLines(n), CanTailLines(n), []);
    PartsTell(CanHeadLines(m), ProtectedLines(m) + CanTailLines(m), CanHeadLines(n), ProtectedLines(n) + CanTailLines(n));
  }

  lemma ProtectedTells(m: CanSignalMap, n: CanSignalMap, a: seq<Token>, b: seq<Token>)
    requires ProtectedLines(m) + a == ProtectedLines(n) + b
    ensures m.crc.protectedPayloadBytes == n.crc.protectedPayloadBytes && a == b
  {
    BytesTell();
    CountedTells("can.crc.protected_payload_bytes.count", ByteLine, 1, m.crc.protectedPayloadBytes,
                 n.crc.protectedPayloadBytes, a, b);
  }

  lemma CanLinesTell(m: CanSignalMap, n: CanSignalMap)
    requires CanLines(m) == CanLines(n)
    ensures NormalCan(m) == NormalCan(n)
  {
    CanSplits(m, n);
    CanHeadTells(m, n);
    ProtectedTells(m, n, CanTailLines(m), CanTailLines(n));
    CanTailTells(m, n);
  }

  lemma NormalCanTells(m: CanSignalMap, n: CanSignalMap)
    requires NormalCan(m) == NormalCan(n)
    ensures CanLines(m) == CanLines(n)
  {
    CanTailParts(m);
    CanTailParts(n);
    SignalPairTells(TARGET_SPEED, TARGET_YAW_RATE, m.targetSpeed, m.targetYawRate, n.targetSpeed, n.targetYawRate);
    SignalPairTells(MEASURED_SPEED, MEASURED_YAW_RATE, m.measuredSpeed, m.measuredYawRate, n.measuredSpeed,
                    n.measuredYawRate);
    assert CanHeadLines(m) == CanHeadLines(n) && ProtectedLines(m) == ProtectedLines(n);
  }

  // Two CAN maps print the same text exactly when they are equal up to the sign
  // of zero.
  lemma CanTextIsBehaviour(m: CanSignalMap, n: CanSignalMap)
    ensures CanText(m) == CanText(n) <==> NormalCan(m) == NormalCan(n)
  {
    CanTextAgrees(m, n);
    if CanLines(m) == CanLines(n) {
      CanLinesTell(m, n);
    } else if NormalCan(m) == NormalCan(n) {
      NormalCanTells(m, n);
    }
  }

  // ------------------------------------------------------ the whole of it

  function NormalOptionalCan(m: Option<CanSignalMap>): Option<CanSignalMap> {
    if m.Some? then Some(NormalCan(m.value)) else None
  }

  lemma OptionalCanIsBehaviour(m: Option<CanSignalMap>, n: Option<CanSignalMap>)
    ensures CanTextOf(m) == CanTextOf(n) <==> NormalOptionalCan(m) == NormalOptionalCan(n)
  {
    if m.Some? && n.Some? {
      CanTextIsBehaviour(m.value, n.value);
    }
  }

  // The texts of the components tell what the configuration does.
  predicate SameBehaviour(d: Decision, e: Decision)
    requires Complete(d) && Complete(e)
  {
    && d.contractText == e.contractText && PolicyBehaviourOf(d.policy, d.profile) == PolicyBehaviourOf(e.policy, e.profile)
    && NormalProfile(d.profile) == NormalProfile(e.profile) && NormalOptionalCan(d.can) == NormalOptionalCan(e.can)
  }

  lemma TextsTellBehaviour(d: Decision, e: Decision)
    requires Complete(d) && Complete(e) && TextsOf(d) == TextsOf(e)
    ensures SameBehaviour(d, e)
  {
    PolicyTextIsBehaviour(d.policy, d.profile, e.policy, e.profile);
    ProfileTextIsBehaviour(d.profile, e.profile);
    OptionalCanIsBehaviour(d.can, e.can);
  }

  lemma BehaviourTellsTexts(d: Decision, e: Decision)
    requires Complete(d) && Complete(e) && SameBehaviour(d, e)
    ensures TextsOf(d) == TextsOf(e)
  {
    PolicyTextIsBehaviour(d.policy, d.profile, e.policy, e.profile);
    ProfileTextIsBehaviour(d.profile, e.profile);
    OptionalCanIsBehaviour(d.can, e.can);
  }

  lemma WholeIsBehaviour(d: Decision, e: Decision)
    requires Complete(d) && Complete(e)
    ensures WholeText(d) == WholeText(e) <==> SameBehaviour(d, e)
  {
    WholeIsTexts(d, e);
    if TextsOf(d) == TextsOf(e) {
      TextsTellBehaviour(d, e);
    } else if SameBehaviour(d, e) {
      BehaviourTellsTexts(d, e);
    }
  }

  lemma SameConfigBehaviour(c: GatewayContract, p: SourcePolicy, pp: Profile, m: Option<CanSignalMap>,
                            d: GatewayContract, q: SourcePolicy, qp: Profile, n: Option<CanSignalMap>)
    requires Complete(ConfigOf(c, p, pp, m)) && Complete(ConfigOf(d, q, qp, n))
    ensures SameBehaviour(ConfigOf(c, p, pp, m), ConfigOf(d, q, qp, n)) <==>
            && NormalContract(c) == NormalContract(d) && PolicyBehaviourOf(p, pp) == PolicyBehaviourOf(q, qp)
            && NormalProfile(pp) == NormalProfile(qp) && NormalOptionalCan(m) == NormalOptionalCan(n)
  {
    TextIsBehaviour(c, d);
  }

  lemma PrintedConfig(c: GatewayContract, p: SourcePolicy, pp: Profile, m: Option<CanSignalMap>, text: string)
    requires PolicyCovers(p, pp) && DecisionTextOf(c, p, pp, m) == Some(text)
    ensures Complete(ConfigOf(c, p, pp, m)) && text == WholeText(ConfigOf(c, p, pp, m))
  {
  }

  // The text of a whole decision configuration is decodable: two of them are
  // equal exactly when contracts, effective policies, profiles and CAN maps are,
  // after normalisation.
  lemma DecisionTextIsBehaviour(c: GatewayContract, p: SourcePolicy, pp: Profile, m: Option<CanSignalMap>, s: string,
                                d: GatewayContract, q: SourcePolicy, qp: Profile, n: Option<CanSignalMap>, t: string)
    requires PolicyCovers(p, pp) && PolicyCovers(q, qp)
    requires DecisionTextOf(c, p, pp, m) == Some(s) && DecisionTextOf(d, q, qp, n) == Some(t)
    ensures s == t <==>
            && NormalContract(c) == NormalContract(d) && PolicyBehaviourOf(p, pp) == PolicyBehaviourOf(q, qp)
            && NormalProfile(pp) == NormalProfile(qp) && NormalOptionalCan(m) == NormalOptionalCan(n)
  {
    PrintedConfig(c, p, pp, m, s);
    PrintedConfig(d, q, qp, n, t);
    WholeIsBehaviour(ConfigOf(c, p, pp, m), ConfigOf(d, q, qp, n));
    SameConfigBehaviour(c, p, pp, m, d, q, qp, n);
  }
}
