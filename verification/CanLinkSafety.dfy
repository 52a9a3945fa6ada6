// What every run of the CAN link keeps, whatever the interleaving.
module CanLinkSafety {
  import opened Common
  import opened Messages
  import opened CanCodec
  import opened CodecLaws
  import opened RollingCounter
  import opened SocketCanAdapter
  import opened CanLink
  import opened CanLinkHistory
  import G = CanonicalInputGuard

  // -------------------------------------------------------- rolling counter

  ghost predicate Encoded(cfg: AdapterConfig, p: Pending)
    requires cfg.Valid()
  {
    ControlFrameFor(cfg.codec, p.signals) == Ok(p.frame)
  }

  // The frames that may still be written carry the counter of the next frame.
  ghost predicate CarriesNext(cfg: AdapterConfig, s: LinkState, p: Pending)
    requires cfg.Valid()
  {
    Encoded(cfg, p) && p.signals.rollingCounter == s.command.nextCounter
  }

  ghost predicate CountersInStep(cfg: AdapterConfig, s: LinkState)
    requires cfg.Valid()
  {
    && s.command.nextCounter ==
         (if s.io.Confirming? then |s.bus| - 1 else |s.bus|) % cfg.codec.modulo
    && (s.io.Confirming? ==> |s.bus| > 0)
    && (s.io.Writing? || s.io.Confirming? || s.io.ReportingRetry? ==> CarriesNext(cfg, s, s.io.f))
    && (s.retry.Some? ==> CarriesNext(cfg, s, s.retry.value))
    && forall i :: 0 <= i < |s.bus| ==>
         Encoded(cfg, s.bus[i]) && s.bus[i].signals.rollingCounter == i % cfg.codec.modulo
  }

  lemma EncodedCounter(cfg: AdapterConfig, p: Pending)
    requires cfg.Valid() && Encoded(cfg, p)
    ensures FrameCounter(p.frame) == p.signals.rollingCounter < cfg.codec.modulo
    ensures Sendable(p.frame)
  {
    var c, s := cfg.codec, p.signals;
    var speed := Quantize(s.targetSpeed, c.speedScale, c.speedMin, c.speedMax).value;
    var yawRate := Quantize(s.targetYawRate, c.yawRateScale, c.yawRateMin, c.yawRateMax).value;
    SealedFields(c, c.controlCanId, speed, yawRate, [ControlModeByte(s.mode), ByteOf(s.rollingCounter), 0x01]);
    CounterByte(s.rollingCounter);
  }

  lemma BuildEncodes(cfg: AdapterConfig, c: CommandSide, now: int)
    requires cfg.Valid()
    ensures var (built, after) := BuildRegion(cfg, c, now);
            && after == c.(forceNextHold := false)
            && (built.Ok? ==>
                  && ControlFrameFor(cfg.codec, built.value.signals) == Ok(built.value.frame)
                  && SignalsToSend(cfg, c, now) == Ok(built.value.signals)
                  && built.value.signals.rollingCounter == c.nextCounter)
  {
  }

  lemma BuildKeepsCounters(cfg: AdapterConfig, s: LinkState, now: int)
    requires cfg.Valid() && s.io.Building? && CountersInStep(cfg, s)
    ensures CountersInStep(cfg, BuildStep(cfg, s, now))
  {
    BuildEncodes(cfg, s.command, now);
  }

  lemma WriteKeepsCounters(cfg: AdapterConfig, s: LinkState, outcome: WriteOutcome)
    requires cfg.Valid() && s.io.Writing? && CountersInStep(cfg, s)
    ensures CountersInStep(cfg, WriteStep(s, outcome))
  {
    EncodedCounter(cfg, s.io.f);
  }

  lemma ConfirmKeepsCounters(cfg: AdapterConfig, s: LinkState)
    requires cfg.Valid() && s.io.Confirming? && CountersInStep(cfg, s)
    ensures CountersInStep(cfg, ConfirmStep(cfg, s))
    ensures ConfirmRegion(cfg, s.command, s.io.f.frame).Some?
  {
    EncodedCounter(cfg, s.io.f);
    ResidueOfSum(|s.bus| - 1, 1, cfg.codec.modulo);
    NextCounter((|s.bus| - 1) % cfg.codec.modulo, cfg.codec.modulo);
  }

  // What a step of the ROS thread leaves alone.
  ghost predicate SameTransmit(s: LinkState, t: LinkState) {
    t.io == s.io && t.retry == s.retry && t.bus == s.bus && t.command.nextCounter == s.command.nextCounter
  }

  lemma CommandLeavesTransmit(cfg: AdapterConfig, s: LinkState, command: ControlCommand, publisher: PublisherKey,
                              nowRosNs: int64, now: int)
    requires cfg.Valid() && G.Coherent(s.endpoint)
    ensures SameTransmit(s, CommandStep(cfg, s, command, publisher, nowRosNs, now))
  {
    var verdict := G.Validate(command, publisher, s.endpoint, nowRosNs, nowRosNs > 0, cfg.rules);
    if verdict.Some? {
      assert SameTransmit(s, RejectStep(s, verdict.value, now));
    } else {
      assert SameTransmit(s, AcceptStep(s, command, now));
    }
  }

  lemma CountersFrame(cfg: AdapterConfig, s: LinkState, t: LinkState)
    requires cfg.Valid() && CountersInStep(cfg, s) && SameTransmit(s, t)
    ensures CountersInStep(cfg, t)
  {
    assert forall i :: 0 <= i < |t.bus| ==> t.bus[i] == s.bus[i];
  }

  lemma CountersKept(cfg: AdapterConfig, s: LinkState, step: Step)
    requires cfg.Valid() && Enabled(s, step) && CountersInStep(cfg, s)
    ensures CountersInStep(cfg, Next(cfg, s, step))
  {
    match step
    case RosPoll(snapshot) => CountersFrame(cfg, s, PollStep(s, snapshot));
    case RosCommand(command, publisher, nowRosNs, now) =>
      CommandLeavesTransmit(cfg, s, command, publisher, nowRosNs, now);
      CountersFrame(cfg, s, CommandStep(cfg, s, command, publisher, nowRosNs, now));
    case IoExchange(due) => ExchangeKeepsCounters(cfg, s, due);
    case IoBuild(now) => BuildKeepsCounters(cfg, s, now);
    case IoWrite(outcome) => WriteKeepsCounters(cfg, s, outcome);
    case IoConfirm => ConfirmKeepsCounters(cfg, s);
    case IoReport =>
    case IoFail =>
    case IoStop =>
    case RosForce => CountersFrame(cfg, s, Next(cfg, s, step));
    case RosRaise => CountersFrame(cfg, s, Next(cfg, s, step));
  }

  lemma ExchangeKeepsCounters(cfg: AdapterConfig, s: LinkState, due: bool)
    requires cfg.Valid() && s.io.Polling? && CountersInStep(cfg, s)
    ensures CountersInStep(cfg, ExchangeStep(s, due))
  {
  }

  // ------------------------------------- the state and its history agree

  predicate Halting(s: LinkState) {
    s.io.ReportingFatal? || s.io.Stopped?
  }

  ghost predicate HoldsWhatHistorySays(cfg: AdapterConfig, s: LinkState) {
    match HeldBy(s.log)
    case None => s.command.latest.None?
    case Some(a) =>
      && s.command.latest == Some(s.log[a].command) && s.command.lease == Some(s.log[a].at)
      && s.command.endpointState.Confirmed? && s.command.lastReject.None?
      && G.WellFormed(s.log[a].command, cfg.rules)
  }

  ghost predicate Matches(cfg: AdapterConfig, s: LinkState) {
    && s.command.endpointState == s.endpoint.state
    && (s.command.lease.Some? ==> s.command.lease.value <= s.clock)
    && WrittenCount(s.log) == |s.bus|
    && (!Halting(s) ==> (s.command.forceNextHold <==> Forced(s.log)))
    && HoldsWhatHistorySays(cfg, s)
  }

  lemma PollMatches(cfg: AdapterConfig, s: LinkState, snapshot: G.EndpointSnapshot)
    requires Matches(cfg, s) && G.Coherent(snapshot)
    ensures Matches(cfg, PollStep(s, snapshot))
  {
    match PollEffectOf(s.command, snapshot)
    case GenerationConfirmed => Appended(s.log, GenerationChanged);
    case EndpointLost => Appended(s.log, EndpointGone);
    case Nothing =>
  }

  lemma RejectMatches(cfg: AdapterConfig, s: LinkState, reason: G.CanonicalReject, now: int)
    requires Matches(cfg, s) && s.clock <= now
    ensures Matches(cfg, RejectStep(s, reason, now))
  {
    Appended(s.log, Rejected(reason));
  }

  lemma AcceptMatches(cfg: AdapterConfig, s: LinkState, command: ControlCommand, now: int)
    requires Matches(cfg, s) && s.clock <= now
    requires G.WellFormed(command, cfg.rules) && s.endpoint.state.Confirmed?
    ensures Matches(cfg, AcceptStep(s, command, now))
    ensures AcceptStep(s, command, now).log == s.log + [Accepted(command, now)]
  {
    Appended(s.log, Accepted(command, now));
  }

  lemma CommandMatches(cfg: AdapterConfig, s: LinkState, command: ControlCommand, publisher: PublisherKey,
                       nowRosNs: int64, now: int)
    requires cfg.Valid() && G.Coherent(s.endpoint) && Matches(cfg, s) && s.clock <= now && Sound(cfg, s.log)
    ensures var t := CommandStep(cfg, s, command, publisher, nowRosNs, now);
            Matches(cfg, t) && Sound(cfg, t.log)
  {
    var verdict := G.Validate(command, publisher, s.endpoint, nowRosNs, nowRosNs > 0, cfg.rules);
    if verdict.Some? {
      RejectMatches(cfg, s, verdict.value, now);
      SoundAppend(cfg, s.log, Rejected(verdict.value));
    } else {
      G.AcceptsExactly(command, publisher, s.endpoint, nowRosNs, nowRosNs > 0, cfg.rules);
      AcceptMatches(cfg, s, command, now);
      SoundAppend(cfg, s.log, Accepted(command, now));
    }
  }

  // The adapter's decision is the one the history calls for.
  lemma DecisionIsHistory(cfg: AdapterConfig, s: LinkState, now: int)
    requires cfg.Valid() && CountersInStep(cfg, s) && Matches(cfg, s) && s.io.Building? && s.clock <= now
    ensures SignalsToSend(cfg, s.command, now) == Ok(SignalsFor(cfg, s.log, now))
    ensures HeldBy(s.log).Some? ==> s.log[HeldBy(s.log).value].at <= now
  {
  }

  lemma BuildMatches(cfg: AdapterConfig, s: LinkState, now: int)
    requires cfg.Valid() && CountersInStep(cfg, s) && Matches(cfg, s) && s.io.Building? && s.clock <= now
    requires Sound(cfg, s.log)
    ensures var t := BuildStep(cfg, s, now); Matches(cfg, t) && Sound(cfg, t.log)
  {
    DecisionIsHistory(cfg, s, now);
    BuildEncodes(cfg, s.command, now);
    var e := Built(SignalsFor(cfg, s.log, now), now);
    Appended(s.log, e);
    SoundAppend(cfg, s.log, e);
  }

  // ------------------------------------------ what may still be written

  predicate Genuine(log: seq<Event>, p: Pending) {
    p.built < |log| && log[p.built].Built? && log[p.built].signals == p.signals
  }

  predicate Fresh(log: seq<Event>, p: Pending) {
    Genuine(log, p) && LastTaken(log) <= p.built
  }

  // Once the flag was taken, the frame that waits for a retry is stale until
  // the new one replaces it, and nothing is written in between.
  predicate PendingsFresh(s: LinkState) {
    && (s.io.Writing? || s.io.Confirming? || s.io.ReportingRetry? ==> Fresh(s.log, s.io.f))
    && (s.retry.Some? && !Halting(s) && s.io != Building(true) ==> Fresh(s.log, s.retry.value))
  }

  lemma FreshKept(log: seq<Event>, e: Event, p: Pending)
    requires Fresh(log, p) && !e.FlagTaken?
    ensures Fresh(log + [e], p)
  {
    Appended(log, e);
  }

  lemma FreshlyBuilt(cfg: AdapterConfig, s: LinkState, now: int)
    requires cfg.Valid() && s.io.Building? && PendingsFresh(s)
    ensures PendingsFresh(BuildStep(cfg, s, now))
  {
    BuildEncodes(cfg, s.command, now);
    var built := BuildRegion(cfg, s.command, now).0;
    if built.Ok? {
      var e := Built(built.value.signals, now);
      Appended(s.log, e);
      assert Fresh(s.log + [e], Pending(built.value.frame, built.value.signals, |s.log|));
      if s.retry.Some? && !s.io.immediate {
        FreshKept(s.log, e, s.retry.value);
      }
    }
  }

  lemma WriteMatches(cfg: AdapterConfig, s: LinkState, outcome: WriteOutcome)
    requires cfg.Valid() && s.io.Writing? && Matches(cfg, s)
    ensures Matches(cfg, WriteStep(s, outcome))
  {
    Appended(s.log, Written(s.io.f.signals, s.io.f.built));
  }

  lemma WriteSound(cfg: AdapterConfig, s: LinkState, outcome: WriteOutcome)
    requires cfg.Valid() && s.io.Writing? && PendingsFresh(s) && Sound(cfg, s.log)
    ensures Sound(cfg, WriteStep(s, outcome).log)
  {
    SoundAppend(cfg, s.log, Written(s.io.f.signals, s.io.f.built));
  }

  lemma WriteFresh(s: LinkState, outcome: WriteOutcome)
    requires s.io.Writing? && PendingsFresh(s)
    ensures PendingsFresh(WriteStep(s, outcome))
  {
    var e := Written(s.io.f.signals, s.io.f.built);
    FreshKept(s.log, e, s.io.f);
    if s.retry.Some? {
      FreshKept(s.log, e, s.retry.value);
    }
  }

  lemma ExchangeMatches(cfg: AdapterConfig, s: LinkState, due: bool)
    requires cfg.Valid() && s.io.Polling? && Matches(cfg, s) && PendingsFresh(s) && Sound(cfg, s.log)
    ensures var t := ExchangeStep(s, due); Matches(cfg, t) && PendingsFresh(t) && Sound(cfg, t.log)
  {
    Appended(s.log, FlagTaken);
    SoundAppend(cfg, s.log, FlagTaken);
  }

  // A step of the ROS thread never takes the flag.
  lemma RosFresh(s: LinkState, t: LinkState, e: Event)
    requires PendingsFresh(s) && SameTransmit(s, t) && !e.FlagTaken? && (t.log == s.log || t.log == s.log + [e])
    ensures PendingsFresh(t)
  {
    if s.io.Writing? || s.io.Confirming? || s.io.ReportingRetry? {
      FreshKept(s.log, e, s.io.f);
    }
    if s.retry.Some? && !Halting(s) && s.io != Building(true) {
      FreshKept(s.log, e, s.retry.value);
    }
  }

  lemma PollSound(cfg: AdapterConfig, s: LinkState, snapshot: G.EndpointSnapshot)
    requires cfg.Valid() && PendingsFresh(s) && Sound(cfg, s.log)
    ensures var t := PollStep(s, snapshot); PendingsFresh(t) && Sound(cfg, t.log)
  {
    var e := if PollEffectOf(s.command, snapshot).GenerationConfirmed? then GenerationChanged else EndpointGone;
    RosFresh(s, PollStep(s, snapshot), e);
    SoundAppend(cfg, s.log, e);
  }

  lemma CommandFresh(cfg: AdapterConfig, s: LinkState, command: ControlCommand, publisher: PublisherKey,
                     nowRosNs: int64, now: int)
    requires cfg.Valid() && G.Coherent(s.endpoint) && PendingsFresh(s)
    ensures PendingsFresh(CommandStep(cfg, s, command, publisher, nowRosNs, now))
  {
    CommandLeavesTransmit(cfg, s, command, publisher, nowRosNs, now);
    var t := CommandStep(cfg, s, command, publisher, nowRosNs, now);
    var verdict := G.Validate(command, publisher, s.endpoint, nowRosNs, nowRosNs > 0, cfg.rules);
    if verdict.Some? {
      RosFresh(s, t, Rejected(verdict.value));
    } else {
      RosFresh(s, t, Accepted(command, now));
    }
  }

  lemma RequestSound(cfg: AdapterConfig, s: LinkState, step: Step)
    requires cfg.Valid() && Enabled(s, step) && (step.RosForce? || step.RosRaise?)
    requires Matches(cfg, s) && PendingsFresh(s) && Sound(cfg, s.log)
    ensures var t := Next(cfg, s, step); Matches(cfg, t) && PendingsFresh(t) && Sound(cfg, t.log)
  {
    var e := if step.RosForce? then HoldForced else FlagRaised;
    Appended(s.log, e);
    SoundAppend(cfg, s.log, e);
    RosFresh(s, Next(cfg, s, step), e);
  }

  // The steps that add no event.
  lemma LoopSound(cfg: AdapterConfig, s: LinkState, step: Step)
    requires cfg.Valid() && Enabled(s, step)
    requires step.IoConfirm? || step.IoReport? || step.IoFail? || step.IoStop?
    requires Matches(cfg, s) && PendingsFresh(s)
    ensures var t := Next(cfg, s, step); Matches(cfg, t) && PendingsFresh(t) && t.log == s.log
  {
    match step
    case IoConfirm => ConfirmSound(cfg, s);
    case IoReport =>
    case IoFail =>
    case IoStop =>
  }

  lemma ConfirmSound(cfg: AdapterConfig, s: LinkState)
    requires cfg.Valid() && s.io.Confirming? && Matches(cfg, s) && PendingsFresh(s)
    ensures var t := ConfirmStep(cfg, s); Matches(cfg, t) && PendingsFresh(t) && t.log == s.log
  {
  }

  // ------------------------------------------------- over whole runs

  ghost predicate Inv(cfg: AdapterConfig, s: LinkState)
    requires cfg.Valid()
  {
    CountersInStep(cfg, s) && Matches(cfg, s) && PendingsFresh(s) && Sound(cfg, s.log)
  }

  lemma InvKept(cfg: AdapterConfig, s: LinkState, step: Step)
    requires cfg.Valid() && Enabled(s, step) && Inv(cfg, s)
    ensures Inv(cfg, Next(cfg, s, step))
  {
    CountersKept(cfg, s, step);
    match step
    case RosPoll(snapshot) =>
      PollMatches(cfg, s, snapshot);
      PollSound(cfg, s, snapshot);
    case RosCommand(command, publisher, nowRosNs, now) =>
      CommandMatches(cfg, s, command, publisher, nowRosNs, now);
      CommandFresh(cfg, s, command, publisher, nowRosNs, now);
    case RosForce => RequestSound(cfg, s, step);
    case RosRaise => RequestSound(cfg, s, step);
    case IoExchange(due) => ExchangeMatches(cfg, s, due);
    case IoBuild(now) =>
      BuildMatches(cfg, s, now);
      FreshlyBuilt(cfg, s, now);
    case IoWrite(outcome) =>
      WriteMatches(cfg, s, outcome);
      WriteSound(cfg, s, outcome);
      WriteFresh(s, outcome);
    case IoConfirm => LoopSound(cfg, s, step);
    case IoReport => LoopSound(cfg, s, step);
    case IoFail => LoopSound(cfg, s, step);
    case IoStop => LoopSound(cfg, s, step);
  }

  lemma {:induction false} RunsKeepInv(cfg: AdapterConfig, states: seq<LinkState>, steps: seq<Step>, clock: int, k: nat)
    requires cfg.Valid() && IsRun(cfg, states, steps, clock) && k < |states|
    ensures Inv(cfg, states[k])
  {
    if k > 0 {
      RunsKeepInv(cfg, states, steps, clock, k - 1);
      InvKept(cfg, states[k - 1], steps[k - 1]);
    }
  }

  lemma ReachableInv(cfg: AdapterConfig, s: LinkState)
    requires cfg.Valid() && Reachable(cfg, s)
    ensures Inv(cfg, s)
  {
    var states, steps, clock :| IsRun(cfg, states, steps, clock) && states[|states| - 1] == s;
    RunsKeepInv(cfg, states, steps, clock, |states| - 1);
  }

  lemma Started(cfg: AdapterConfig, now: int)
    requires cfg.Valid()
    ensures Reachable(cfg, Init(now))
  {
    assert IsRun(cfg, [Init(now)], [], now);
  }

  lemma StepReaches(cfg: AdapterConfig, s: LinkState, step: Step)
    requires cfg.Valid() && Reachable(cfg, s) && Enabled(s, step)
    ensures Reachable(cfg, Next(cfg, s, step))
  {
    var states: seq<LinkState>, steps: seq<Step>, clock: int :|
      IsRun(cfg, states, steps, clock) && states[|states| - 1] == s;
    var longer, taken := states + [Next(cfg, s, step)], steps + [step];
    forall i | 0 <= i < |taken|
      ensures Enabled(longer[i], taken[i]) && longer[i + 1] == Next(cfg, longer[i], taken[i])
    {
      if i < |steps| {
        assert longer[i] == states[i] && longer[i + 1] == states[i + 1] && taken[i] == steps[i];
      }
    }
    assert IsRun(cfg, longer, taken, clock);
  }
}
