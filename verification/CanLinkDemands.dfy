// Whatever makes the adapter drop its command is followed by a demand for a
// HOLD: the ROS thread forces one and raises the flag before it takes another
// command (socketcan_adapter.cpp).
module CanLinkDemands {
  import opened Messages
  import opened SocketCanAdapter
  import opened CanLink
  import opened CanLinkTheorems
  import G = CanonicalInputGuard

  // Where the events leave the ROS thread.
  function PhaseAfter(log: seq<Event>): RosPhase
    decreases |log|
  {
    if log == [] then Idle
    else
      var e := log[|log| - 1];
      if IsClear(e) then ForcingHold
      else if e.HoldForced? then RaisingFlag
      else if e.FlagRaised? then Idle
      else PhaseAfter(log[..|log| - 1])
  }

  // A command is accepted only where nothing is left to demand.
  ghost predicate AcceptedWhenIdle(log: seq<Event>) {
    forall a :: 0 <= a < |log| && log[a].Accepted? ==> PhaseAfter(log[..a]).Idle?
  }

  // The flag is raised only where a HOLD was forced for it.
  ghost predicate WellPaired(log: seq<Event>) {
    forall f :: 0 <= f < |log| && log[f].FlagRaised? ==> PhaseAfter(log[..f]).RaisingFlag?
  }

  ghost predicate DemandInv(s: LinkState) {
    s.ros == PhaseAfter(s.log) && AcceptedWhenIdle(s.log) && WellPaired(s.log)
  }

  lemma Appended(log: seq<Event>, e: Event)
    requires AcceptedWhenIdle(log) && (e.Accepted? ==> PhaseAfter(log).Idle?)
    requires WellPaired(log) && (e.FlagRaised? ==> PhaseAfter(log).RaisingFlag?)
    ensures AcceptedWhenIdle(log + [e]) && WellPaired(log + [e])
    ensures PhaseAfter(log + [e]) ==
            if IsClear(e) then ForcingHold else if e.HoldForced? then RaisingFlag
            else if e.FlagRaised? then Idle else PhaseAfter(log)
  {
    var longer := log + [e];
    assert longer[..|log|] == log;
    forall a | 0 <= a < |log|
      ensures longer[..a] == log[..a] && longer[a] == log[a]
    {
    }
  }

  // Where one more event leaves the ROS thread.
  function PhaseNext(phase: RosPhase, e: Event): RosPhase {
    if IsClear(e) then ForcingHold else if e.HoldForced? then RaisingFlag else if e.FlagRaised? then Idle else phase
  }

  lemma Grown(s: LinkState, t: LinkState, e: Event)
    requires DemandInv(s) && t.log == s.log + [e] && t.ros == PhaseNext(s.ros, e)
    requires (e.Accepted? ==> s.ros.Idle?) && (e.FlagRaised? ==> s.ros.RaisingFlag?)
    ensures DemandInv(t)
  {
    Appended(s.log, e);
  }

  lemma PollKeeps(s: LinkState, snapshot: G.EndpointSnapshot)
    requires DemandInv(s) && s.ros.Idle? && G.Coherent(snapshot)
    ensures DemandInv(PollStep(s, snapshot))
  {
    match PollEffectOf(s.command, snapshot)
    case Nothing =>
    case GenerationConfirmed => Grown(s, PollStep(s, snapshot), GenerationChanged);
    case EndpointLost => Grown(s, PollStep(s, snapshot), EndpointGone);
  }

  lemma AcceptKeeps(s: LinkState, command: ControlCommand, now: int)
    requires DemandInv(s) && s.ros.Idle?
    ensures DemandInv(AcceptStep(s, command, now))
  {
    if AcceptRegion(s.command, command, now).1 {
      Grown(s, AcceptStep(s, command, now), Accepted(command, now));
    }
  }

  lemma CommandKeeps(cfg: AdapterConfig, s: LinkState, command: ControlCommand, publisher: PublisherKey,
                     nowRosNs: int64, now: int)
    requires DemandInv(s) && s.ros.Idle? && G.Coherent(s.endpoint)
    ensures DemandInv(CommandStep(cfg, s, command, publisher, nowRosNs, now))
  {
    match G.Validate(command, publisher, s.endpoint, nowRosNs, nowRosNs > 0, cfg.rules)
    case Some(reason) => Grown(s, RejectStep(s, reason, now), Rejected(reason));
    case None => AcceptKeeps(s, command, now);
  }

  lemma ExchangeKeeps(s: LinkState, due: bool)
    requires DemandInv(s) && s.io.Polling?
    ensures DemandInv(ExchangeStep(s, due))
  {
    if s.immediate {
      Grown(s, ExchangeStep(s, due), FlagTaken);
    }
  }

  lemma BuildKeeps(cfg: AdapterConfig, s: LinkState, now: int)
    requires cfg.Valid() && DemandInv(s) && s.io.Building?
    ensures DemandInv(BuildStep(cfg, s, now))
  {
    match BuildRegion(cfg, s.command, now).0
    case Err(_) =>
    case Ok(b) => Grown(s, BuildStep(cfg, s, now), Built(b.signals, now));
  }

  lemma WriteKeeps(s: LinkState, outcome: WriteOutcome)
    requires DemandInv(s) && s.io.Writing?
    ensures DemandInv(WriteStep(s, outcome))
  {
    if Sendable(s.io.f.frame) && outcome.Sent? {
      Grown(s, WriteStep(s, outcome), Written(s.io.f.signals, s.io.f.built));
    }
  }

  lemma StepKeeps(cfg: AdapterConfig, s: LinkState, step: Step)
    requires cfg.Valid() && Enabled(s, step) && DemandInv(s)
    ensures DemandInv(Next(cfg, s, step))
  {
    match step
    case RosPoll(snapshot) => PollKeeps(s, snapshot);
    case RosCommand(command, publisher, nowRosNs, now) => CommandKeeps(cfg, s, command, publisher, nowRosNs, now);
    case RosForce => Grown(s, Next(cfg, s, step), HoldForced);
    case RosRaise => Grown(s, Next(cfg, s, step), FlagRaised);
    case IoExchange(due) => ExchangeKeeps(s, due);
    case IoBuild(now) => BuildKeeps(cfg, s, now);
    case IoWrite(outcome) => WriteKeeps(s, outcome);
    case IoConfirm =>
    case IoReport =>
    case IoFail =>
    case IoStop =>
  }

  lemma {:induction false} RunsKeepDemands(cfg: AdapterConfig, states: seq<LinkState>, steps: seq<Step>, clock: int, k: nat)
    requires cfg.Valid() && IsRun(cfg, states, steps, clock) && k < |states|
    ensures DemandInv(states[k])
  {
    if k > 0 {
      RunsKeepDemands(cfg, states, steps, clock, k - 1);
      StepKeeps(cfg, states[k - 1], steps[k - 1]);
    }
  }

  lemma ReachableDemands(cfg: AdapterConfig, s: LinkState)
    requires cfg.Valid() && Reachable(cfg, s)
    ensures DemandInv(s)
  {
    var states, steps, clock :| IsRun(cfg, states, steps, clock) && states[|states| - 1] == s;
    RunsKeepDemands(cfg, states, steps, clock, |states| - 1);
  }

  // A HOLD forced after position i, and the flag raised for it.
  ghost predicate ForcedAfter(log: seq<Event>, i: nat, h: nat) {
    i < h < |log| && log[h].HoldForced?
  }

  ghost predicate DemandedAfter(log: seq<Event>, i: nat, h: nat, f: nat) {
    ForcedAfter(log, i, h) && h < f < |log| && log[f].FlagRaised?
  }

  lemma {:induction false} ClearsAreDemanded(log: seq<Event>, i: nat)
    requires i < |log| && IsClear(log[i]) && WellPaired(log)
    ensures PhaseAfter(log).RaisingFlag? ==> exists h: nat :: ForcedAfter(log, i, h)
    ensures PhaseAfter(log).Idle? ==> exists h: nat, f: nat :: DemandedAfter(log, i, h, f)
    decreases |log|
  {
    var n := |log| - 1;
    var before := log[..n];
    if i < n {
      PairedBefore(log, n);
      ClearsAreDemanded(before, i);
      if log[n].HoldForced? {
        assert ForcedAfter(log, i, n);
      } else if log[n].FlagRaised? {
        assert PhaseAfter(before).RaisingFlag?;
        var h: nat :| ForcedAfter(before, i, h);
        assert DemandedAfter(log, i, h, n);
      } else if PhaseAfter(before).RaisingFlag? {
        var h: nat :| ForcedAfter(before, i, h);
        assert ForcedAfter(log, i, h);
      } else if PhaseAfter(before).Idle? {
        var h: nat, f: nat :| DemandedAfter(before, i, h, f);
        assert DemandedAfter(log, i, h, f);
      }
    }
  }

  // Between the loss of a command and the next accepted one the ROS thread
  // forces a HOLD and then raises the flag, whatever the I/O thread does.
  lemma HoldDemandedBeforeNextCommand(cfg: AdapterConfig, s: LinkState, i: nat, a: nat) returns (h: nat, f: nat)
    requires cfg.Valid() && Reachable(cfg, s) && i < a < |s.log| && IsClear(s.log[i]) && s.log[a].Accepted?
    ensures i < h < f < a && s.log[h].HoldForced? && s.log[f].FlagRaised?
  {
    ReachableDemands(cfg, s);
    PairedBefore(s.log, a);
    ClearsAreDemanded(s.log[..a], i);
    h, f :| DemandedAfter(s.log[..a], i, h, f);
  }

  lemma PairedBefore(log: seq<Event>, n: nat)
    requires n <= |log| && WellPaired(log)
    ensures WellPaired(log[..n])
  {
    forall f | 0 <= f < n && log[f].FlagRaised?
      ensures PhaseAfter(log[..n][..f]).RaisingFlag?
    {
      assert log[..n][..f] == log[..f];
    }
  }

  lemma FirstBuilt(log: seq<Event>, h: nat, b: nat) returns (first: nat)
    requires h < b < |log| && log[b].Built?
    ensures h < first <= b && log[first].Built? && forall k :: h < k < first ==> !log[k].Built?
  {
    first := h + 1;
    while !log[first].Built?
      invariant h < first <= b && forall k :: h < k < first ==> !log[k].Built?
      decreases b - first
    {
      first := first + 1;
    }
  }

  // After the loss of a command no ACTIVE frame is built before a HOLD was.
  lemma HoldBuiltBeforeActive(cfg: AdapterConfig, s: LinkState, i: nat, b: nat) returns (k: nat)
    requires cfg.Valid() && Reachable(cfg, s) && i < b < |s.log| && IsClear(s.log[i])
    requires s.log[b].Built? && s.log[b].signals.mode.Active?
    ensures i < k < b && s.log[k].Built? && s.log[k].signals.mode.Hold?
  {
    BuiltFrameDecided(cfg, s, b);
    var a: nat :| Justifies(cfg, s.log, a, b);
    assert i < a;
    var h, f := HoldDemandedBeforeNextCommand(cfg, s, i, a);
    k := FirstBuilt(s.log, h, b);
    FirstFrameAfterDemandIsHold(cfg, s, h, k);
  }
}
