// When composing the vehicle state throws: the lease of a command outlives it
// (socketcan_adapter.cpp).
module CanLinkLease {
  import opened Common
  import opened Messages
  import opened SocketCanAdapter
  import opened CanLink
  import opened CanLinkHistory
  import opened CanLinkSafety
  import CanFeedback
  import G = CanonicalInputGuard

  // ------------------------------------------- lease and reject reason

  // The command whose lease runs: the last accepted one, unless the gateway has
  // a new generation since.
  function LeaseBy(log: seq<Event>): (r: Option<nat>)
    ensures r.Some? ==> r.value < |log| && log[r.value].Accepted?
    decreases |log|
  {
    if log == [] then None
    else
      var n := |log| - 1;
      match log[n]
      case Accepted(_, _) => Some(n)
      case GenerationChanged => None
      case _ => LeaseBy(log[..n])
  }

  // The last reject reason since then.
  function RejectBy(log: seq<Event>): Option<G.CanonicalReject>
    decreases |log|
  {
    if log == [] then None
    else
      var n := |log| - 1;
      match log[n]
      case Rejected(reason) => Some(reason)
      case Accepted(_, _) => None
      case GenerationChanged => None
      case _ => RejectBy(log[..n])
  }

  function LeaseTime(log: seq<Event>): Option<int> {
    var a := LeaseBy(log);
    if a.Some? then Some(log[a.value].at) else None
  }

  ghost predicate LeaseInv(s: LinkState) {
    s.command.lease == LeaseTime(s.log) && s.command.lastReject == RejectBy(s.log)
  }

  lemma OneMoreEvent(log: seq<Event>, e: Event)
    ensures LeaseTime(log + [e]) ==
            if e.Accepted? then Some(e.at) else if e.GenerationChanged? then None else LeaseTime(log)
    ensures RejectBy(log + [e]) ==
            if e.Rejected? then Some(e.reason) else if e.Accepted? || e.GenerationChanged? then None else RejectBy(log)
  {
    assert (log + [e])[..|log|] == log;
    assert LeaseBy(log).Some? ==> (log + [e])[LeaseBy(log).value] == log[LeaseBy(log).value];
  }

  // A step that adds an event, or none, and moves the two fields accordingly.
  lemma Moved(s: LinkState, t: LinkState, e: Event)
    requires LeaseInv(s) && t.log == s.log + [e]
    requires t.command.lease ==
             if e.Accepted? then Some(e.at) else if e.GenerationChanged? then None else s.command.lease
    requires t.command.lastReject ==
             if e.Rejected? then Some(e.reason) else if e.Accepted? || e.GenerationChanged? then None
             else s.command.lastReject
    ensures LeaseInv(t)
  {
    OneMoreEvent(s.log, e);
  }

  lemma PollKeeps(s: LinkState, snapshot: G.EndpointSnapshot)
    requires LeaseInv(s) && G.Coherent(snapshot)
    ensures LeaseInv(PollStep(s, snapshot))
  {
    match PollEffectOf(s.command, snapshot)
    case Nothing =>
    case GenerationConfirmed => Moved(s, PollStep(s, snapshot), GenerationChanged);
    case EndpointLost => Moved(s, PollStep(s, snapshot), EndpointGone);
  }

  lemma AcceptKeeps(s: LinkState, command: ControlCommand, now: int)
    requires LeaseInv(s) && (s.command.lease.Some? ==> s.command.lease.value <= now)
    ensures LeaseInv(AcceptStep(s, command, now))
  {
    Moved(s, AcceptStep(s, command, now), Accepted(command, now));
  }

  lemma CommandKeeps(cfg: AdapterConfig, s: LinkState, command: ControlCommand, publisher: PublisherKey,
                     nowRosNs: int64, now: int)
    requires LeaseInv(s) && G.Coherent(s.endpoint) && (s.command.lease.Some? ==> s.command.lease.value <= now)
    ensures LeaseInv(CommandStep(cfg, s, command, publisher, nowRosNs, now))
  {
    match G.Validate(command, publisher, s.endpoint, nowRosNs, nowRosNs > 0, cfg.rules)
    case Some(reason) => Moved(s, RejectStep(s, reason, now), Rejected(reason));
    case None => AcceptKeeps(s, command, now);
  }

  lemma BuildKeeps(cfg: AdapterConfig, s: LinkState, now: int)
    requires cfg.Valid() && LeaseInv(s) && s.io.Building?
    ensures LeaseInv(BuildStep(cfg, s, now))
  {
    BuildEncodes(cfg, s.command, now);
    match BuildRegion(cfg, s.command, now).0
    case Err(_) =>
    case Ok(b) => Moved(s, BuildStep(cfg, s, now), Built(b.signals, now));
  }

  lemma WriteKeeps(s: LinkState, outcome: WriteOutcome)
    requires LeaseInv(s) && s.io.Writing?
    ensures LeaseInv(WriteStep(s, outcome))
  {
    if Sendable(s.io.f.frame) && outcome.Sent? {
      Moved(s, WriteStep(s, outcome), Written(s.io.f.signals, s.io.f.built));
    }
  }

  lemma StepKeeps(cfg: AdapterConfig, s: LinkState, step: Step)
    requires cfg.Valid() && Enabled(s, step) && LeaseInv(s)
    requires s.command.lease.Some? ==> s.command.lease.value <= s.clock
    ensures LeaseInv(Next(cfg, s, step))
  {
    match step
    case RosPoll(snapshot) => PollKeeps(s, snapshot);
    case RosCommand(command, publisher, nowRosNs, now) => CommandKeeps(cfg, s, command, publisher, nowRosNs, now);
    case RosForce => Moved(s, Next(cfg, s, step), HoldForced);
    case RosRaise => Moved(s, Next(cfg, s, step), FlagRaised);
    case IoExchange(due) =>
      if s.immediate {
        Moved(s, ExchangeStep(s, due), FlagTaken);
      }
    case IoBuild(now) => BuildKeeps(cfg, s, now);
    case IoWrite(outcome) => WriteKeeps(s, outcome);
    case IoConfirm =>
    case IoReport =>
    case IoFail =>
    case IoStop =>
  }

  lemma {:induction false} RunsKeepLease(cfg: AdapterConfig, states: seq<LinkState>, steps: seq<Step>, clock: int, k: nat)
    requires cfg.Valid() && IsRun(cfg, states, steps, clock) && k < |states|
    ensures LeaseInv(states[k])
  {
    if k > 0 {
      RunsKeepLease(cfg, states, steps, clock, k - 1);
      LeaseInPast(cfg, states, steps, clock, k - 1);
      StepKeeps(cfg, states[k - 1], steps[k - 1]);
    }
  }

  lemma LeaseInPast(cfg: AdapterConfig, states: seq<LinkState>, steps: seq<Step>, clock: int, k: nat)
    requires cfg.Valid() && IsRun(cfg, states, steps, clock) && k < |states|
    ensures states[k].command.lease.Some? ==> states[k].command.lease.value <= states[k].clock
  {
    RunsKeepInv(cfg, states, steps, clock, k);
  }

  lemma ReachableLease(cfg: AdapterConfig, s: LinkState)
    requires cfg.Valid() && Reachable(cfg, s)
    ensures LeaseInv(s)
  {
    var states, steps, clock :| IsRun(cfg, states, steps, clock) && states[|states| - 1] == s;
    RunsKeepLease(cfg, states, steps, clock, |states| - 1);
  }

  // ------------------------------------------------ which histories throw

  // The command of event a is the last accepted one from this generation.
  ghost predicate LastAccepted(log: seq<Event>, a: nat) {
    && a < |log| && log[a].Accepted?
    && forall k :: a < k < |log| ==> !log[k].Accepted? && !log[k].GenerationChanged?
  }

  // The last rejection after a.
  ghost predicate LastReject(log: seq<Event>, a: nat, k: nat) {
    a < k < |log| && log[k].Rejected? && forall m :: k < m < |log| ==> !log[m].Rejected?
  }

  // It was dropped since, and the last rejection after it, if any, says nothing
  // of the command that was refused.
  ghost predicate DroppedForEndpoint(log: seq<Event>, a: nat) {
    && (exists k :: a < k < |log| && (log[k].EndpointGone? || log[k].Rejected?))
    && forall k: nat :: LastReject(log, a, k) ==> CanFeedback.BlamesEndpoint(log[k].reason)
  }

  lemma {:induction false} LeaseByIs(log: seq<Event>, a: nat)
    ensures LeaseBy(log) == Some(a) <==> LastAccepted(log, a)
    decreases |log|
  {
    if log != [] {
      LeaseByIs(log[..|log| - 1], a);
    }
  }

  lemma {:induction false} HeldByAfter(log: seq<Event>, a: nat)
    requires LastAccepted(log, a)
    ensures HeldBy(log).None? <==> exists k :: a < k < |log| && (log[k].EndpointGone? || log[k].Rejected?)
    decreases |log|
  {
    var n := |log| - 1;
    if a < n {
      HeldByAfter(log[..n], a);
    }
  }

  lemma {:induction false} RejectByAfter(log: seq<Event>, a: nat)
    requires LastAccepted(log, a)
    ensures forall k: nat :: LastReject(log, a, k) ==> RejectBy(log) == Some(log[k].reason)
    ensures RejectBy(log).Some? ==> exists k: nat :: LastReject(log, a, k)
    decreases |log|
  {
    var n := |log| - 1;
    if a < n {
      var before := log[..n];
      RejectByAfter(before, a);
      if log[n].Rejected? {
        assert LastReject(log, a, n);
      } else {
        forall k: nat | LastReject(log, a, k)
          ensures LastReject(before, a, k)
        {
        }
        if RejectBy(before).Some? {
          var k: nat :| LastReject(before, a, k);
          assert LastReject(log, a, k);
        }
      }
    }
  }

  // What is left to the fault in terms of the last accepted command.
  lemma FaultAfter(cfg: AdapterConfig, s: LinkState, a: nat, now: int)
    requires cfg.Valid() && Reachable(cfg, s) && s.clock <= now && LastAccepted(s.log, a)
    ensures CanonicalFault(cfg, s.command, now).None? <==>
            && s.endpoint.state.Confirmed? && now - s.log[a].at <= cfg.watchdogTimeoutNs
            && DroppedForEndpoint(s.log, a)
  {
    ReachableInv(cfg, s);
    ReachableLease(cfg, s);
    LeaseByIs(s.log, a);
    HeldByAfter(s.log, a);
    RejectByAfter(s.log, a);
    CanFeedback.FaultThrowsExactly(cfg, s.command, now);
    RejectDecides(s.log, a);
  }

  lemma RejectDecides(log: seq<Event>, a: nat)
    requires LastAccepted(log, a)
    ensures (RejectBy(log).Some? ==> CanFeedback.BlamesEndpoint(RejectBy(log).value)) <==>
            forall k: nat :: LastReject(log, a, k) ==> CanFeedback.BlamesEndpoint(log[k].reason)
  {
    RejectByAfter(log, a);
  }

  // In any interleaving, composing the fault throws exactly when the endpoint is
  // confirmed and the lease still runs of a command that was dropped since: for
  // the endpoint, with no new generation.
  lemma FaultThrowsInRuns(cfg: AdapterConfig, s: LinkState, now: int)
    requires cfg.Valid() && Reachable(cfg, s) && s.clock <= now
    ensures CanonicalFault(cfg, s.command, now).None? <==>
            && s.endpoint.state.Confirmed?
            && exists a: nat :: LastAccepted(s.log, a) && now - s.log[a].at <= cfg.watchdogTimeoutNs
                                && DroppedForEndpoint(s.log, a)
  {
    ReachableLease(cfg, s);
    var lease := LeaseBy(s.log);
    if lease.Some? {
      LeaseByIs(s.log, lease.value);
      FaultAfter(cfg, s, lease.value, now);
    } else {
      CanFeedback.FaultThrowsExactly(cfg, s.command, now);
    }
    forall a: nat | LastAccepted(s.log, a)
      ensures lease == Some(a)
    {
      LeaseByIs(s.log, a);
    }
  }

  // ---------------------------------------------------- a run that does

  function ConfirmedBy(cfg: AdapterConfig, key: PublisherKey): G.EndpointSnapshot {
    G.EndpointSnapshot(G.Confirmed, cfg.rules.gatewayFqn, Some(key))
  }

  const UNSTABLE := G.EndpointSnapshot(G.Unstable, "", None)

  // The HOLD that a gateway without a source publishes.
  const ANONYMOUS_HOLD := ControlCommand(Stamp(0, 0), "", 0, MODE_HOLD, Finite(0.0), Finite(0.0))

  // The ROS thread demands a HOLD after a poll.
  lemma DemandReaches(cfg: AdapterConfig, s: LinkState) returns (t: LinkState)
    requires cfg.Valid() && Reachable(cfg, s) && s.ros.ForcingHold?
    ensures Reachable(cfg, t) && t.ros.Idle? && t.command == ForceRegion(s.command)
    ensures t.endpoint == s.endpoint && t.clock == s.clock
  {
    StepReaches(cfg, s, RosForce);
    var forced := Next(cfg, s, RosForce);
    StepReaches(cfg, forced, RosRaise);
    t := Next(cfg, forced, RosRaise);
  }

  lemma HoldAccepted(cfg: AdapterConfig, key: PublisherKey, at: int) returns (s: LinkState)
    requires cfg.Valid()
    ensures Reachable(cfg, s) && s.ros.Idle? && s.clock == at && s.endpoint == ConfirmedBy(cfg, key)
    ensures s.command.endpointState.Confirmed? && s.command.confirmed == Some(key) && s.command.lastReject.None?
    ensures s.command.lease == Some(at)
  {
    Started(cfg, at);
    var s0 := Init(at);
    StepReaches(cfg, s0, RosPoll(ConfirmedBy(cfg, key)));
    var s1 := DemandReaches(cfg, PollStep(s0, ConfirmedBy(cfg, key)));
    G.AcceptsExactly(ANONYMOUS_HOLD, key, s1.endpoint, 1, true, cfg.rules);
    StepReaches(cfg, s1, RosCommand(ANONYMOUS_HOLD, key, 1, at));
    s := Next(cfg, s1, RosCommand(ANONYMOUS_HOLD, key, 1, at));
  }

  // A command is accepted, one poll finds the endpoint unstable and the next one
  // confirms the same publisher again: until the lease ends, composing throws.
  lemma LeaseOutlivesCommand(cfg: AdapterConfig, key: PublisherKey, at: int) returns (s: LinkState)
    requires cfg.Valid()
    ensures Reachable(cfg, s) && s.clock == at
    ensures forall now :: at <= now <= at + cfg.watchdogTimeoutNs ==> CanonicalFault(cfg, s.command, now).None?
  {
    var s1 := HoldAccepted(cfg, key, at);
    StepReaches(cfg, s1, RosPoll(UNSTABLE));
    var s2 := DemandReaches(cfg, PollStep(s1, UNSTABLE));
    StepReaches(cfg, s2, RosPoll(ConfirmedBy(cfg, key)));
    s := PollStep(s2, ConfirmedBy(cfg, key));
  }
}
