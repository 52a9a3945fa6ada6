// Which steps of the ROS thread are which events, and what they do to the
// command in force (control_link_adapters/src/socketcan_adapter.cpp).
module CanLinkEvents {
  import opened Common
  import opened Messages
  import opened SocketCanAdapter
  import opened CanLink
  import opened CanLinkSafety
  import G = CanonicalInputGuard

  // A poll that confirms a publisher other than the last confirmed one is a
  // change of generation, a poll that loses a confirmed endpoint is its loss,
  // and either drops the command and owes a HOLD; a change of generation also
  // ends the lease and forgives the last rejection. Every other poll changes
  // no more than what is known of the endpoint.
  lemma PollTells(cfg: AdapterConfig, s: LinkState, snapshot: G.EndpointSnapshot)
    requires cfg.Valid() && Reachable(cfg, s) && Enabled(s, RosPoll(snapshot))
    ensures var t := Next(cfg, s, RosPoll(snapshot));
            && t.endpoint == snapshot && t.command.endpointState == snapshot.state
            && t.command.nextCounter == s.command.nextCounter && t.command.forceNextHold == s.command.forceNextHold
            && t.io == s.io && t.retry == s.retry && t.bus == s.bus && t.immediate == s.immediate
            && if snapshot.state.Confirmed? && snapshot.publisher != s.command.confirmed then
                 && t.log == s.log + [GenerationChanged] && t.ros == ForcingHold
                 && t.command.confirmed == snapshot.publisher
                 && t.command.latest.None? && t.command.lease.None? && t.command.lastReject.None?
               else if !snapshot.state.Confirmed? && s.endpoint.state.Confirmed? then
                 && t.log == s.log + [EndpointGone] && t.ros == ForcingHold
                 && t.command == s.command.(endpointState := snapshot.state, latest := None)
               else
                 t.log == s.log && t.ros == s.ros && t.command == s.command.(endpointState := snapshot.state)
  {
    KnownEndpoint(cfg, s);
    RegionTells(s.command, snapshot);
  }

  lemma KnownEndpoint(cfg: AdapterConfig, s: LinkState)
    requires cfg.Valid() && Reachable(cfg, s)
    ensures s.command.endpointState == s.endpoint.state
    ensures s.command.lease.Some? ==> s.command.lease.value <= s.clock
  {
    ReachableInv(cfg, s);
  }

  lemma RegionTells(c: CommandSide, snapshot: G.EndpointSnapshot)
    requires G.Coherent(snapshot)
    ensures PollRegion(c, snapshot) ==
            if snapshot.state.Confirmed? && snapshot.publisher != c.confirmed then
              c.(endpointState := snapshot.state, confirmed := snapshot.publisher, latest := None, lease := None,
                 lastReject := None)
            else if !snapshot.state.Confirmed? && c.endpointState.Confirmed? then
              c.(endpointState := snapshot.state, latest := None)
            else c.(endpointState := snapshot.state)
    ensures PollEffectOf(c, snapshot) ==
            if snapshot.state.Confirmed? && snapshot.publisher != c.confirmed then GenerationConfirmed
            else if !snapshot.state.Confirmed? && c.endpointState.Confirmed? then EndpointLost
            else Nothing
  {
  }

  // A command that the guard passes is in force from then on and renews the
  // lease; one that it refuses is dropped with the one in force, its reason is
  // kept, and a HOLD is owed.
  lemma CommandTells(cfg: AdapterConfig, s: LinkState, command: ControlCommand, publisher: PublisherKey,
                     nowRosNs: int64, now: int)
    requires cfg.Valid() && Reachable(cfg, s) && Enabled(s, RosCommand(command, publisher, nowRosNs, now))
    ensures var t := Next(cfg, s, RosCommand(command, publisher, nowRosNs, now));
            && t.endpoint == s.endpoint && t.clock == now
            && t.io == s.io && t.retry == s.retry && t.bus == s.bus && t.immediate == s.immediate
            && match G.Validate(command, publisher, s.endpoint, nowRosNs, nowRosNs > 0, cfg.rules)
               case None =>
                 && t.log == s.log + [Accepted(command, now)] && t.ros == s.ros
                 && t.command == s.command.(latest := Some(command), lease := Some(now), lastReject := None)
               case Some(reason) =>
                 && t.log == s.log + [Rejected(reason)] && t.ros == ForcingHold
                 && t.command == s.command.(latest := None, lastReject := Some(reason))
  {
    KnownEndpoint(cfg, s);
  }

  // And then the HOLD is forced and the flag raised, in this order.
  lemma DemandTells(cfg: AdapterConfig, s: LinkState)
    requires cfg.Valid() && Reachable(cfg, s)
    ensures s.ros.ForcingHold? ==>
              Next(cfg, s, RosForce) ==
              s.(command := s.command.(forceNextHold := true), ros := RaisingFlag, log := s.log + [HoldForced])
    ensures s.ros.RaisingFlag? ==>
              Next(cfg, s, RosRaise) == s.(immediate := true, ros := Idle, log := s.log + [FlagRaised])
    ensures !s.ros.Idle? ==>
              forall step :: Enabled(s, step) ==> !step.RosPoll? && !step.RosCommand?
  {
  }
}
