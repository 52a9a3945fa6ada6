// What a tick tells about each source (decision_engine.cpp).
module EngineStatuses {
  import opened Common
  import opened Messages
  import opened CommandValidator
  import opened SourceRuntime
  import opened DecisionEngine
  import opened EngineInvariant
  import opened EngineOutput
  import A = SourceArbiter
  import M = GatewayStateMachine

  predicate Leased(cfg: EngineConfig, s: SourceSnapshot, e: TickEvent) {
    s.sourceId in cfg.policy &&
    e.steadyNs - s.receivedAt <= cfg.policy[s.sourceId].leaseTimeoutMs * NS_PER_MILLISECOND
  }

  // A status repeats its slot's counts, and is that of a source with a command
  // exactly when the slot holds one.
  predicate StatusTells(cfg: EngineConfig, x: string, slot: Slot, status: SourceStatus, e: TickEvent) {
    && status.sourceId == x && status.acceptedCount == slot.accepted && status.rejectedCount == slot.rejected
    && status.lastReject == slot.lastReject && status.lastAcceptedSequence == slot.lastSequence
    && (status.commandValid <==> slot.latest.Some?)
    && (status.leaseValid <==> slot.latest.Some? && Leased(cfg, slot.latest.value, e))
    && (slot.latest.Some? ==>
          status.commandAgeNs ==
          if e.nowRosNs > slot.latest.value.sourceStampNs then e.nowRosNs - slot.latest.value.sourceStampNs else 0)
  }

  lemma StatusIsTold(cfg: EngineConfig, x: string, slot: Slot, endpoint: SourceEndpoint, lastSteady: Option<int64>,
                     e: TickEvent)
    requires SourceInv(cfg, x, slot, endpoint, lastSteady) && (lastSteady.Some? ==> lastSteady.value <= e.steadyNs)
    ensures StatusOf(cfg, x, slot, endpoint, e).Some?
    ensures StatusTells(cfg, x, slot, StatusOf(cfg, x, slot, endpoint, e).value, e)
  {
  }

  lemma {:induction false} StatusesAreTold(cfg: EngineConfig, sources: seq<string>, b: Bindings,
                                           lastSteady: Option<int64>, e: TickEvent)
    requires forall x :: x in sources ==> x in b.slots && x in b.endpoints
    requires forall x :: x in sources ==> SourceInv(cfg, x, b.slots[x], b.endpoints[x], lastSteady)
    requires lastSteady.Some? ==> lastSteady.value <= e.steadyNs
    ensures StatusesOf(cfg, sources, b, e).Some?
    ensures var statuses := StatusesOf(cfg, sources, b, e).value;
            && |statuses| == |sources|
            && forall i :: 0 <= i < |sources| ==> StatusTells(cfg, sources[i], b.slots[sources[i]], statuses[i], e)
  {
    if sources != [] {
      var n := |sources| - 1;
      StatusesAreTold(cfg, sources[..n], b, lastSteady, e);
      StatusIsTold(cfg, sources[n], b.slots[sources[n]], b.endpoints[sources[n]], lastSteady, e);
    }
  }

  // The source whose command is published is shown with a live lease.
  lemma SelectedIsLeased(cfg: EngineConfig, c: EngineState, e: TickEvent)
    requires cfg.Valid() && Decidable(cfg, c, e)
    ensures ArbitrationOf(cfg, c, e).Some?
    ensures var selected := ArbitrationOf(cfg, c, e).value.1.selected;
            selected.Some? ==> selected.value.sourceId in cfg.sources
                               && c.bindings.slots[selected.value.sourceId].latest == selected
                               && Leased(cfg, selected.value, e)
  {
    SelectionIsHeld(cfg, c, e);
    A.SelectionQualified(c.arbiter, Collected(cfg.sources, c.bindings.slots), cfg.ArbiterRules(), e.nowRosNs,
                         e.steadyNs);
  }

  // Statuses and command of a tick, put together from its parts.
  lemma DecideReports(cfg: EngineConfig, c: EngineState, sequence: uint64, e: TickEvent)
    requires Covers(cfg, c.bindings) && Decide(cfg, c, sequence, e).Done?
    ensures ArbitrationOf(cfg, c, e).Some? && StatusesOf(cfg, cfg.sources, c.bindings, e).Some?
    ensures Decide(cfg, c, sequence, e).result.Some?
    ensures var r := Decide(cfg, c, sequence, e).result.value;
            && StatusesOf(cfg, cfg.sources, c.bindings, e) == Some(r.sources)
            && CanonicalCommand(DecisionOf(cfg, c, e)) == Some(r.canonical)
  {
  }

  // A command that names a source is that of the selection.
  lemma NamedIsSelected(cfg: EngineConfig, c: EngineState, e: TickEvent)
    requires Covers(cfg, c.bindings) && ArbitrationOf(cfg, c, e).Some?
    ensures var command, selected := CanonicalCommand(DecisionOf(cfg, c, e)), ArbitrationOf(cfg, c, e).value.1.selected;
            command.Some? && command.value.sourceId != "" ==>
              selected.Some? && selected.value.sourceId == command.value.sourceId
  {
    M.ActiveIsHealthy(c.machine, MachineInput(c, ArbitrationOf(cfg, c, e).value.1), cfg.recoveryValidSamples);
  }

  predicate ShownLeased(sources: seq<SourceStatus>, x: string) {
    exists i :: 0 <= i < |sources| && sources[i].sourceId == x && sources[i].leaseValid
  }

  lemma SelectedIsShown(cfg: EngineConfig, c: EngineState, e: TickEvent)
    requires cfg.Valid() && Decidable(cfg, c, e)
    ensures ArbitrationOf(cfg, c, e).Some? && StatusesOf(cfg, cfg.sources, c.bindings, e).Some?
    ensures var selected := ArbitrationOf(cfg, c, e).value.1.selected;
            selected.Some? ==> ShownLeased(StatusesOf(cfg, cfg.sources, c.bindings, e).value, selected.value.sourceId)
  {
    SelectedIsLeased(cfg, c, e);
    StatusesAreTold(cfg, cfg.sources, c.bindings, c.timing.lastSteady, e);
    var selected, statuses := ArbitrationOf(cfg, c, e).value.1.selected, StatusesOf(cfg, cfg.sources, c.bindings, e).value;
    if selected.Some? {
      var i :| 0 <= i < |cfg.sources| && cfg.sources[i] == selected.value.sourceId;
      assert StatusTells(cfg, cfg.sources[i], c.bindings.slots[cfg.sources[i]], statuses[i], e);
    }
  }

  // Every tick reports on each configured source, in order and truly, and what
  // it publishes comes from a source that it reports as leased.
  lemma TickReports(cfg: EngineConfig, s: EngineState, sequence: uint64, e: TickEvent)
    requires cfg.Valid() && Inv(cfg, s) && ApplyTick(cfg, s, sequence, e).Done?
    ensures ApplyTick(cfg, s, sequence, e).result.Some?
    ensures var r := ApplyTick(cfg, s, sequence, e).result.value;
            && |r.sources| == |cfg.sources|
            && (forall i :: 0 <= i < |cfg.sources| ==>
                  StatusTells(cfg, cfg.sources[i], s.bindings.slots[cfg.sources[i]], r.sources[i], e))
            && (r.canonical.sourceId != "" ==> ShownLeased(r.sources, r.canonical.sourceId))
  {
    TickKeeps(cfg, s, sequence, e);
    CountedIsDecidable(cfg, s, e);
    var c := Counted(cfg, s, e);
    DecideReports(cfg, c, sequence, e);
    NamedIsSelected(cfg, c, e);
    SelectedIsShown(cfg, c, e);
    StatusesAreTold(cfg, cfg.sources, c.bindings, c.timing.lastSteady, e);
  }
}
