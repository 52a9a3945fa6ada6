// Exactly when the gateway is in which state, and why
// (control_link_gateway/src/state_machine.cpp).
module StateMachineLaws {
  import opened Common
  import opened CommandValidator
  import opened SourceArbiter
  import opened GatewayStateMachine

  // What keeps the gateway out of a safe stop, whatever it follows.
  predicate Safe(h: Health) {
    && h.outputTickHealthy && h.criticalEndpointsHealthy && h.rosClockHealthy
    && h.vehicleStateValid && h.vehicleStateFresh && !h.vehicleReportsFault && !h.vehicleReportsSafeStop
  }

  // The recovery health, whose changes move the epoch, is exactly that no
  // condition stands against an active gateway.
  lemma HealthyExactly(h: Health)
    ensures AllHealthy(h) <==> h.internalInvariantsHealthy && Safe(h) && h.criticalQosCompatible
    ensures AllHealthy(h) <==> AssessHealth(h).None?
  {
  }

  // The evidence for the selected publisher, with what was carried over.
  function EvidenceFor(m: MachineState, input: Input, selected: SourceSnapshot): nat {
    var key := CandidateKey.CandidateKey(selected.sourceId, selected.generation);
    CountEvidence(
      if m.recoveryEpoch == Some(input.healthEpoch) && m.candidate == Some(key) then m.validCount else 0,
      input.evidences, key, input.healthEpoch)
  }

  // A broken invariant is an error; then an unsafe condition, or the loss of
  // the source once it had one, stops the gateway; then a QoS mismatch degrades
  // it. A healthy gateway with a source stays active, or becomes active with
  // enough evidence.
  lemma StateExactly(m: MachineState, input: Input, samples: nat)
    requires !m.state.Error?
    ensures var h, selected, event := input.health, input.arbitration.selected, input.arbitration.event;
            var state := Evaluate(m, input, samples).1.state;
            var sound := h.internalInvariantsHealthy;
            var healthy := sound && Safe(h) && h.criticalQosCompatible && selected.Some?;
            && (state.SafeStop? <==> sound && (!Safe(h) || (selected.None? && !m.state.Standby?)))
            && (state.Degraded? <==> sound && Safe(h) && !h.criticalQosCompatible && (selected.Some? || m.state.Standby?))
            && (state.Standby? <==>
                  sound && Safe(h) && h.criticalQosCompatible && selected.None? && m.state.Standby?)
            && (state.Active? <==>
                  healthy && !event.NoQualifiedSource? &&
                  if m.state.Active? then !event.FirstSelection? else EvidenceFor(m, input, selected.value) >= samples)
            && (state.Recovering? <==>
                  healthy && !event.NoQualifiedSource? && !m.state.Active?
                  && EvidenceFor(m, input, selected.value) < samples)
            && (state.Error? <==>
                  !sound || (healthy && (event.NoQualifiedSource? || (m.state.Active? && event.FirstSelection?))))
  {
  }

  // The state or the selected source is not that of the last decision.
  predicate Changes(m: MachineState, d: Decision) {
    d.state != m.state || (if d.selected.Some? then Some(d.selected.value.sourceId) else None) != m.lastSelected
  }

  // A decision counts as a transition, and takes its reason, exactly if it
  // changes something.
  predicate Counted(m: MachineState, after: MachineState, d: Decision, reason: StateReason) {
    && d.transitionSequence == after.transitions == (if Changes(m, d) then m.transitions + 1 else m.transitions)
    && d.reason == after.reason == (if Changes(m, d) then reason else m.reason)
    && after.state == d.state
    && after.lastSelected == (if d.selected.Some? then Some(d.selected.value.sourceId) else None)
  }

  lemma CommitCounts(m: MachineState, next: DataState, reason: StateReason, selected: Option<SourceSnapshot>)
    ensures var (after, d) := Commit(m, next, reason, selected);
            && Counted(m, after, d, reason) && d.state == next && d.selected == selected
            && d.recoveryValidCount == after.validCount == (if next.Recovering? then m.validCount else 0)
  {
  }

  // Why the gateway stops or degrades: the first failing condition in this
  // order.
  function StopReason(h: Health, selected: Option<SourceSnapshot>): StateReason {
    if !h.outputTickHealthy then OutputTickOverrun
    else if !h.criticalEndpointsHealthy then CriticalEndpointUnhealthy
    else if !h.rosClockHealthy then ReasonClockInvalid
    else if !h.vehicleStateValid then VehicleStateInvalid
    else if !h.vehicleStateFresh then VehicleStateTimeout
    else if h.vehicleReportsFault then VehicleFault
    else if h.vehicleReportsSafeStop then VehicleSafeStop
    else ReasonNoQualifiedSource
  }

  // How the source that is being followed came to be selected.
  function SelectionReason(m: MachineState, event: ArbitrationEvent): StateReason {
    match event
    case FirstSelection => FirstValidCommand
    case Switch => SourceSwitch
    case Fallback => SourceFallback
    case NoChange => m.reason
    case NoQualifiedSource => InternalInvariant
  }

  lemma GateReason(m: MachineState, input: Input, samples: nat)
    requires !m.state.Error? && SafetyGate(m, input).Some?
    ensures var (after, d) := Evaluate(m, input, samples);
            && d.recoveryValidCount == 0
            && Counted(m, after, d, match d.state
                                    case Error => InternalInvariant
                                    case SafeStop => StopReason(input.health, d.selected)
                                    case Degraded => CriticalQosMismatch
                                    case _ => m.reason)
  {
    var gate := SafetyGate(m, input).value;
    CommitCounts(m, gate.0, gate.1, input.arbitration.selected);
  }

  // What is counted in a recovery is there in the next tick.
  lemma RouteReason(m: MachineState, input: Input, samples: nat)
    requires !m.state.Error? && SafetyGate(m, input).None?
    ensures var (after, d) := Evaluate(m, input, samples);
            && (d.state.Error? || d.state.Active? || d.state.Recovering?) && d.selected.Some?
            && d.recoveryValidCount == (if d.state.Recovering? then EvidenceFor(m, input, d.selected.value) else 0)
            && Counted(m, after, d, if d.state.Error? then InternalInvariant
                                    else if d.state.Active? && !m.state.Active? then RecoveryComplete
                                    else SelectionReason(m, input.arbitration.event))
    ensures var (after, d) := Evaluate(m, input, samples);
            d.state.Recovering? ==>
              && after.recoveryEpoch == Some(input.healthEpoch) && after.validCount == d.recoveryValidCount
              && after.candidate == Some(CandidateKey.CandidateKey(d.selected.value.sourceId, d.selected.value.generation))
  {
    var selected, event := input.arbitration.selected, input.arbitration.event;
    if m.state.Active? {
      CommitCounts(m, ActiveRoute(m, event).0, ActiveRoute(m, event).1, selected);
    } else if !event.NoQualifiedSource? {
      var context := RecoveryContext(m, input.healthEpoch, CandidateOf(selected.value));
      var counted := context.(validCount := EvidenceFor(m, input, selected.value));
      CommitCounts(counted, Active, RecoveryComplete, selected);
      CommitCounts(counted, Recovering, SelectionReason(m, event), selected);
    }
  }

  // The reason of every decision, over both halves of a tick.
  lemma ReasonExactly(m: MachineState, input: Input, samples: nat)
    requires !m.state.Error?
    ensures var (after, d) := Evaluate(m, input, samples);
            && d.recoveryValidCount ==
                 (if d.state.Recovering? && d.selected.Some? then EvidenceFor(m, input, d.selected.value) else 0)
            && Counted(m, after, d, match d.state
                                    case Error => InternalInvariant
                                    case SafeStop => StopReason(input.health, d.selected)
                                    case Degraded => CriticalQosMismatch
                                    case Standby => m.reason
                                    case Active => if m.state.Active? then SelectionReason(m, input.arbitration.event)
                                                   else RecoveryComplete
                                    case Recovering => SelectionReason(m, input.arbitration.event))
  {
    if SafetyGate(m, input).Some? {
      GateReason(m, input, samples);
      StateExactly(m, input, samples);
    } else {
      RouteReason(m, input, samples);
    }
  }
}
